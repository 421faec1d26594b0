/** The signal transmitter page of the studio: its form state, the effect
    that loads the selected signal or resets the form for a new one, the
    automatic slug on a title change, and the preview cut-off at the glitch
    point. */
module SignalsPage {
  import opened Wrappers
  import Slugs
  import Signals

  const NewContent := "# New Transmission\n\nStart writing..."

  /** `s.slice(start, end)`: negative positions count from the end, and
      both are clamped to the string. */
  function Slice(s: string, start: int, end: int): (r: string)
    ensures |r| <= |s|
  {
    var a := if start < 0 then (if |s| + start < 0 then 0 else |s| + start) else (if start > |s| then |s| else start);
    var b := if end < 0 then (if |s| + end < 0 then 0 else |s| + end) else (if end > |s| then |s| else end);
    if a >= b then "" else s[a..b]
  }

  /** The preview: the text just before the glitch point. */
  function PreviewCutoff(content: string, glitchPoint: int): (r: string)
    ensures glitchPoint >= 0 ==> |r| <= 30
    ensures 0 <= glitchPoint <= |content| ==>
      r == content[if glitchPoint < 30 then 0 else glitchPoint - 30..glitchPoint]
  {
    Slice(content, if glitchPoint - 30 > 0 then glitchPoint - 30 else 0, glitchPoint)
  }

  /** At or past the end of the text, the preview is its last thirty
      characters. */
  lemma PreviewAtEnd(content: string, glitchPoint: int)
    requires glitchPoint >= |content|
    ensures PreviewCutoff(content, glitchPoint) ==
      content[if glitchPoint - 30 > |content| then |content| else if glitchPoint < 30 then 0 else glitchPoint - 30..]
  {
  }

  /** `signal.glitchPoint || 100`. */
  function LoadedGlitchPoint(g: Option<int>): (r: int)
    ensures g.None? || g.value == 0 ==> r == 100
    ensures g.Some? && g.value != 0 ==> r == g.value
  {
    if g.Some? && g.value != 0 then g.value else 100
  }

  class SignalForm {
    var selectedId: Option<nat>
    var title: string
    var slug: string
    var season: int
    var episode: int
    var content: string
    var isLocked: bool
    var glitchPoint: int
    var coverImage: string
    var subtitle: string
    var generatedPrompt: string

    /** The form as it is reset for a new entry. */
    predicate IsBlank()
      reads this
    {
      title == "" && slug == "" && season == 0 && episode == 1 && content == NewContent &&
      isLocked && glitchPoint == 50 && coverImage == "" && subtitle == "" && generatedPrompt == ""
    }

    /** The initial state: nothing selected and the `useState` defaults. */
    constructor ()
      ensures selectedId.None? && title == "" && slug == "" && season == 0 && episode == 1 && content == ""
      ensures isLocked && glitchPoint == 100 && coverImage == "" && subtitle == "" && generatedPrompt == ""
    {
      selectedId := None;
      title, slug, season, episode, content := "", "", 0, 1, "";
      isLocked, glitchPoint, coverImage, subtitle, generatedPrompt := true, 100, "", "", "";
    }

    /** A click on a signal in the grid, or on "new". */
    method Select(id: Option<nat>)
      modifies this
      ensures selectedId == id
      ensures title == old(title) && slug == old(slug) && season == old(season) && episode == old(episode)
      ensures content == old(content) && isLocked == old(isLocked) && glitchPoint == old(glitchPoint)
      ensures coverImage == old(coverImage) && subtitle == old(subtitle) && generatedPrompt == old(generatedPrompt)
    {
      selectedId := id;
    }

    /** The load effect, run with the signal list (`None` while loading): a
      selected signal that is in the list fills the form; with no selection
      the form is reset; otherwise nothing changes. */
    method Load(signals: Option<seq<Signals.Signal>>)
      modifies this
      ensures selectedId == old(selectedId)
      ensures old(selectedId).None? ==> IsBlank()
      ensures old(selectedId).Some? && signals.Some? && Signals.IndexOfId(signals.value, old(selectedId).value).Some? ==>
        var s := signals.value[Signals.IndexOfId(signals.value, old(selectedId).value).value];
        title == s.title && slug == s.slug && season == s.season && episode == s.episode &&
        content == s.content && isLocked == s.isLocked && glitchPoint == LoadedGlitchPoint(s.glitchPoint) &&
        coverImage == s.coverImage.GetOr("") && subtitle == s.subtitle.GetOr("") &&
        generatedPrompt == old(generatedPrompt)
      ensures old(selectedId).Some? && (signals.None? || Signals.IndexOfId(signals.value, old(selectedId).value).None?) ==>
        title == old(title) && slug == old(slug) && season == old(season) && episode == old(episode) &&
        content == old(content) && isLocked == old(isLocked) && glitchPoint == old(glitchPoint) &&
        coverImage == old(coverImage) && subtitle == old(subtitle) && generatedPrompt == old(generatedPrompt)
    {
      if selectedId.Some? && signals.Some? {
        var i := Signals.IndexOfId(signals.value, selectedId.value);
        if i.Some? {
          var s := signals.value[i.value];
          title, slug, season, episode, content := s.title, s.slug, s.season, s.episode, s.content;
          isLocked := s.isLocked;
          glitchPoint := LoadedGlitchPoint(s.glitchPoint);
          coverImage := s.coverImage.GetOr("");
          subtitle := s.subtitle.GetOr("");
        }
      } else if selectedId.None? {
        title, slug, season, episode, content := "", "", 0, 1, NewContent;
        isLocked, glitchPoint, coverImage, subtitle, generatedPrompt := true, 50, "", "", "";
      }
    }

    /** `handleTitleChange`: the title follows the input; the slug follows it
      only while the entry is new. */
    method TitleChanged(val: string)
      modifies this
      ensures title == val
      ensures old(selectedId).None? ==> slug == Slugs.SignalSlug(old(season), old(episode), val)
      ensures old(selectedId).Some? ==> slug == old(slug)
      ensures selectedId == old(selectedId) && season == old(season) && episode == old(episode)
      ensures content == old(content) && isLocked == old(isLocked) && glitchPoint == old(glitchPoint)
      ensures coverImage == old(coverImage) && subtitle == old(subtitle) && generatedPrompt == old(generatedPrompt)
    {
      title := val;
      if selectedId.None? {
        slug := Slugs.SignalSlug(season, episode, val);
      }
    }
  }

  /** The slug a new entry gets from its title is a signal slug whose title
      part is a well-formed slug. */
  lemma NewEntrySlugShape(season: int, episode: int, val: string)
    requires 0 <= season < 1000 && 0 <= episode < 1000
    ensures var s := Slugs.SignalSlug(season, episode, val);
      s[3] == '-' && s[7] == '-' && Slugs.IsSlug(s[8..])
  {
    Slugs.SignalSlugShape(season, episode, val);
  }
}
