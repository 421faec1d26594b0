/** The slug format of the signal studio: a title lowercased, every run of
    characters outside [a-z0-9] replaced by one hyphen, and a leading and a
    trailing hyphen dropped; a signal's full slug prefixes the season and
    episode, each padded to three digits. */
module Slugs {
  import Text

  predicate IsSlugChar(c: char) { Text.IsAsciiLower(c) || Text.IsDigit(c) }

  /** The end of the run of characters outside [a-z0-9] that starts at `i`. */
  function RunEnd(s: string, i: nat): (e: nat)
    requires i <= |s|
    ensures i <= e <= |s| && (e == |s| || IsSlugChar(s[e]))
    ensures forall k :: i <= k < e ==> !IsSlugChar(s[k])
    decreases |s| - i
  {
    if i < |s| && !IsSlugChar(s[i]) then RunEnd(s, i + 1) else i
  }

  /** `.replace(/[^a-z0-9]+/g, '-')`. */
  function Collapse(s: string): (r: string)
    ensures s != [] && IsSlugChar(s[0]) ==> r != [] && r[0] == s[0]
    ensures s != [] && !IsSlugChar(s[0]) ==> r != [] && r[0] == '-'
    ensures s == [] <==> r == []
    decreases |s|
  {
    if s == [] then []
    else if IsSlugChar(s[0]) then [s[0]] + Collapse(s[1..])
    else
      var e := RunEnd(s, 0);
      "-" + Collapse(s[e..])
  }

  /** `.replace(/(^-|-$)+/g, '')`: after `Collapse` there is at most one
      hyphen at either end. */
  function StripHyphens(s: string): string {
    var t := if s != [] && s[0] == '-' then s[1..] else s;
    if t != [] && t[|t| - 1] == '-' then t[..|t| - 1] else t
  }

  /** `generateSlug`: only [a-z0-9] and single inner hyphens, with no hyphen
      at either end. */
  function GenerateSlug(title: string): (r: string)
    ensures IsSlug(r)
  {
    CollapseClean(Text.ToLower(title));
    StripKeepsClean(Collapse(Text.ToLower(title)));
    StripHyphens(Collapse(Text.ToLower(title)))
  }

  /** Only [a-z0-9] and hyphens, never two hyphens in a row. */
  predicate Clean(s: string) {
    (forall k :: 0 <= k < |s| ==> IsSlugChar(s[k]) || s[k] == '-') &&
    (forall k :: 0 <= k < |s| - 1 ==> !(s[k] == '-' && s[k + 1] == '-'))
  }

  /** A slug: clean, and neither starting nor ending with a hyphen. */
  predicate IsSlug(s: string) {
    Clean(s) && (s != [] ==> s[0] != '-' && s[|s| - 1] != '-')
  }

  lemma {:induction false} CollapseClean(s: string)
    ensures Clean(Collapse(s))
    decreases |s|
  {
    if s != [] {
      var r := Collapse(s);
      if IsSlugChar(s[0]) {
        CollapseClean(s[1..]);
        var t := Collapse(s[1..]);
        assert r == [s[0]] + t;
        forall k | 0 <= k < |r| - 1 ensures !(r[k] == '-' && r[k + 1] == '-') {
          if k > 0 { assert r[k] == t[k - 1] && r[k + 1] == t[k]; }
        }
      } else {
        var e := RunEnd(s, 0);
        CollapseClean(s[e..]);
        var t := Collapse(s[e..]);
        assert r == "-" + t;
        forall k | 0 <= k < |r| - 1 ensures !(r[k] == '-' && r[k + 1] == '-') {
          if k > 0 { assert r[k] == t[k - 1] && r[k + 1] == t[k]; }
          else { assert t != [] ==> t[0] == s[e]; }
        }
      }
    }
  }

  lemma StripKeepsClean(s: string)
    requires Clean(s)
    ensures IsSlug(StripHyphens(s))
  {
    var t := if s != [] && s[0] == '-' then s[1..] else s;
    assert Clean(t) by {
      if s != [] && s[0] == '-' {
        forall k | 0 <= k < |t| - 1 ensures !(t[k] == '-' && t[k + 1] == '-') {
          assert t[k] == s[k + 1] && t[k + 1] == s[k + 2];
        }
      }
    }
    assert t != [] ==> t[0] != '-' by {
      if s != [] && s[0] == '-' && t != [] { assert t[0] == s[1]; }
    }
    var u := StripHyphens(s);
    if t != [] && t[|t| - 1] == '-' {
      assert u == t[..|t| - 1];
      if u != [] {
        assert u[|u| - 1] == t[|t| - 2];
        assert u[0] == t[0];
      }
    }
  }

  lemma LowerOfClean(s: string)
    requires Clean(s)
    ensures Text.ToLower(s) == s
  {
  }

  /** A clean string is collapsed to itself. */
  lemma {:induction false} CollapseOfClean(s: string)
    requires Clean(s)
    requires s != [] && s[0] == '-' ==> |s| == 1 || IsSlugChar(s[1])
    ensures Collapse(s) == s
    decreases |s|
  {
    if s != [] {
      var rest := s[1..];
      assert Clean(rest) by {
        forall k | 0 <= k < |rest| - 1 ensures !(rest[k] == '-' && rest[k + 1] == '-') {
          assert rest[k] == s[k + 1] && rest[k + 1] == s[k + 2];
        }
      }
      if !IsSlugChar(s[0]) {
        assert RunEnd(s, 0) == 1 by {
          assert RunEnd(s, 1) == 1;
        }
      }
      assert rest != [] && rest[0] == '-' ==> |rest| == 1 || IsSlugChar(rest[1]) by {
        if rest != [] && rest[0] == '-' && |rest| > 1 {
          assert s[1] == '-' && s[2] == rest[1];
          assert s[2] != '-';
        }
      }
      CollapseOfClean(rest);
      assert s == [s[0]] + rest;
    }
  }

  /** `generateSlug` leaves a slug as it is, so it is idempotent. */
  lemma GenerateSlugIdempotent(title: string)
    ensures GenerateSlug(GenerateSlug(title)) == GenerateSlug(title)
  {
    var s := GenerateSlug(title);
    LowerOfClean(s);
    CollapseOfClean(s);
  }

  /** `n.toString().padStart(3, '0')`. */
  function Pad3(n: int): string {
    Text.PadStart(Text.IntToString(n), 3, '0')
  }

  /** The three-part slug `<season>-<episode>-<title slug>`. */
  function SignalSlug(season: int, episode: int, title: string): (r: string)
    ensures |r| > |GenerateSlug(title)| && r[|r| - |GenerateSlug(title)|..] == GenerateSlug(title)
  {
    Pad3(season) + "-" + Pad3(episode) + "-" + GenerateSlug(title)
  }

  /** For a season and episode below 1000 the slug is two three-digit
      fields, each followed by a hyphen, then the title's slug. */
  lemma SignalSlugShape(season: int, episode: int, title: string)
    requires 0 <= season < 1000 && 0 <= episode < 1000
    ensures var r := SignalSlug(season, episode, title);
      |r| >= 8 && r[3] == '-' && r[7] == '-' && r[8..] == GenerateSlug(title)
  {
    SlugPad(season);
    SlugPad(episode);
    var a := Pad3(season) + "-";
    var b := a + Pad3(episode) + "-";
    assert |a| == 4 && a[3] == '-';
    assert |b| == 8 && b[3] == a[3] && b[7] == '-';
    assert SignalSlug(season, episode, title) == b + GenerateSlug(title);
  }

  lemma SlugPad(n: int)
    ensures 0 <= n < 1000 ==> |Pad3(n)| == 3
  {
    if 0 <= n < 1000 {
      NatDigits(n);
    }
  }

  lemma {:induction false} NatDigits(n: nat)
    ensures n < 1000 ==> |Text.NatToString(n)| <= 3
    ensures n < 100 ==> |Text.NatToString(n)| <= 2
    ensures n < 10 ==> |Text.NatToString(n)| == 1
  {
    if n >= 10 {
      NatDigits(n / 10);
    }
  }
}
