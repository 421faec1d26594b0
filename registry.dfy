/** The component registry: the closed set of component names a payload may
    name, each resolving to one renderable component. */
module Registry {
  import opened Wrappers

  datatype Component =
    | BunkerTerminal
    | ArtifactCard
    | SystemAlert
    | ImagePanel
    | BunkerLedger
    | CortexArtifact
    | ChoiceCard
    | ResourceMonitor
    | BunkerSimulation

  /** The registry key of each component. */
  function Name(c: Component): string {
    match c
    case BunkerTerminal => "BunkerTerminal"
    case ArtifactCard => "ArtifactCard"
    case SystemAlert => "SystemAlert"
    case ImagePanel => "ImagePanel"
    case BunkerLedger => "BunkerLedger"
    case CortexArtifact => "CortexArtifact"
    case ChoiceCard => "ChoiceCard"
    case ResourceMonitor => "ResourceMonitor"
    case BunkerSimulation => "BunkerSimulation"
  }

  const Keys: set<string> := {
    "BunkerTerminal", "ArtifactCard", "SystemAlert", "ImagePanel", "BunkerLedger",
    "CortexArtifact", "ChoiceCard", "ResourceMonitor", "BunkerSimulation"
  }

  /** `ComponentRegistry[name]`: a component exactly for the nine keys. */
  function Lookup(name: string): (r: Option<Component>)
    ensures r.Some? <==> name in Keys
    ensures r.Some? ==> Name(r.value) == name
  {
    if name == "BunkerTerminal" then Some(BunkerTerminal)
    else if name == "ArtifactCard" then Some(ArtifactCard)
    else if name == "SystemAlert" then Some(SystemAlert)
    else if name == "ImagePanel" then Some(ImagePanel)
    else if name == "BunkerLedger" then Some(BunkerLedger)
    else if name == "CortexArtifact" then Some(CortexArtifact)
    else if name == "ChoiceCard" then Some(ChoiceCard)
    else if name == "ResourceMonitor" then Some(ResourceMonitor)
    else if name == "BunkerSimulation" then Some(BunkerSimulation)
    else None
  }

  /** Every component is registered under its own name, and no two share one. */
  lemma NamesAreKeys(c: Component, d: Component)
    ensures Name(c) in Keys && Lookup(Name(c)) == Some(c)
    ensures Name(c) == Name(d) ==> c == d
  {
  }

  /** The registry has exactly nine keys. */
  lemma NineKeys()
    ensures |Keys| == 9
  {
    var names := [Name(BunkerTerminal), Name(ArtifactCard), Name(SystemAlert), Name(ImagePanel),
                  Name(BunkerLedger), Name(CortexArtifact), Name(ChoiceCard), Name(ResourceMonitor),
                  Name(BunkerSimulation)];
    var all := set i | 0 <= i < 9 :: names[i];
    assert names[0] in all && names[1] in all && names[2] in all && names[3] in all && names[4] in all;
    assert names[5] in all && names[6] in all && names[7] in all && names[8] in all;
    assert Keys == all;
    assert forall i, j :: 0 <= i < j < 9 ==> names[i] != names[j];
    DistinctCard(names);
  }

  lemma {:induction false} DistinctCard(names: seq<string>)
    requires forall i, j :: 0 <= i < j < |names| ==> names[i] != names[j]
    ensures |set i | 0 <= i < |names| :: names[i]| == |names|
  {
    if names != [] {
      var rest := names[..|names| - 1];
      DistinctCard(rest);
      var all := set i | 0 <= i < |names| :: names[i];
      var front := set i | 0 <= i < |rest| :: rest[i];
      assert all == front + {names[|names| - 1]};
      assert names[|names| - 1] !in front;
    }
  }
}
