/** The text helpers of `docker dashboard`: the containers panel and the
    swarm panel. */
module Dashboard {
  import opened Wrappers
  import opened Text
  import opened Engine

  // The containers panel

  /** `fmt.Sprintf("ID: %s Image: %s", c.ID[:12], c.Image)`. */
  function ContainerLine(c: Container): string
    requires |c.id| >= 12
  {
    "ID: " + c.id[..12] + " Image: " + c.image
  }

  /** Every listed ID has the 12 bytes the panel slices off (engine IDs are ASCII). */
  predicate ShortIdsExist(containers: seq<Container>)
  {
    forall i :: 0 <= i < |containers| ==> |containers[i].id| >= 12
  }

  /** The panel's lines, one per container, in list order. */
  function ContainerLines(containers: seq<Container>): (lines: seq<string>)
    requires ShortIdsExist(containers)
    ensures |lines| == |containers|
    ensures forall i :: 0 <= i < |lines| ==> lines[i] == ContainerLine(containers[i])
  {
    seq(|containers|, i requires 0 <= i < |containers| => ContainerLine(containers[i]))
  }

  /** `getContainersText`: append a line per container, then join them with
      newlines. */
  method ContainersText(containers: seq<Container>) returns (text: string)
    requires ShortIdsExist(containers)
    ensures text == Join(ContainerLines(containers), "\n")
  {
    var data: seq<string> := [];
    for i := 0 to |containers|
      invariant data == ContainerLines(containers[..i])
    {
      data := data + [ContainerLine(containers[i])];
    }
    assert containers[..|containers|] == containers;
    text := Join(data, "\n");
  }

  /** The panel is empty exactly when there are no containers. */
  lemma ContainersTextEmpty(containers: seq<Container>)
    requires ShortIdsExist(containers)
    ensures Join(ContainerLines(containers), "\n") == "" <==> containers == []
  {
    var lines := ContainerLines(containers);
    if containers != [] {
      JoinPrefix(lines, "\n");
      assert |lines[0]| >= 4;
    }
  }

  /** A joined text starts with its first piece. */
  lemma JoinPrefix(parts: seq<string>, sep: string)
    requires |parts| >= 1
    ensures |Join(parts, sep)| >= |parts[0]|
    ensures Join(parts, sep)[..|parts[0]|] == parts[0]
  {
  }

  /** With no newline in the images, splitting the panel at newlines gives
      back one line per container, with no trailing newline. */
  lemma ContainersTextLines(containers: seq<Container>)
    requires ShortIdsExist(containers) && containers != []
    requires forall i :: 0 <= i < |containers| ==> '\n' !in containers[i].id[..12] && '\n' !in containers[i].image
    ensures Split(Join(ContainerLines(containers), "\n"), '\n') == ContainerLines(containers)
  {
    var lines := ContainerLines(containers);
    forall i | 0 <= i < |lines|
      ensures '\n' !in lines[i]
    {
      var c := containers[i];
      assert lines[i] == "ID: " + c.id[..12] + " Image: " + c.image;
    }
    SplitJoin(lines, '\n');
  }

  /** Line `i` names container `i` by the first 12 bytes of its ID,
      then its image. */
  lemma ContainerLineFields(c: Container)
    requires |c.id| >= 12
    ensures var line := ContainerLine(c);
      && line[..4] == "ID: " && line[4..16] == c.id[..12]
      && line[16..24] == " Image: " && line[24..] == c.image
  {
  }

  // The swarm panel

  /** The parts of `types.Info.Swarm` the panel shows. */
  datatype SwarmInfo = SwarmInfo(nodeID: string, nodeAddr: string, localNodeState: string, managers: int, nodes: int)

  const NotActive: string := "Swarm not active"

  /** The lines of `swarmText` filled with a node's values. */
  function SwarmLines(s: SwarmInfo): seq<string>
  {
    ["NodeID: " + s.nodeID, "Address: " + s.nodeAddr, "State: " + s.localNodeState,
     "Managers: " + IntToDec(s.managers), "Nodes: " + IntToDec(s.nodes)]
  }

  /** `getSwarmInfoText`: `Swarm not active` for a node outside a swarm,
      otherwise `swarmText`, each of its five lines ending in a newline. */
  function SwarmInfoText(s: SwarmInfo): (text: string)
    ensures text == NotActive <==> s.nodeID == ""
    ensures s.nodeID != "" ==> |text| >= 1 && text[|text| - 1] == '\n'
  {
    if s.nodeID == "" then NotActive
    else
      var text := Join(SwarmLines(s), "\n") + "\n";
      JoinPrefix(SwarmLines(s), "\n");
      assert text[..8] == "NodeID: ";
      assert NotActive[..8] == "Swarm no";
      text
  }

  /** What the swarm panel says. */
  datatype SwarmView = Inactive | Active(info: SwarmInfo)

  /** `s` without its prefix `p`, if it has it. */
  function StripPrefix(p: string, s: string): Option<string>
  {
    if |p| <= |s| && s[..|p|] == p then Some(s[|p|..]) else None
  }

  /** Reads the swarm panel back. */
  function ReadSwarmText(text: string): Option<SwarmView>
  {
    if text == NotActive then Some(Inactive)
    else if |text| == 0 || text[|text| - 1] != '\n' then None
    else
      var lines := Split(text[..|text| - 1], '\n');
      if |lines| != 5 then None
      else
        match (StripPrefix("NodeID: ", lines[0]), StripPrefix("Address: ", lines[1]),
               StripPrefix("State: ", lines[2]), StripPrefix("Managers: ", lines[3]),
               StripPrefix("Nodes: ", lines[4]))
        case (Some(id), Some(addr), Some(state), Some(managers), Some(nodes)) =>
          (match (ParseInt(managers), ParseInt(nodes))
           case (Some(m), Some(n)) => if id == "" then None else Some(Active(SwarmInfo(id, addr, state, m, n)))
           case _ => None)
        case _ => None
  }

  lemma StripPrefixConcat(p: string, v: string)
    ensures StripPrefix(p, p + v) == Some(v)
  {
    assert (p + v)[..|p|] == p && (p + v)[|p|..] == v;
  }

  /** The swarm panel reads back as the node's values, when no text value
      holds a newline. */
  lemma SwarmInfoTextRoundTrip(s: SwarmInfo)
    requires '\n' !in s.nodeID && '\n' !in s.nodeAddr && '\n' !in s.localNodeState
    ensures ReadSwarmText(SwarmInfoText(s)) == Some(if s.nodeID == "" then Inactive else Active(s))
  {
    if s.nodeID != "" {
      var lines := SwarmLines(s);
      var text := SwarmInfoText(s);
      assert text[..|text| - 1] == Join(lines, "\n");
      IntToDecOmits(s.managers, '\n');
      IntToDecOmits(s.nodes, '\n');
      forall i | 0 <= i < |lines|
        ensures '\n' !in lines[i]
      {
      }
      SplitJoin(lines, '\n');
      StripPrefixConcat("NodeID: ", s.nodeID);
      StripPrefixConcat("Address: ", s.nodeAddr);
      StripPrefixConcat("State: ", s.localNodeState);
      StripPrefixConcat("Managers: ", IntToDec(s.managers));
      StripPrefixConcat("Nodes: ", IntToDec(s.nodes));
      IntToDecRoundTrip(s.managers);
      IntToDecRoundTrip(s.nodes);
    }
  }
}
