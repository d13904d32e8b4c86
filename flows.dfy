/**
 * The guided troubleshooting flows: two fixed decision graphs, the walk
 * through a graph that scores the options marked correct, and the
 * troubleshooter that holds the current node and the path score.
 */
module Flows {
  import opened Wrappers

  /** An option button: its label (`caption`), the node it leads to, and whether it is on a scored path. */
  datatype Choice = Choice(caption: string, next: string, correct: bool)

  datatype Node = Node(id: string, title: string, prompt: string, options: seq<Choice>, tip: Option<string>)

  /** A flow; its title is the key it is stored under. */
  datatype Flow = Flow(id: string, category: string, description: string, nodes: map<string, Node>, start: string)

  // ---------------------------------------------------------------------
  // Wi-Fi drops on Windows
  // ---------------------------------------------------------------------

  const WifiStart := Node(
    "start", "Confirm the basics", "Are other devices on the same network dropping too?",
    [ Choice("Yes, multiple devices affected", "router", false),
      Choice("No, only this Windows PC", "pc-only", false) ],
    Some("Always differentiate local vs. global symptoms first."))

  const WifiRouter := Node(
    "router", "Suspect the router/AP",
    "Power\U{2011}cycle the router/AP and check for firmware updates. Did stability improve?",
    [ Choice("Yes \U{2013} issue resolved", "resolved", true),
      Choice("No \U{2013} still dropping", "channel", false) ],
    Some("Firmware and DFS channels can cause odd drops."))

  const WifiChannel := Node(
    "channel", "Check channel & band",
    "Try 5 GHz only and pick a clean channel (36/40/44/48). Improve?",
    [ Choice("Yes \U{2013} stable now", "resolved", true),
      Choice("No \U{2013} still dropping", "pc-only", false) ],
    None)

  const WifiPcOnly := Node(
    "pc-only", "Focus on the PC",
    "Update NIC driver from vendor site (not Windows Update) and disable power saving on the adapter. Any change?",
    [ Choice("Fixed it", "resolved", true),
      Choice("Still broken", "reset", false) ],
    None)

  const WifiReset := Node(
    "reset", "Network reset",
    "Run: netsh winsock reset && netsh int ip reset && restart. Improve?",
    [ Choice("Yes", "resolved", true),
      Choice("No", "final", false) ],
    None)

  const WifiFinal := Node(
    "final", "Deeper causes",
    "Consider USB 3 interference (if using USB Wi\U{2011}Fi), bad antenna, or security software. Try Ethernet to isolate RF.",
    [ Choice("Back to start", "start", false) ],
    None)

  const WifiResolved := Node(
    "resolved", "Resolved", "Great! Document what fixed it and why.",
    [ Choice("Restart flow", "start", false) ],
    None)

  const WifiTitle := "Wifi Drops on Windows"

  const WifiCategory := "Networking"
  const WifiSummary := "Intermittent Wi\U{2011}Fi on Windows 10/11."

  const WifiDrops := Flow(
    "wifi-win", WifiCategory, WifiSummary,
    map[ "start" := WifiStart, "router" := WifiRouter, "channel" := WifiChannel, "pc-only" := WifiPcOnly,
         "reset" := WifiReset, "final" := WifiFinal, "resolved" := WifiResolved ],
    "start")

  // ---------------------------------------------------------------------
  // Linux disk filling up
  // ---------------------------------------------------------------------

  const DiskStart := Node(
    "start", "Check usage", "What's your first move?",
    [ Choice("Run df -h to see mounted FS", "df", true),
      Choice("Delete /var/log blindly", "oops", false) ],
    None)

  const DiskDf := Node(
    "df", "Spot the culprit", "Use du -hx --max-depth=1 / | sort -h. What next?",
    [ Choice("Drill into the largest dir", "drill", true),
      Choice("rm -rf /* to free space", "oops", false) ],
    None)

  const DiskDrill := Node(
    "drill", "Rotating logs", "Logs huge? Configure logrotate and compress old logs.",
    [ Choice("Rotate & compress", "resolved", true),
      Choice("Ignore and hope", "oops", false) ],
    None)

  const DiskOops := Node(
    "oops", "Risky path", "That action is dangerous and not recommended.",
    [ Choice("Go back", "start", false) ],
    None)

  const DiskResolved := Node(
    "resolved", "Resolved", "Nice work. Document root cause & prevention.",
    [ Choice("Restart", "start", false) ],
    None)

  const DiskTitle := "Linux Disk Filling Up"

  const DiskCategory := "Linux"
  const DiskSummary := "Find what\U{2019}s using space and fix safely."

  const LinuxDisk := Flow(
    "linux-disk", DiskCategory, DiskSummary,
    map[ "start" := DiskStart, "df" := DiskDf, "drill" := DiskDrill, "oops" := DiskOops, "resolved" := DiskResolved ],
    "start")

  /** The flows by title. */
  const FlowDefs: map<string, Flow> := map[WifiTitle := WifiDrops, DiskTitle := LinuxDisk]

  /** The titles in declaration order, the order in which the library lists them. */
  const FlowTitles: seq<string> := [WifiTitle, DiskTitle]

  lemma FlowTitlesAreTheKeys()
    ensures |FlowTitles| == 2 && FlowTitles[0] != FlowTitles[1]
    ensures forall k :: k in FlowDefs <==> k in FlowTitles
  {
    assert WifiTitle[0] != DiskTitle[0];
  }

  // ---------------------------------------------------------------------
  // Shape of a flow
  // ---------------------------------------------------------------------

  /** The start node exists and every option leads to a node of the flow. */
  predicate Closed(f: Flow)
  {
    && f.start in f.nodes
    && forall k | k in f.nodes :: forall o | o in f.nodes[k].options :: o.next in f.nodes
  }

  /** Every node is stored under its own id. */
  predicate WellKeyed(f: Flow)
  {
    forall k | k in f.nodes :: f.nodes[k].id == k
  }

  /** Every node offers at least one option, so a walk can always go on. */
  predicate NoDeadEnds(f: Flow)
  {
    forall k | k in f.nodes :: f.nodes[k].options != []
  }

  predicate WellFormed(f: Flow)
  {
    Closed(f) && WellKeyed(f) && NoDeadEnds(f)
  }

  /** The three conditions above, for the node stored under `k`. */
  predicate NodeWellFormed(f: Flow, k: string)
    requires k in f.nodes
  {
    f.nodes[k].id == k && f.nodes[k].options != [] && forall o | o in f.nodes[k].options :: o.next in f.nodes
  }

  lemma WellFormedByNode(f: Flow, keys: set<string>)
    requires f.start in f.nodes && f.nodes.Keys == keys
    requires forall k | k in keys :: NodeWellFormed(f, k)
    ensures WellFormed(f)
  {
  }

  lemma WifiNodesWellFormed()
    ensures NodeWellFormed(WifiDrops, "start") && NodeWellFormed(WifiDrops, "router")
    ensures NodeWellFormed(WifiDrops, "channel") && NodeWellFormed(WifiDrops, "pc-only")
    ensures NodeWellFormed(WifiDrops, "reset") && NodeWellFormed(WifiDrops, "final")
    ensures NodeWellFormed(WifiDrops, "resolved")
  {
    WifiStartWellFormed();
    WifiRouterWellFormed();
    WifiChannelWellFormed();
    WifiPcOnlyWellFormed();
    WifiResetWellFormed();
    WifiFinalWellFormed();
    WifiResolvedWellFormed();
  }

  lemma WifiStartWellFormed()
    ensures NodeWellFormed(WifiDrops, "start")
  {
    assert WifiDrops.nodes["start"] == WifiStart;
  }

  lemma WifiRouterWellFormed()
    ensures NodeWellFormed(WifiDrops, "router")
  {
  }

  lemma WifiChannelWellFormed()
    ensures NodeWellFormed(WifiDrops, "channel")
  {
  }

  lemma WifiPcOnlyWellFormed()
    ensures NodeWellFormed(WifiDrops, "pc-only")
  {
  }

  lemma WifiResetWellFormed()
    ensures NodeWellFormed(WifiDrops, "reset")
  {
  }

  lemma WifiFinalWellFormed()
    ensures NodeWellFormed(WifiDrops, "final")
  {
  }

  lemma WifiResolvedWellFormed()
    ensures NodeWellFormed(WifiDrops, "resolved")
  {
  }

  lemma WifiDropsWellFormed()
    ensures WellFormed(WifiDrops)
  {
    WifiNodesWellFormed();
    WellFormedByNode(WifiDrops, {"start", "router", "channel", "pc-only", "reset", "final", "resolved"});
  }

  lemma DiskNodesWellFormed()
    ensures NodeWellFormed(LinuxDisk, "start") && NodeWellFormed(LinuxDisk, "df")
    ensures NodeWellFormed(LinuxDisk, "drill") && NodeWellFormed(LinuxDisk, "oops")
    ensures NodeWellFormed(LinuxDisk, "resolved")
  {
    DiskStartWellFormed();
    DiskDfWellFormed();
    DiskDrillWellFormed();
    DiskOopsWellFormed();
    DiskResolvedWellFormed();
  }

  lemma DiskStartWellFormed()
    ensures NodeWellFormed(LinuxDisk, "start")
  {
  }

  lemma DiskDfWellFormed()
    ensures NodeWellFormed(LinuxDisk, "df")
  {
  }

  lemma DiskDrillWellFormed()
    ensures NodeWellFormed(LinuxDisk, "drill")
  {
  }

  lemma DiskOopsWellFormed()
    ensures NodeWellFormed(LinuxDisk, "oops")
  {
  }

  lemma DiskResolvedWellFormed()
    ensures NodeWellFormed(LinuxDisk, "resolved")
  {
  }

  lemma LinuxDiskWellFormed()
    ensures WellFormed(LinuxDisk)
  {
    DiskNodesWellFormed();
    WellFormedByNode(LinuxDisk, {"start", "df", "drill", "oops", "resolved"});
  }

  /** Both flows are closed, keyed by id and free of dead ends. */
  lemma FlowDefsWellFormed()
    ensures forall key | key in FlowDefs :: WellFormed(FlowDefs[key])
  {
    WifiDropsWellFormed();
    LinuxDiskWellFormed();
  }

  // ---------------------------------------------------------------------
  // Walks
  // ---------------------------------------------------------------------

  /** `o` is one of the buttons shown on node `id`. */
  predicate Offered(f: Flow, id: string, o: Choice)
  {
    id in f.nodes && o in f.nodes[id].options
  }

  /** The node reached from `id` after the choices `cs`. */
  function EndOf(id: string, cs: seq<Choice>): string
  {
    if cs == [] then id else cs[|cs| - 1].next
  }

  /** Each choice of `cs` is offered on the node reached by the choices before it. */
  predicate IsPath(f: Flow, id: string, cs: seq<Choice>)
  {
    cs == [] || (IsPath(f, id, cs[..|cs| - 1]) && Offered(f, EndOf(id, cs[..|cs| - 1]), cs[|cs| - 1]))
  }

  /** The number of choices marked correct. */
  function CorrectCount(cs: seq<Choice>): (n: nat)
    ensures n <= |cs|
  {
    if cs == [] then 0 else CorrectCount(cs[..|cs| - 1]) + (if cs[|cs| - 1].correct then 1 else 0)
  }

  /** What the troubleshooter shows: the current node and the path score. */
  datatype State = State(nodeId: string, score: nat)

  /** `choose(opt)`. */
  function Step(st: State, o: Choice): (r: State)
    ensures r.nodeId == o.next
    ensures st.score <= r.score <= st.score + 1
    ensures r.score == st.score + 1 <==> o.correct
  {
    State(o.next, if o.correct then st.score + 1 else st.score)
  }

  /** The state after clicking the choices `cs` in turn. */
  function Run(st: State, cs: seq<Choice>): State
  {
    if cs == [] then st else Step(Run(st, cs[..|cs| - 1]), cs[|cs| - 1])
  }

  /** A walk ends where its last choice leads, and adds one point per correct choice to the score. */
  lemma {:induction false} RunScore(st: State, cs: seq<Choice>)
    ensures Run(st, cs).nodeId == EndOf(st.nodeId, cs)
    ensures Run(st, cs).score == st.score + CorrectCount(cs)
  {
    if cs != [] {
      RunScore(st, cs[..|cs| - 1]);
    }
  }

  /** The score never goes down, and goes up by at most one per click. */
  lemma RunScoreMonotone(st: State, cs: seq<Choice>)
    ensures st.score <= Run(st, cs).score <= st.score + |cs|
  {
    RunScore(st, cs);
  }

  /** In a closed flow, a walk that follows offered options stays on the flow's nodes. */
  lemma {:induction false} PathStaysInFlow(f: Flow, id: string, cs: seq<Choice>)
    requires Closed(f) && id in f.nodes && IsPath(f, id, cs)
    ensures EndOf(id, cs) in f.nodes
  {
    if cs != [] {
      PathStaysInFlow(f, id, cs[..|cs| - 1]);
      var at := EndOf(id, cs[..|cs| - 1]);
      assert cs[|cs| - 1] in f.nodes[at].options;
    }
  }

  /** Two walks joined end to end form a walk. */
  lemma {:induction false} PathConcat(f: Flow, id: string, a: seq<Choice>, b: seq<Choice>)
    requires IsPath(f, id, a) && IsPath(f, EndOf(id, a), b)
    ensures IsPath(f, id, a + b)
    ensures EndOf(id, a + b) == EndOf(EndOf(id, a), b)
  {
    if b == [] {
      assert a + b == a;
    } else {
      var b' := b[..|b| - 1];
      PathConcat(f, id, a, b');
      assert (a + b)[..|a + b| - 1] == a + b';
      assert EndOf(id, a + b') == EndOf(EndOf(id, a), b');
    }
  }

  /** The points of two walks joined end to end add up. */
  lemma {:induction false} CorrectCountConcat(a: seq<Choice>, b: seq<Choice>)
    ensures CorrectCount(a + b) == CorrectCount(a) + CorrectCount(b)
  {
    if b == [] {
      assert a + b == a;
    } else {
      var b' := b[..|b| - 1];
      CorrectCountConcat(a, b');
      assert (a + b)[..|a + b| - 1] == a + b';
    }
  }

  /** `cs` repeated `n` times. */
  function Repeat(cs: seq<Choice>, n: nat): (r: seq<Choice>)
    ensures |r| == n * |cs|
  {
    if n == 0 then [] else Repeat(cs, n - 1) + cs
  }

  /** Going round a cycle `n` times is a walk back to where it began, scoring `n` times the cycle's points. */
  lemma {:induction false} RepeatCycle(f: Flow, id: string, cs: seq<Choice>, n: nat)
    requires IsPath(f, id, cs) && EndOf(id, cs) == id
    ensures IsPath(f, id, Repeat(cs, n)) && EndOf(id, Repeat(cs, n)) == id
    ensures CorrectCount(Repeat(cs, n)) == n * CorrectCount(cs)
  {
    if n > 0 {
      var before := Repeat(cs, n - 1);
      RepeatCycle(f, id, cs, n - 1);
      PathConcat(f, id, before, cs);
      CorrectCountConcat(before, cs);
      calc {
        CorrectCount(Repeat(cs, n));
        CorrectCount(before) + CorrectCount(cs);
        (n - 1) * CorrectCount(cs) + CorrectCount(cs);
        n * CorrectCount(cs);
      }
    }
  }

  /** Start, router, resolved and back to start: one point. */
  const WifiCycle: seq<Choice> := [WifiStart.options[0], WifiRouter.options[0], WifiResolved.options[0]]

  /** Start, df, drill, resolved and back to start: three points. */
  const DiskCycle: seq<Choice> := [DiskStart.options[0], DiskDf.options[0], DiskDrill.options[0], DiskResolved.options[0]]

  /** A walk extended by an option offered where it ends is a walk. */
  lemma PathSnoc(f: Flow, id: string, cs: seq<Choice>, o: Choice)
    requires IsPath(f, id, cs) && Offered(f, EndOf(id, cs), o)
    ensures IsPath(f, id, cs + [o]) && EndOf(id, cs + [o]) == o.next
    ensures CorrectCount(cs + [o]) == CorrectCount(cs) + (if o.correct then 1 else 0)
  {
    assert (cs + [o])[..|cs|] == cs;
  }

  lemma WifiCycleFirstHalf()
    ensures IsPath(WifiDrops, "start", WifiCycle[..2]) && EndOf("start", WifiCycle[..2]) == "resolved"
    ensures CorrectCount(WifiCycle[..2]) == 1
  {
    var c := WifiCycle;
    assert WifiDrops.nodes["start"] == WifiStart && WifiDrops.nodes["router"] == WifiRouter;
    PathSnoc(WifiDrops, "start", [], c[0]);
    assert [] + [c[0]] == [c[0]] && [c[0]] + [c[1]] == c[..2];
    PathSnoc(WifiDrops, "start", [c[0]], c[1]);
  }

  lemma WifiCycleIsLoop()
    ensures IsPath(WifiDrops, "start", WifiCycle) && EndOf("start", WifiCycle) == "start"
    ensures CorrectCount(WifiCycle) == 1
  {
    var c := WifiCycle;
    WifiCycleFirstHalf();
    assert WifiDrops.nodes["resolved"] == WifiResolved;
    PathSnoc(WifiDrops, "start", c[..2], c[2]);
    assert c[..2] + [c[2]] == c;
  }

  lemma DiskCycleFirstHalf()
    ensures IsPath(LinuxDisk, "start", DiskCycle[..2]) && EndOf("start", DiskCycle[..2]) == "drill"
    ensures CorrectCount(DiskCycle[..2]) == 2
  {
    var c := DiskCycle;
    assert LinuxDisk.nodes["start"] == DiskStart && LinuxDisk.nodes["df"] == DiskDf;
    PathSnoc(LinuxDisk, "start", [], c[0]);
    assert [] + [c[0]] == [c[0]] && [c[0]] + [c[1]] == c[..2];
    PathSnoc(LinuxDisk, "start", [c[0]], c[1]);
  }

  lemma DiskCycleIsLoop()
    ensures IsPath(LinuxDisk, "start", DiskCycle) && EndOf("start", DiskCycle) == "start"
    ensures CorrectCount(DiskCycle) == 3
  {
    var c := DiskCycle;
    DiskCycleFirstHalf();
    assert LinuxDisk.nodes["drill"] == DiskDrill && LinuxDisk.nodes["resolved"] == DiskResolved;
    PathSnoc(LinuxDisk, "start", c[..2], c[2]);
    assert c[..2] + [c[2]] == c[..3] && c[..3] + [c[3]] == c;
    PathSnoc(LinuxDisk, "start", c[..3], c[3]);
  }

  /**
   * The score has no ceiling: in either flow, for every `n` some walk from
   * the start returns to the start with a score of at least `n`, because the
   * last node of every scored path leads back to the start.
   */
  lemma ScoreUnbounded(key: string, n: nat) returns (cs: seq<Choice>)
    requires key in FlowDefs
    ensures var f := FlowDefs[key];
            IsPath(f, f.start, cs) && EndOf(f.start, cs) == f.start && Run(State(f.start, 0), cs).score >= n
  {
    var f := FlowDefs[key];
    var cycle := if key == WifiTitle then WifiCycle else DiskCycle;
    if key == WifiTitle { WifiCycleIsLoop(); } else { DiskCycleIsLoop(); }
    cs := Repeat(cycle, n);
    RepeatCycle(f, f.start, cycle, n);
    RunScore(State(f.start, 0), cs);
  }

  // ---------------------------------------------------------------------
  // The troubleshooter
  // ---------------------------------------------------------------------

  /** The troubleshooter card for one flow. `taken` records the clicks so far. */
  class Troubleshooter {
    const flow: Flow
    var nodeId: string
    var score: nat
    ghost var taken: seq<Choice>

    /** The current node is a node of the flow, reached by the recorded clicks, and the score counts their correct ones. */
    ghost predicate Valid()
      reads this
    {
      && WellFormed(flow)
      && IsPath(flow, flow.start, taken)
      && nodeId == EndOf(flow.start, taken)
      && nodeId in flow.nodes
      && score == CorrectCount(taken)
    }

    constructor (flowKey: string)
      requires flowKey in FlowDefs
      ensures flow == FlowDefs[flowKey] && nodeId == flow.start && score == 0 && taken == []
      ensures Valid()
    {
      flow := FlowDefs[flowKey];
      nodeId := FlowDefs[flowKey].start;
      score := 0;
      taken := [];
      FlowDefsWellFormed();
    }

    /** `flow.nodes[nodeId]`: the node on display, when there is one. */
    function CurrentNode(): (n: Option<Node>)
      reads this
      ensures Valid() ==> n.Some? && n.value.id == nodeId && n.value.options != []
    {
      if nodeId in flow.nodes then Some(flow.nodes[nodeId]) else None
    }

    /** `choose(opt)`: one point if the option is marked correct, then move to its target. */
    method Choose(opt: Choice)
      modifies this
      ensures State(nodeId, score) == Step(old(State(nodeId, score)), opt)
      ensures taken == old(taken) + [opt]
      ensures old(Valid()) && Offered(flow, old(nodeId), opt) ==> Valid()
    {
      if opt.correct {
        score := score + 1;
      }
      nodeId := opt.next;
      taken := taken + [opt];
      if old(Valid()) && Offered(flow, old(nodeId), opt) {
        assert taken[..|taken| - 1] == old(taken);
        PathStaysInFlow(flow, flow.start, taken);
      }
    }
  }
}
