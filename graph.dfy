/** The round topology built by `build_graph` and the stub oracle `DummyLLM`.

    The stages are an enumeration and the edges a transition function; the
    graph object the builder fills in step by step is a small class whose
    successor relation is proved to be that function. Runs are sequences of
    stages, each paired with the `stop` flag of the state leaving that stage. */
module Graph {

  // ---------------------------------------------------------------------------
  // Stages and edges
  // ---------------------------------------------------------------------------

  datatype Stage = Planner | Author | Risk | Submit | Poll | Analyze | Decide

  /** Where an edge leads: a stage, or langgraph's `END`. */
  datatype Target = Node(stage: Stage) | End

  const AllStages: set<Stage> := {Planner, Author, Risk, Submit, Poll, Analyze, Decide}

  /** The stages of one round, in order. */
  const Round: seq<Stage> := [Author, Risk, Submit, Poll, Analyze, Decide]

  /** Place of a stage in the drawn pipeline planner → … → decide. */
  function Position(s: Stage): nat {
    match s
    case Planner => 0
    case Author => 1
    case Risk => 2
    case Submit => 3
    case Poll => 4
    case Analyze => 5
    case Decide => 6
  }

  /** The router on the conditional edge out of decide: `END if s.stop else "author"`. */
  function Route(stop: bool): Target {
    if stop then End else Node(Author)
  }

  /** The edge taken out of stage `s` when the state's flag is `stop`. Every
      stage but decide has one successor, the next one in the pipeline;
      decide ends the run iff `stop` and otherwise goes back to author;
      nothing leads back to planner. */
  function Next(s: Stage, stop: bool): (t: Target)
    ensures t != Node(Planner)
    ensures s != Decide ==> t.Node? && Position(t.stage) == Position(s) + 1
    ensures s == Decide ==> (t == End <==> stop)
    ensures s == Decide && !stop ==> t == Node(Author)
  {
    match s
    case Planner => Node(Author)
    case Author => Node(Risk)
    case Risk => Node(Submit)
    case Submit => Node(Poll)
    case Poll => Node(Analyze)
    case Analyze => Node(Decide)
    case Decide => Route(stop)
  }

  // ---------------------------------------------------------------------------
  // The graph object and its construction
  // ---------------------------------------------------------------------------

  /** A conditional edge, tabulated over the one field its router reads. */
  datatype Branch = Branch(onStop: Target, onContinue: Target) {
    function Pick(stop: bool): Target {
      if stop then onStop else onContinue
    }
  }

  /** The part of langgraph's `StateGraph` that `build_graph` fills in. */
  class StateGraph {
    var nodes: seq<Stage>
    var edges: seq<(Stage, Stage)>
    var branches: map<Stage, Branch>

    constructor ()
      ensures nodes == [] && edges == [] && branches == map[]
    {
      nodes, edges, branches := [], [], map[];
    }

    method AddNode(s: Stage)
      modifies this
      ensures nodes == old(nodes) + [s]
      ensures edges == old(edges) && branches == old(branches)
    {
      nodes := nodes + [s];
    }

    method AddEdge(from: Stage, to: Stage)
      modifies this
      ensures edges == old(edges) + [(from, to)]
      ensures nodes == old(nodes) && branches == old(branches)
    {
      edges := edges + [(from, to)];
    }

    method AddConditionalEdges(from: Stage, route: bool -> Target)
      modifies this
      ensures branches == old(branches)[from := Branch(route(true), route(false))]
      ensures nodes == old(nodes) && edges == old(edges)
    {
      branches := branches[from := Branch(route(true), route(false))];
    }
  }

  /** Where a graph with these edges can go from `s` when the state's flag is `stop`. */
  function SuccessorsIn(edges: seq<(Stage, Stage)>, branches: map<Stage, Branch>, s: Stage, stop: bool): set<Target> {
    (set t | t in AllStages && (s, t) in edges :: Node(t))
      + (if s in branches then {branches[s].Pick(stop)} else {})
  }

  /** `build_graph`: seven nodes, six plain edges and the conditional edge;
      from every stage, whatever the flag, exactly one successor, the one
      `Next` gives. */
  method BuildGraph() returns (g: StateGraph)
    ensures fresh(g)
    ensures g.nodes == [Planner, Author, Risk, Submit, Poll, Analyze, Decide]
    ensures forall s, stop :: SuccessorsIn(g.edges, g.branches, s, stop) == {Next(s, stop)}
  {
    g := new StateGraph();
    g.AddNode(Planner);
    g.AddNode(Author);
    g.AddNode(Risk);
    g.AddNode(Submit);
    g.AddNode(Poll);
    g.AddNode(Analyze);
    g.AddNode(Decide);
    assert g.nodes == [Planner, Author, Risk, Submit, Poll, Analyze, Decide];

    g.AddEdge(Planner, Author);
    g.AddEdge(Author, Risk);
    g.AddEdge(Risk, Submit);
    g.AddEdge(Submit, Poll);
    g.AddEdge(Poll, Analyze);
    g.AddEdge(Analyze, Decide);
    assert g.edges == [(Planner, Author), (Author, Risk), (Risk, Submit), (Submit, Poll),
                       (Poll, Analyze), (Analyze, Decide)];
    g.AddConditionalEdges(Decide, Route);
    BuiltSuccessors(g.edges, g.branches);
  }

  /** The edges `build_graph` adds leave every stage towards `Next` alone. */
  lemma BuiltSuccessors(edges: seq<(Stage, Stage)>, branches: map<Stage, Branch>)
    requires edges == [(Planner, Author), (Author, Risk), (Risk, Submit), (Submit, Poll),
                       (Poll, Analyze), (Analyze, Decide)]
    requires branches == map[Decide := Branch(Route(true), Route(false))]
    ensures forall s, stop :: SuccessorsIn(edges, branches, s, stop) == {Next(s, stop)}
  {
    forall s, stop ensures SuccessorsIn(edges, branches, s, stop) == {Next(s, stop)} {
      var plain := set t | t in AllStages && (s, t) in edges :: Node(t);
      if s == Decide {
        assert plain == {};
      } else {
        assert Next(s, stop) in plain;
        assert plain <= {Next(s, stop)};
      }
    }
  }

  // ---------------------------------------------------------------------------
  // Runs
  // ---------------------------------------------------------------------------

  /** `p` is a run from planner; `stops[i]` is the flag of the state leaving
      `p[i]`, and each next stage is the one the edge out of `p[i]` leads to. */
  ghost predicate IsRun(p: seq<Stage>, stops: seq<bool>) {
    && |p| > 0
    && |stops| == |p|
    && p[0] == Planner
    && forall i :: 0 <= i < |p| - 1 ==> Next(p[i], stops[i]) == Node(p[i + 1])
  }

  /** A run that has reached `END`. */
  ghost predicate Finished(p: seq<Stage>, stops: seq<bool>) {
    IsRun(p, stops) && Next(p[|p| - 1], stops[|p| - 1]) == End
  }

  /** The stage every run is at after i transitions: planner once, then the
      round over and over. */
  function StageAt(i: nat): Stage {
    if i == 0 then Planner else Round[(i - 1) % 6]
  }

  lemma StageAtStep(i: nat, stop: bool)
    ensures StageAt(i) != Decide ==> Next(StageAt(i), stop) == Node(StageAt(i + 1))
    ensures StageAt(i) == Decide ==> StageAt(i + 1) == Author
  {
    if i > 0 {
      var q, j := (i - 1) / 6, (i - 1) % 6;
      assert i == 6 * q + j + 1;
      if j < 5 {
        RemainderOf(q, j + 1);
      } else {
        RemainderOf(q + 1, 0);
      }
    }
  }

  lemma RemainderOf(q: nat, r: nat)
    requires r < 6
    ensures (6 * q + r) % 6 == r
  {
  }

  /** Every run is planner followed by whole rounds, cut off anywhere. */
  lemma {:induction false} RunFollowsRounds(p: seq<Stage>, stops: seq<bool>, i: nat)
    requires IsRun(p, stops)
    requires i < |p|
    ensures p[i] == StageAt(i)
  {
    if i > 0 {
      RunFollowsRounds(p, stops, i - 1);
      StageAtStep(i - 1, stops[i - 1]);
      assert Next(p[i - 1], stops[i - 1]) == Node(p[i]);
    }
  }

  /** Planner is visited once, at the start. */
  lemma PlannerOnlyFirst(p: seq<Stage>, stops: seq<bool>, i: nat)
    requires IsRun(p, stops)
    requires 0 < i < |p|
    ensures p[i] != Planner
  {
    assert Next(p[i - 1], stops[i - 1]) == Node(p[i]);
  }

  /** A visit to author is followed by risk, submit, poll, analyze and decide,
      in that order, as far as the run goes. */
  lemma AuthorOpensRound(p: seq<Stage>, stops: seq<bool>, i: nat, j: nat)
    requires IsRun(p, stops)
    requires j < 6 && i + j < |p|
    requires p[i] == Author
    ensures p[i + j] == Round[j]
  {
    RunFollowsRounds(p, stops, i);
    RunFollowsRounds(p, stops, i + j);
    assert (i - 1) % 6 == 0;
    assert (i + j - 1) % 6 == j;
  }

  /** The stages of n full rounds after planning. */
  function Trace(n: nat): (t: seq<Stage>)
    ensures |t| == 1 + 6 * n
  {
    if n == 0 then [Planner] else Trace(n - 1) + Round
  }

  /** Flags of a run that continues at every stage but the last. */
  function StopAfter(n: nat): (s: seq<bool>)
    ensures |s| == 1 + 6 * n
  {
    seq(1 + 6 * n, i => i == 6 * n)
  }

  lemma {:induction false} TraceAt(n: nat, i: nat)
    requires i < 1 + 6 * n
    ensures Trace(n)[i] == StageAt(i)
  {
    if n > 0 && i < 1 + 6 * (n - 1) {
      TraceAt(n - 1, i);
    } else if n > 0 {
      var j := i - (1 + 6 * (n - 1));
      assert Trace(n)[i] == Round[j];
      assert (i - 1) % 6 == j;
    }
  }

  /** Decide is reached only at the end of a whole round. */
  lemma DecideEndsRound(i: nat)
    requires StageAt(i) == Decide
    ensures i > 0 && i % 6 == 0 && i == 6 * (i / 6)
  {
    assert i > 0;
    assert (i - 1) % 6 == 5;
  }

  /** A run that reaches `END` is planner and whole rounds, n ≥ 1 of them; it
      stopped at its last decide and at no decide before. */
  lemma FinishedRunIsWholeRounds(p: seq<Stage>, stops: seq<bool>)
    requires Finished(p, stops)
    ensures (|p| - 1) % 6 == 0 && |p| > 1
    ensures p == Trace((|p| - 1) / 6)
    ensures stops[|p| - 1]
    ensures forall i :: 0 <= i < |p| - 1 && p[i] == Decide ==> !stops[i]
  {
    var last := |p| - 1;
    RunFollowsRounds(p, stops, last);
    assert p[last] == Decide;
    DecideEndsRound(last);
    var n := last / 6;
    forall i | 0 <= i < |p|
      ensures p[i] == Trace(n)[i]
    {
      RunFollowsRounds(p, stops, i);
      TraceAt(n, i);
    }
    forall i | 0 <= i < |p| - 1 && p[i] == Decide
      ensures !stops[i]
    {
      assert Next(p[i], stops[i]) == Node(p[i + 1]);
    }
  }

  /** Conversely, planner and n ≥ 1 whole rounds, continuing at every decide
      but the last, is a run that reaches `END`. */
  lemma WholeRoundsFinish(n: nat)
    requires n >= 1
    ensures Finished(Trace(n), StopAfter(n))
  {
    var p, stops := Trace(n), StopAfter(n);
    forall i | 0 <= i < |p|
      ensures p[i] == StageAt(i)
      ensures stops[i] == (i == |p| - 1)
    {
      TraceAt(n, i);
    }
    forall i | 0 <= i < |p| - 1
      ensures Next(p[i], stops[i]) == Node(p[i + 1])
    {
      StageAtStep(i, stops[i]);
    }
    assert p[|p| - 1] == StageAt(6 * n);
    assert (6 * n - 1) % 6 == 5;
  }

  // ---------------------------------------------------------------------------
  // The stub oracle
  // ---------------------------------------------------------------------------

  /** Python's `sub in s`. */
  predicate Contains(s: string, sub: string) {
    exists i :: 0 <= i <= |s| && OccursAt(s, sub, i)
  }

  predicate OccursAt(s: string, sub: string, i: nat) {
    i + |sub| <= |s| && s[i..i + |sub|] == sub
  }

  const ExprMarker: string := "EXPR:"
  const SettingsMarker: string := "return updated settings"
  const SettingsMarkerZh: string := "输出：给出修改后的 settings"
  const ScoreMarker: string := "SCORE:"

  /** The canned replies, each written as its leading part and the rest. */
  const ExprReply: string :=
    ExprMarker + " ts_rank(winsorize(ts_delay(close, 1), std=4), 10)\nRATIONALE: Control turnover with delay and longer rank window."
  const SettingsReply: string :=
    "{" + "\"neutralization\":\"SECTOR\",\"delay\":1,\"decay\":1,\"truncation\":0.08,\"region\":\"USA\",\"universe\":\"TOP3000\"}\nrationale: reduce turnover via decay"
  const ScoreReply: string :=
    ScoreMarker + " 1.2\nCOMMENT: Solid IR with moderate turnover.\nCONTINUE: Y"

  predicate AsksForSettings(prompt: string) {
    Contains(prompt, SettingsMarker) || Contains(prompt, SettingsMarkerZh)
  }

  /** `DummyLLM.generate`: canned replies chosen by the first marker rule the
      prompt matches. */
  function Generate(prompt: string): string {
    if Contains(prompt, ExprMarker) then ExprReply
    else if AsksForSettings(prompt) then SettingsReply
    else if Contains(prompt, ScoreMarker) then ScoreReply
    else ""
  }

  /** The reply tells which rule fired: each canned reply comes from exactly
      its rule, with the expression rule tried first, then settings, then
      score, and the empty reply from none. */
  lemma ReplyIdentifiesRule(prompt: string)
    ensures Generate(prompt) == ExprReply <==> Contains(prompt, ExprMarker)
    ensures Generate(prompt) == SettingsReply <==> !Contains(prompt, ExprMarker) && AsksForSettings(prompt)
    ensures Generate(prompt) == ScoreReply <==>
      !Contains(prompt, ExprMarker) && !AsksForSettings(prompt) && Contains(prompt, ScoreMarker)
    ensures Generate(prompt) == "" <==>
      !Contains(prompt, ExprMarker) && !AsksForSettings(prompt) && !Contains(prompt, ScoreMarker)
  {
    assert ExprReply[0] == 'E' && SettingsReply[0] == '{' && ScoreReply[0] == 'S';
  }

  /** A prompt carrying the expression marker anywhere gets the expression
      reply, whatever else it asks for. */
  lemma ExpressionRuleComesFirst(before: string, after: string)
    ensures Generate(before + ExprMarker + after) == ExprReply
  {
    var p := before + ExprMarker + after;
    assert OccursAt(p, ExprMarker, |before|);
  }

  /** Either wording of the settings request gets the settings reply when the
      prompt has no expression marker. */
  lemma SettingsRuleInBothLanguages(before: string, marker: string, after: string)
    requires marker == SettingsMarker || marker == SettingsMarkerZh
    requires !Contains(before + marker + after, ExprMarker)
    ensures Generate(before + marker + after) == SettingsReply
  {
    var p := before + marker + after;
    assert OccursAt(p, marker, |before|);
  }
}
