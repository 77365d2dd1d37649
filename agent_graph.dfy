/** The routing table of the chatbot's agent graph
    (backend/services/graph/graph.py): the nodes, the entry point and the
    edges, conditional ones keyed by the `next_agent` label that the node
    just run has set. */
module AgentGraph {
  import opened Wrappers

  datatype Node = Orchestrator | Structurer | Trivial | Sql | Revisor | Web | End

  /** The nodes registered with `add_node`; `End` is the graph's end marker. */
  const Registered: set<Node> := {Orchestrator, Structurer, Trivial, Sql, Revisor, Web}

  /** `set_entry_point`. */
  const Entry: Node := Orchestrator

  /** The orchestrator's conditional edges. */
  function OrchestratorRoute(nextAgent: string): Option<Node> {
    if nextAgent == "TRIVIAL" then Some(Trivial)
    else if nextAgent == "SQL" then Some(Sql)
    else if nextAgent == "WEB" then Some(Web)
    else if nextAgent == "SAVE_RECIPE" then Some(Structurer)
    else None
  }

  /** The revisor's conditional edges. */
  function RevisorRoute(nextAgent: string): Option<Node> {
    if nextAgent == "FINALIZAR" then Some(End)
    else if nextAgent == "WEB" then Some(Web)
    else None
  }

  /** The node that follows `n` when `next_agent` is `nextAgent`; `None` for a
      nextAgent the node's table does not list, and after `End`. */
  function Step(n: Node, nextAgent: string): Option<Node> {
    match n
    case Orchestrator => OrchestratorRoute(nextAgent)
    case Structurer => Some(Sql)
    case Sql => Some(Revisor)
    case Revisor => RevisorRoute(nextAgent)
    case Web => Some(End)
    case Trivial => Some(End)
    case End => None
  }

  /** The greatest number of steps left before `End`. */
  function Rank(n: Node): nat {
    match n
    case End => 0
    case Web => 1
    case Trivial => 1
    case Revisor => 2
    case Sql => 3
    case Structurer => 4
    case Orchestrator => 5
  }

  /** Every edge leads strictly closer to `End` and into a registered node
      or `End`; nothing leads back to the entry point. */
  lemma StepDescends(n: Node, nextAgent: string)
    ensures Step(n, nextAgent).Some? ==> Rank(Step(n, nextAgent).value) < Rank(n)
    ensures Step(n, nextAgent).Some? ==> Step(n, nextAgent).value in Registered + {End}
    ensures Step(n, nextAgent) != Some(Entry)
  {
  }

  /** The run from `n` when the nodes set the labels in turn: it stops at
      `End`, at a nextAgent the table does not list, or when the labels run
      out. Each node is followed by the one its edge names, and the run is
      never longer than the rank allows. */
  function Walk(n: Node, labels: seq<string>): (path: seq<Node>)
    ensures 1 <= |path| <= Rank(n) + 1 && path[0] == n
    ensures |path| <= |labels| + 1
    ensures forall i :: 0 <= i < |path| - 1 ==> Step(path[i], labels[i]) == Some(path[i + 1])
    decreases |labels|
  {
    if |labels| == 0 || Step(n, labels[0]).None? then [n]
    else
      StepDescends(n, labels[0]);
      var rest := Walk(Step(n, labels[0]).value, labels[1..]);
      assert forall i :: 1 <= i < |rest| ==> Step(rest[i - 1], labels[1..][i - 1]) == Some(rest[i]);
      [n] + rest
  }

  /** The labels the nodes set are all listed by their tables, up to `End`. */
  predicate Accepted(n: Node, labels: seq<string>)
    decreases |labels|
  {
    n == End || (|labels| > 0 && Step(n, labels[0]).Some? && Accepted(Step(n, labels[0]).value, labels[1..]))
  }

  // ---------------------------------------------------------------------
  // Properties

  /** The edge table: the orchestrator's four labels, the two unconditional
      edges into sql and revisor, the revisor's two labels, and the two
      unconditional edges into `End`. */
  lemma EdgeTable(nextAgent: string)
    ensures Step(Orchestrator, "TRIVIAL") == Some(Trivial) && Step(Orchestrator, "SQL") == Some(Sql)
    ensures Step(Orchestrator, "WEB") == Some(Web) && Step(Orchestrator, "SAVE_RECIPE") == Some(Structurer)
    ensures Step(Orchestrator, nextAgent).Some? <==> nextAgent in {"TRIVIAL", "SQL", "WEB", "SAVE_RECIPE"}
    ensures Step(Structurer, nextAgent) == Some(Sql) && Step(Sql, nextAgent) == Some(Revisor)
    ensures Step(Revisor, "FINALIZAR") == Some(End) && Step(Revisor, "WEB") == Some(Web)
    ensures Step(Revisor, nextAgent).Some? <==> nextAgent in {"FINALIZAR", "WEB"}
    ensures Step(Web, nextAgent) == Some(End) && Step(Trivial, nextAgent) == Some(End)
  {
  }

  /** Only sql leads to revisor, and only the orchestrator to structurer. */
  lemma RevisorOnlyAfterSql(n: Node, nextAgent: string)
    ensures Step(n, nextAgent) == Some(Revisor) <==> n == Sql
    ensures Step(n, nextAgent) == Some(Structurer) <==> n == Orchestrator && nextAgent == "SAVE_RECIPE"
  {
  }

  /** Along a run the rank falls at every step, so no node is visited twice:
      the graph has no cycle. */
  lemma {:induction false} WalkIsAcyclic(n: Node, labels: seq<string>)
    ensures forall i, j :: 0 <= i < j < |Walk(n, labels)| ==> Rank(Walk(n, labels)[j]) < Rank(Walk(n, labels)[i])
    ensures forall i, j :: 0 <= i < j < |Walk(n, labels)| ==> Walk(n, labels)[i] != Walk(n, labels)[j]
    decreases |labels|
  {
    var path := Walk(n, labels);
    if |labels| > 0 && Step(n, labels[0]).Some? {
      var next := Step(n, labels[0]).value;
      StepDescends(n, labels[0]);
      WalkIsAcyclic(next, labels[1..]);
      var rest := Walk(next, labels[1..]);
      assert path == [n] + rest;
      forall i, j | 0 <= i < j < |path|
        ensures Rank(path[j]) < Rank(path[i])
      {
        if i == 0 {
          if j > 1 {
            assert Rank(rest[j - 1]) < Rank(rest[0]);
          }
        } else {
          assert Rank(rest[j - 1]) < Rank(rest[i - 1]);
        }
      }
    }
  }

  /** A run whose labels the tables all list ends at `End`, after at most
      five steps from the entry point. */
  lemma {:induction false} AcceptedRunEnds(n: Node, labels: seq<string>)
    requires Accepted(n, labels)
    ensures Walk(n, labels)[|Walk(n, labels)| - 1] == End
    ensures |Walk(n, labels)| - 1 <= Rank(n) <= Rank(Entry)
    decreases |labels|
  {
    if n != End {
      var next := Step(n, labels[0]).value;
      AcceptedRunEnds(next, labels[1..]);
      assert Walk(n, labels) == [n] + Walk(next, labels[1..]);
    }
  }

  /** From every node some labels lead to `End`, no more of them than the
      node's rank. */
  lemma EveryNodeCanFinish(n: Node)
    ensures exists labels :: |labels| <= Rank(n) && Accepted(n, labels)
  {
    assert Accepted(End, []);
    match n {
      case Orchestrator =>
        assert Accepted(Trivial, [""]);
        assert ["TRIVIAL", ""][1..] == [""];
        assert Accepted(n, ["TRIVIAL", ""]);
      case Structurer =>
        assert Accepted(Revisor, ["FINALIZAR"]);
        assert ["", "FINALIZAR"][1..] == ["FINALIZAR"];
        assert Accepted(Sql, ["", "FINALIZAR"]);
        assert ["", "", "FINALIZAR"][1..] == ["", "FINALIZAR"];
        assert Accepted(n, ["", "", "FINALIZAR"]);
      case Sql =>
        assert Accepted(Revisor, ["FINALIZAR"]);
        assert ["", "FINALIZAR"][1..] == ["FINALIZAR"];
        assert Accepted(n, ["", "FINALIZAR"]);
      case Revisor =>
        assert Accepted(n, ["FINALIZAR"]);
      case Web =>
        assert Accepted(n, [""]);
      case Trivial =>
        assert Accepted(n, [""]);
      case End =>
    }
  }

  /** The longest run: orchestrator, structurer, sql, revisor, web, `End`. */
  lemma LongestRun()
    ensures Walk(Entry, ["SAVE_RECIPE", "", "", "WEB", ""]) == [Orchestrator, Structurer, Sql, Revisor, Web, End]
    ensures |Walk(Entry, ["SAVE_RECIPE", "", "", "WEB", ""])| - 1 == Rank(Entry)
  {
    var labels := ["SAVE_RECIPE", "", "", "WEB", ""];
    assert labels[1..][1..][1..][1..][1..] == [];
  }

  /** A nextAgent the orchestrator does not list stops the run there. */
  lemma UnknownLabelStops(nextAgent: string)
    requires nextAgent !in {"TRIVIAL", "SQL", "WEB", "SAVE_RECIPE"}
    ensures Walk(Entry, [nextAgent]) == [Entry]
    ensures !Accepted(Entry, [nextAgent])
  {
  }
}
