/** The reachability search of `tools/l2_analyzer.py`. */
module CallGraph {
  const MAX_GRAPH_NODES := 1000

  type Id = string

  /** A definition: its id, and for each call the ids its target may name. */
  datatype Definition = Definition(id: Id, calls: seq<seq<Id>>)

  type Table = map<Id, Definition>

  datatype Graph = Graph(
    nodes: seq<Definition>, unresolved: bool, entryAmbiguous: bool,
    ambiguousCount: nat, unresolvedCount: nat, definitionCount: nat, reachableTruncated: bool)

  // ----- the id table ------------------------------------------------------------------

  /** Of definitions with one id, the last. */
  function ById(definitions: seq<Definition>, n: nat): Table
    requires n <= |definitions|
  {
    if n == 0 then map[] else ById(definitions, n - 1)[definitions[n - 1].id := definitions[n - 1]]
  }

  ghost predicate DistinctIds(definitions: seq<Definition>) {
    forall i, j :: 0 <= i < j < |definitions| ==> definitions[i].id != definitions[j].id
  }

  /** With distinct ids the table is the list of definitions. */
  lemma {:induction false} TableOfDistinct(definitions: seq<Definition>, n: nat, i: nat)
    requires DistinctIds(definitions) && i < n <= |definitions|
    ensures definitions[i].id in ById(definitions, n) && ById(definitions, n)[definitions[i].id] == definitions[i]
    decreases n
  {
    if i < n - 1 {
      TableOfDistinct(definitions, n - 1, i);
      assert definitions[i].id != definitions[n - 1].id;
    }
  }

  /** Candidates are definitions, so their ids are in the table. */
  ghost predicate WellFormed(table: Table) {
    && (forall id :: id in table ==> table[id].id == id)
    && (forall id, to :: id in table && [to] in table[id].calls ==> to in table)
  }

  // ----- reachability -------------------------------------------------------------------

  /** `from` has a call whose only candidate is `to`. */
  predicate Calls(table: Table, from: Id, to: Id) {
    from in table && [to] in table[from].calls
  }

  ghost predicate Path(table: Table, path: seq<Id>) {
    path != [] && forall i :: 0 < i < |path| ==> Calls(table, path[i - 1], path[i])
  }

  ghost predicate Reaches(table: Table, from: Id, to: Id) {
    exists path :: Path(table, path) && path[0] == from && path[|path| - 1] == to
  }

  lemma ReachesSelf(table: Table, id: Id)
    ensures Reaches(table, id, id)
  {
    assert Path(table, [id]);
  }

  lemma ReachesStep(table: Table, from: Id, middle: Id, to: Id)
    requires Reaches(table, from, middle) && Calls(table, middle, to)
    ensures Reaches(table, from, to)
  {
    var path :| Path(table, path) && path[0] == from && path[|path| - 1] == middle;
    assert Path(table, path + [to]);
  }

  ghost predicate Closed(table: Table, ids: set<Id>) {
    forall from, to :: from in ids && Calls(table, from, to) ==> to in ids
  }

  lemma {:induction false} PathStaysInside(table: Table, ids: set<Id>, path: seq<Id>, n: nat)
    requires Closed(table, ids) && Path(table, path) && path[0] in ids && n < |path|
    ensures path[n] in ids
    decreases n
  {
    if n > 0 {
      PathStaysInside(table, ids, path, n - 1);
      assert Calls(table, path[n - 1], path[n]);
    }
  }

  lemma ReachedIsInside(table: Table, ids: set<Id>, from: Id, to: Id)
    requires Closed(table, ids) && from in ids && Reaches(table, from, to)
    ensures to in ids
  {
    var path :| Path(table, path) && path[0] == from && path[|path| - 1] == to;
    PathStaysInside(table, ids, path, |path| - 1);
  }

  // ----- counting the calls that are not followed ------------------------------------------

  predicate Counts(candidates: seq<Id>, several: bool) {
    if several then |candidates| > 1 else candidates == []
  }

  function CallsWith(calls: seq<seq<Id>>, n: nat, several: bool): nat
    requires n <= |calls|
  {
    if n == 0 then 0 else CallsWith(calls, n - 1, several) + if Counts(calls[n - 1], several) then 1 else 0
  }

  function CallsOfFirst(nodes: seq<Definition>, n: nat, several: bool): nat
    requires n <= |nodes|
  {
    if n == 0 then 0
    else
      var calls := nodes[n - 1].calls;
      CallsOfFirst(nodes, n - 1, several) + CallsWith(calls, |calls|, several)
  }

  lemma {:induction false} CallsOfPrefix(nodes: seq<Definition>, next: Definition, n: nat, several: bool)
    requires n <= |nodes|
    ensures CallsOfFirst(nodes + [next], n, several) == CallsOfFirst(nodes, n, several)
    decreases n
  {
    if n > 0 { CallsOfPrefix(nodes, next, n - 1, several); }
  }

  lemma CountStep(nodes: seq<Definition>, next: Definition, several: bool)
    ensures CallsOfFirst(nodes + [next], |nodes| + 1, several) ==
      CallsOfFirst(nodes, |nodes|, several) + CallsWith(next.calls, |next.calls|, several)
  {
    CallsOfPrefix(nodes, next, |nodes|, several);
  }

  // ----- the source's loops -------------------------------------------------------------------

  method BuildTable(definitions: seq<Definition>) returns (table: Table)
    ensures table == ById(definitions, |definitions|)
  {
    table := map[];
    for n := 0 to |definitions|
      invariant table == ById(definitions, n)
    {
      table := table[definitions[n].id := definitions[n]];
    }
  }

  /** The calls of one definition: queues the unique candidates and counts the others. */
  method FollowCalls(calls: seq<seq<Id>>, seen: set<Id>, queue: seq<Id>)
    returns (added: seq<Id>, ambiguous: nat, unresolved: nat)
    ensures forall to :: to in added ==> [to] in calls
    ensures forall to :: [to] in calls ==> to in seen || to in added
    ensures ambiguous == CallsWith(calls, |calls|, true) && unresolved == CallsWith(calls, |calls|, false)
  {
    added, ambiguous, unresolved := [], 0, 0;
    for c := 0 to |calls|
      invariant forall to :: to in added ==> [to] in calls
      invariant forall to :: [to] in calls[..c] ==> to in seen || to in added
      invariant ambiguous == CallsWith(calls, c, true) && unresolved == CallsWith(calls, c, false)
    {
      var candidates := calls[c];
      assert calls[..c + 1] == calls[..c] + [candidates];
      if |candidates| == 1 {
        assert candidates == [candidates[0]];
        if candidates[0] !in seen {
          added := added + [candidates[0]];
        }
      } else if |candidates| > 1 {
        ambiguous := ambiguous + 1;
      } else {
        unresolved := unresolved + 1;
      }
    }
    assert calls[..|calls|] == calls;
  }

  /** What holds at the loop head: the ids seen are the ids listed, all reachable, and
      what they call is seen or queued. */
  ghost predicate Searching(table: Table, entry: Id, nodes: seq<Definition>, seen: set<Id>, queue: seq<Id>) {
    && (forall q :: q in queue ==> q in table && Reaches(table, entry, q))
    && (forall s :: s in seen ==> s in table && table[s] in nodes)
    && (forall i :: 0 <= i < |nodes| ==> nodes[i].id in seen && table[nodes[i].id] == nodes[i])
    && (forall i, j :: 0 <= i < j < |nodes| ==> nodes[i].id != nodes[j].id)
    && (forall s :: s in seen ==> Reaches(table, entry, s))
    && (forall s, to :: s in seen && Calls(table, s, to) ==> to in seen || to in queue)
    && (entry in seen || entry in queue)
  }

  lemma SkipStep(table: Table, entry: Id, nodes: seq<Definition>, seen: set<Id>, id: Id, rest: seq<Id>)
    requires id in seen && Searching(table, entry, nodes, seen, [id] + rest)
    ensures Searching(table, entry, nodes, seen, rest)
  {
    assert forall q :: q in rest ==> q in [id] + rest;
  }

  lemma VisitStep(table: Table, entry: Id, nodes: seq<Definition>, seen: set<Id>, id: Id, rest: seq<Id>, added: seq<Id>)
    requires WellFormed(table) && id !in seen && Searching(table, entry, nodes, seen, [id] + rest)
    requires id in table
    requires forall to :: to in added ==> [to] in table[id].calls
    requires forall to :: [to] in table[id].calls ==> to in seen + {id} || to in added
    ensures Searching(table, entry, nodes + [table[id]], seen + {id}, rest + added)
  {
    assert id in [id] + rest;
    assert forall q :: q in rest ==> q in [id] + rest;
    forall q | q in rest + added ensures q in table && Reaches(table, entry, q) {
      if q in added { ReachesStep(table, entry, id, q); }
    }
    forall s, to | s in seen + {id} && Calls(table, s, to) ensures to in seen + {id} || to in rest + added {
      assert s in seen ==> to in seen || to in [id] + rest;
    }
  }

  /** The list is exact when everything left in the queue is listed, and only then. */
  lemma ExactIffNothingNewIsLeft(table: Table, entry: Id, nodes: seq<Definition>, seen: set<Id>, queue: seq<Id>)
    requires WellFormed(table) && Searching(table, entry, nodes, seen, queue)
    ensures Exact(table, entry, nodes) <==> AllListed(table, nodes, queue)
  {
    if AllListed(table, nodes, queue) {
      forall id | id in queue ensures id in seen { assert table[id] in nodes && table[id].id == id; }
      forall id | Reaches(table, entry, id) ensures id in table && table[id] in nodes {
        ReachedIsInside(table, seen, entry, id);
      }
    }
  }

  /** The listed nodes are reachable definitions, each listed once. */
  ghost predicate Sound(table: Table, entry: Id, nodes: seq<Definition>) {
    && (forall n :: n in nodes ==> n.id in table && table[n.id] == n && Reaches(table, entry, n.id))
    && (forall i, j :: 0 <= i < j < |nodes| ==> nodes[i].id != nodes[j].id)
  }

  /** Every reachable id has its definition listed. */
  ghost predicate Exact(table: Table, entry: Id, nodes: seq<Definition>) {
    forall id :: Reaches(table, entry, id) ==> id in table && table[id] in nodes
  }

  ghost predicate AllListed(table: Table, nodes: seq<Definition>, ids: seq<Id>) {
    forall id :: id in ids ==> id in table && table[id] in nodes
  }

  /** The source's queue loop. The queue may hold an id many times; each round either
      finds a new id or shortens the queue. `left` is the queue at the end: the flag is set
      exactly when it is not empty, and the list is exact exactly when all of it is listed, so
      a flag set over listed ids alone hides nothing. */
  method Explore(table: Table, entry: Id)
    returns (nodes: seq<Definition>, ambiguous: nat, unresolved: nat, truncated: bool, ghost left: seq<Id>)
    requires WellFormed(table) && entry in table
    ensures Sound(table, entry, nodes) && |nodes| <= MAX_GRAPH_NODES
    ensures truncated <==> left != []
    ensures truncated ==> |nodes| == MAX_GRAPH_NODES
    ensures forall id :: id in left ==> Reaches(table, entry, id)
    ensures Exact(table, entry, nodes) <==> AllListed(table, nodes, left)
    ensures ambiguous == CallsOfFirst(nodes, |nodes|, true) && unresolved == CallsOfFirst(nodes, |nodes|, false)
  {
    hide Exact, AllListed, Reaches, Calls;
    var queue, seen: set<Id> := [entry], {};
    nodes, ambiguous, unresolved := [], 0, 0;
    ReachesSelf(table, entry);
    while queue != [] && |nodes| < MAX_GRAPH_NODES
      invariant Searching(table, entry, nodes, seen, queue)
      invariant |nodes| <= MAX_GRAPH_NODES
      invariant ambiguous == CallsOfFirst(nodes, |nodes|, true) && unresolved == CallsOfFirst(nodes, |nodes|, false)
      decreases table.Keys - seen, |queue|
    {
      var id, rest := queue[0], queue[1..];
      assert queue == [id] + rest && id in queue;
      if id in seen {
        SkipStep(table, entry, nodes, seen, id, rest);
        queue := rest;
        continue;
      }
      var definition := table[id];
      var added, several, none := FollowCalls(definition.calls, seen + {id}, rest);
      VisitStep(table, entry, nodes, seen, id, rest, added);
      CountStep(nodes, definition, true);
      CountStep(nodes, definition, false);
      seen := seen + {id};
      nodes := nodes + [definition];
      queue, ambiguous, unresolved := rest + added, ambiguous + several, unresolved + none;
    }
    truncated, left := queue != [], queue;
    ExactIffNothingNewIsLeft(table, entry, nodes, seen, queue);
  }

  method Search(definitions: seq<Definition>, entryCandidates: seq<Id>) returns (graph: Graph, ghost left: seq<Id>)
    requires WellFormed(ById(definitions, |definitions|))
    requires forall e :: e in entryCandidates ==> e in ById(definitions, |definitions|)
    ensures graph.unresolved == (entryCandidates == []) && graph.entryAmbiguous == (|entryCandidates| > 1)
    ensures |entryCandidates| != 1 ==> graph.nodes == [] && !graph.reachableTruncated
    ensures |entryCandidates| == 1 ==>
      var table := ById(definitions, |definitions|);
      && Sound(table, entryCandidates[0], graph.nodes) && |graph.nodes| <= MAX_GRAPH_NODES
      && (graph.reachableTruncated <==> left != [])
      && (graph.reachableTruncated ==> |graph.nodes| == MAX_GRAPH_NODES)
      && (forall id :: id in left ==> Reaches(table, entryCandidates[0], id))
      && (Exact(table, entryCandidates[0], graph.nodes) <==> AllListed(table, graph.nodes, left))
    ensures graph.definitionCount == |definitions|
    ensures graph.ambiguousCount == CallsOfFirst(graph.nodes, |graph.nodes|, true)
    ensures graph.unresolvedCount == CallsOfFirst(graph.nodes, |graph.nodes|, false)
  {
    var table := BuildTable(definitions);
    if |entryCandidates| != 1 {
      return Graph([], entryCandidates == [], |entryCandidates| > 1, 0, 0, |definitions|, false), [];
    }
    var nodes, ambiguous, unresolved, truncated, queue := Explore(table, entryCandidates[0]);
    graph := Graph(nodes, false, false, ambiguous, unresolved, |definitions|, truncated);
    left := queue;
  }

  /** With distinct ids, an untruncated graph lists exactly the reachable definitions. */
  lemma NodesAreReachableDefinitions(definitions: seq<Definition>, entry: Id, nodes: seq<Definition>, i: nat)
    requires DistinctIds(definitions) && i < |definitions|
    requires Sound(ById(definitions, |definitions|), entry, nodes) && Exact(ById(definitions, |definitions|), entry, nodes)
    ensures definitions[i] in nodes <==> Reaches(ById(definitions, |definitions|), entry, definitions[i].id)
  {
    TableOfDistinct(definitions, |definitions|, i);
  }
}
