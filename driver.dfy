/**
 * The test driver: a re-entrant traversal engine over an immutable
 * topology, with one mutable cursor (`currNode`) saved and restored around
 * every processor call, a context holding the logical time and the
 * registered state stores, and a record collector that loops every emitted
 * record back into `Process`.
 *
 * The processor callbacks (`ProcessorNode.process`, `Processor.punctuate`)
 * are opaque user code; `NodeProcess` and `NodePunctuate` stand for them:
 * each records its invocation in the ghost `trace` and then plays the
 * node's script of calls back into the driver.
 */
module TestDriver {
  import opened ProcessorTopology
  import opened Traversal

  /** A registered state store; its contents are not part of this model. */
  datatype Store = Store(name: string)

  /** The parts of a ProducerRecord the loopback collector reads. */
  datatype ProducerRecord = ProducerRecord(topic: string, key: int, value: string)

  /** The events of the supplier loop: one store init per supplier, in order. */
  function StoreInits(sups: seq<Supplier>): seq<Event>
  {
    if sups == [] then [] else [StoreInit(sups[0].name)] + StoreInits(sups[1..])
  }

  /** The events of the node loop: one node init per node, in order. */
  function NodeInits(nodes: seq<NodeId>): seq<Event>
  {
    if nodes == [] then [] else [NodeInit(nodes[0])] + NodeInits(nodes[1..])
  }

  /** The events of constructing a driver: every store init, then every node init. */
  function InitEvents(t: Topology): seq<Event>
  {
    StoreInits(t.suppliers) + NodeInits(t.processors)
  }

  lemma {:induction false} StoreInitsAt(sups: seq<Supplier>)
    ensures |StoreInits(sups)| == |sups|
    ensures forall i :: 0 <= i < |sups| ==> StoreInits(sups)[i] == StoreInit(sups[i].name)
  {
    if sups != [] {
      StoreInitsAt(sups[1..]);
    }
  }

  lemma {:induction false} NodeInitsAt(nodes: seq<NodeId>)
    ensures |NodeInits(nodes)| == |nodes|
    ensures forall j :: 0 <= j < |nodes| ==> NodeInits(nodes)[j] == NodeInit(nodes[j])
  {
    if nodes != [] {
      NodeInitsAt(nodes[1..]);
    }
  }

  /** Construction inits every store, in supplier order, and then every node, in topology order. */
  lemma InitEventsInOrder(t: Topology)
    ensures |InitEvents(t)| == |t.suppliers| + |t.processors|
    ensures forall i :: 0 <= i < |t.suppliers| ==> InitEvents(t)[i] == StoreInit(t.suppliers[i].name)
    ensures forall j :: 0 <= j < |t.processors| ==>
              InitEvents(t)[|t.suppliers| + j] == NodeInit(t.processors[j])
  {
    StoreInitsAt(t.suppliers);
    NodeInitsAt(t.processors);
  }

  /** One store init: its event, then the supplier's exception if its store's `init` raises. */
  function StoreInitStep(s: Supplier): Run
  {
    Run([StoreInit(s.name)], if s.initOk then Ok else Failed(StoreInitFailed(s.name)))
  }

  /** One node init: its event, then the node's exception if its `init` raises. */
  function NodeInitStep(t: Topology, n: NodeId): Run
  {
    Run([NodeInit(n)], if t.initOk(n) then Ok else Failed(NodeInitFailed(n)))
  }

  /** The supplier loop of the constructor from position `i` on; an exception ends it. */
  function StoreInitFrom(sups: seq<Supplier>, i: nat): (run: Run)
    ensures forall e <- run.events :: e.StoreInit?
    decreases |sups| - i
  {
    if i >= |sups| then Done else Then(StoreInitStep(sups[i]), StoreInitFrom(sups, i + 1))
  }

  /** The node loop of the constructor from position `j` on; an exception ends it. */
  function NodeInitFrom(t: Topology, j: nat): (run: Run)
    ensures forall e <- run.events :: e.NodeInit?
    decreases |t.processors| - j
  {
    if j >= |t.processors| then Done else Then(NodeInitStep(t, t.processors[j]), NodeInitFrom(t, j + 1))
  }

  /** Construction: the supplier loop, then, unless it raised, the node loop. */
  function InitRun(t: Topology): (run: Run)
    ensures forall e <- run.events :: e.StoreInit? || e.NodeInit?
  {
    Then(StoreInitFrom(t.suppliers, 0), NodeInitFrom(t, 0))
  }

  /**
   * `run` is the supplier loop from `i` failing at supplier `k`: the stores
   * before it init, its store raises, and the loop has produced the store
   * inits from `i` through `k` and nothing after them.
   */
  ghost predicate StoreInitFailsAt(sups: seq<Supplier>, i: nat, k: nat, run: Run)
  {
    && i <= k < |sups|
    && (forall m :: i <= m < k ==> sups[m].initOk)
    && !sups[k].initOk
    && run == Run(StoreInits(sups[i..k + 1]), Failed(StoreInitFailed(sups[k].name)))
  }

  /** The same for the node loop from `j` failing at the node in position `k`. */
  ghost predicate NodeInitFailsAt(t: Topology, j: nat, k: nat, run: Run)
  {
    && j <= k < |t.processors|
    && (forall m :: j <= m < k ==> t.initOk(t.processors[m]))
    && !t.initOk(t.processors[k])
    && run == Run(NodeInits(t.processors[j..k + 1]), Failed(NodeInitFailed(t.processors[k])))
  }

  /**
   * The supplier loop completes iff every remaining store inits, and then
   * produces every remaining store init; otherwise it stops right after the
   * first store that raises, with that supplier's exception.
   */
  lemma {:induction false} StoreInitFromMeaning(sups: seq<Supplier>, i: nat)
    requires i <= |sups|
    ensures StoreInitFrom(sups, i).outcome.Ok? <==> forall m :: i <= m < |sups| ==> sups[m].initOk
    ensures StoreInitFrom(sups, i).outcome.Ok? ==> StoreInitFrom(sups, i).events == StoreInits(sups[i..])
    ensures StoreInitFrom(sups, i).outcome.Failed? ==>
              exists k :: StoreInitFailsAt(sups, i, k, StoreInitFrom(sups, i))
    decreases |sups| - i
  {
    if i < |sups| {
      StoreInitFromMeaning(sups, i + 1);
      var s := sups[i];
      assert sups[i..][1..] == sups[i + 1..];
      assert sups[i..i + 1][1..] == [];
      if !s.initOk {
        assert StoreInitFailsAt(sups, i, i, StoreInitFrom(sups, i));
      } else if StoreInitFrom(sups, i + 1).outcome.Failed? {
        var k: nat :| StoreInitFailsAt(sups, i + 1, k, StoreInitFrom(sups, i + 1));
        assert sups[i..k + 1][1..] == sups[i + 1..k + 1];
        assert StoreInitFailsAt(sups, i, k, StoreInitFrom(sups, i));
      }
    } else {
      assert sups[i..] == [];
    }
  }

  /** The node loop completes iff every remaining node inits; otherwise it stops right after the first that raises. */
  lemma {:induction false} NodeInitFromMeaning(t: Topology, j: nat)
    requires j <= |t.processors|
    ensures NodeInitFrom(t, j).outcome.Ok? <==> forall m :: j <= m < |t.processors| ==> t.initOk(t.processors[m])
    ensures NodeInitFrom(t, j).outcome.Ok? ==> NodeInitFrom(t, j).events == NodeInits(t.processors[j..])
    ensures NodeInitFrom(t, j).outcome.Failed? ==>
              exists k :: NodeInitFailsAt(t, j, k, NodeInitFrom(t, j))
    decreases |t.processors| - j
  {
    var nodes := t.processors;
    if j < |nodes| {
      NodeInitFromMeaning(t, j + 1);
      var n := nodes[j];
      assert nodes[j..][1..] == nodes[j + 1..];
      assert nodes[j..j + 1][1..] == [];
      if !t.initOk(n) {
        assert NodeInitFailsAt(t, j, j, NodeInitFrom(t, j));
      } else if NodeInitFrom(t, j + 1).outcome.Failed? {
        var k: nat :| NodeInitFailsAt(t, j + 1, k, NodeInitFrom(t, j + 1));
        assert nodes[j..k + 1][1..] == nodes[j + 1..k + 1];
        assert NodeInitFailsAt(t, j, k, NodeInitFrom(t, j));
      }
    } else {
      assert nodes[j..] == [];
    }
  }

  lemma PrefixAfter(a: seq<Event>, b: seq<Event>, c: seq<Event>)
    requires b <= c
    ensures a + b <= a + c
  {
    assert a + b == (a + c)[..|a + b|];
  }

  /** The store inits of a prefix of the suppliers are a prefix of the store inits of all of them. */
  lemma {:induction false} StoreInitsPrefix(sups: seq<Supplier>, m: nat)
    requires m <= |sups|
    ensures StoreInits(sups[..m]) <= StoreInits(sups)
  {
    if m > 0 {
      StoreInitsPrefix(sups[1..], m - 1);
      assert sups[..m][1..] == sups[1..][..m - 1];
    }
  }

  /** The node inits of a prefix of the nodes are a prefix of the node inits of all of them. */
  lemma {:induction false} NodeInitsPrefix(nodes: seq<NodeId>, m: nat)
    requires m <= |nodes|
    ensures NodeInits(nodes[..m]) <= NodeInits(nodes)
  {
    if m > 0 {
      NodeInitsPrefix(nodes[1..], m - 1);
      assert nodes[..m][1..] == nodes[1..][..m - 1];
    }
  }

  /** Whether every store init and every node init succeeds. */
  ghost predicate InitsSucceed(t: Topology)
  {
    && (forall i :: 0 <= i < |t.suppliers| ==> t.suppliers[i].initOk)
    && (forall j :: 0 <= j < |t.processors| ==> t.initOk(t.processors[j]))
  }

  /**
   * A store that raises ends construction right after its init, before any
   * node init; once every store has inited, construction is the node loop
   * after all the store inits.
   */
  lemma InitRunShape(t: Topology)
    ensures !(forall i :: 0 <= i < |t.suppliers| ==> t.suppliers[i].initOk) ==>
              exists k :: StoreInitFailsAt(t.suppliers, 0, k, InitRun(t))
    ensures (forall i :: 0 <= i < |t.suppliers| ==> t.suppliers[i].initOk) ==>
              InitRun(t) == Run(StoreInits(t.suppliers) + NodeInitFrom(t, 0).events, NodeInitFrom(t, 0).outcome)
  {
    var sups := t.suppliers;
    StoreInitFromMeaning(sups, 0);
    assert sups[0..] == sups;
    if StoreInitFrom(sups, 0).outcome.Failed? {
      var k: nat :| StoreInitFailsAt(sups, 0, k, StoreInitFrom(sups, 0));
      assert StoreInitFailsAt(sups, 0, k, InitRun(t));
    }
  }

  /**
   * Construction completes iff every store init and every node init
   * succeeds, and then it has produced every init event; either way it has
   * produced a prefix of the init events.
   */
  lemma InitRunMeaning(t: Topology)
    ensures InitRun(t).outcome.Ok? <==> InitsSucceed(t)
    ensures InitRun(t).outcome.Ok? ==> InitRun(t).events == InitEvents(t)
    ensures InitRun(t).events <= InitEvents(t)
  {
    var sups, nodes := t.suppliers, t.processors;
    InitRunShape(t);
    NodeInitFromMeaning(t, 0);
    assert nodes[0..] == nodes;
    var n := NodeInitFrom(t, 0);
    if !(forall i :: 0 <= i < |sups| ==> sups[i].initOk) {
      var k: nat :| StoreInitFailsAt(sups, 0, k, InitRun(t));
      assert sups[0..k + 1] == sups[..k + 1];
      StoreInitsPrefix(sups, k + 1);
    } else if n.outcome.Failed? {
      var k: nat :| NodeInitFailsAt(t, 0, k, n);
      assert nodes[0..k + 1] == nodes[..k + 1];
      NodeInitsPrefix(nodes, k + 1);
      PrefixAfter(StoreInits(sups), NodeInits(nodes[..k + 1]), NodeInits(nodes));
    }
  }

  /** Whether one of the first `i` nodes of the topology carries a processor. */
  ghost predicate AnyProcessor(t: Topology, i: nat)
  {
    exists k :: 0 <= k < i && k < |t.processors| && t.hasProcessor(t.processors[k])
  }

  /** The names of the stores the suppliers build. */
  function StoreNames(sups: seq<Supplier>): set<string>
  {
    set i | 0 <= i < |sups| :: sups[i].name
  }

  lemma StoreNamesSnoc(sups: seq<Supplier>, i: nat)
    requires i < |sups|
    ensures StoreNames(sups[..i + 1]) == StoreNames(sups[..i]) + {sups[i].name}
  {
    var a, b := sups[..i + 1], sups[..i];
    forall x | x in StoreNames(a) ensures x in StoreNames(b) + {sups[i].name} {
      var k :| 0 <= k < |a| && a[k].name == x;
      if k < i { assert b[k] == a[k]; }
    }
    forall x | x in StoreNames(b) + {sups[i].name} ensures x in StoreNames(a) {
      if x == sups[i].name { assert a[i].name == x; }
      else { var k :| 0 <= k < |b| && b[k].name == x; assert a[k] == b[k]; }
    }
  }

  class KStreamTestDriver {
    const topo: Topology
    var currNode: Option<NodeId>
    var time: int
    var stores: map<string, Store>
    ghost var trace: seq<Event>

    /** Allocation: the topology, a fresh context at time 0, no stores, no cursor. */
    constructor (t: Topology)
      ensures topo == t && currNode == None && time == 0 && stores == map[] && trace == []
    {
      topo := t;
      currNode := None;
      time := 0;
      stores := map[];
      trace := [];
    }

    /**
     * Builds a driver: inits every store supplier's store, then every node
     * in topology order with the cursor on that node, resetting the cursor
     * to null after each node, also when its init fails. A failed init
     * aborts construction: the outcome is Failed and the driver is unusable.
     */
    static method Create(t: Topology) returns (d: KStreamTestDriver, o: Outcome)
      ensures fresh(d) && d.topo == t && d.time == 0 && d.currNode == None
      ensures d.trace == InitRun(t).events && o == InitRun(t).outcome
      ensures o.Ok? <==> InitsSucceed(t)
      ensures d.trace <= InitEvents(t)
      ensures o.Ok? ==> d.trace == InitEvents(t)
      ensures o.Ok? ==> d.stores.Keys == StoreNames(t.suppliers)
      ensures forall name <- d.stores :: d.stores[name] == Store(name)
    {
      d := new KStreamTestDriver(t);
      o := d.InitStores();
      assert [] + StoreInitFrom(t.suppliers, 0).events == StoreInitFrom(t.suppliers, 0).events;
      if o.Ok? {
        o := d.InitNodes();
      }
      InitRunMeaning(t);
    }

    /** The supplier loop of the constructor: build and init each store, registering it. */
    method InitStores() returns (o: Outcome)
      requires stores == map[]
      modifies this
      ensures currNode == old(currNode) && time == old(time)
      ensures trace == old(trace) + StoreInitFrom(topo.suppliers, 0).events
      ensures o == StoreInitFrom(topo.suppliers, 0).outcome
      ensures o.Ok? ==> stores.Keys == StoreNames(topo.suppliers)
      ensures forall name <- stores :: stores[name] == Store(name)
    {
      var sups := topo.suppliers;
      var i := 0;
      while i < |sups|
        invariant 0 <= i <= |sups|
        invariant currNode == old(currNode) && time == old(time)
        invariant Then(Run(trace, Ok), StoreInitFrom(sups, i)) == Then(Run(old(trace), Ok), StoreInitFrom(sups, 0))
        invariant stores.Keys == StoreNames(sups[..i])
        invariant forall name <- stores :: stores[name] == Store(name)
      {
        var s := sups[i];
        ThenStep(trace, StoreInitStep(s), StoreInitFrom(sups, i + 1));
        trace := trace + [StoreInit(s.name)];
        if !s.initOk {
          return Failed(StoreInitFailed(s.name));
        }
        stores := stores[s.name := Store(s.name)];
        StoreNamesSnoc(sups, i);
        i := i + 1;
      }
      assert sups[..i] == sups;
      assert trace + [] == trace;
      o := Ok;
    }

    /** The node loop of the constructor: init each node with the cursor on it. */
    method InitNodes() returns (o: Outcome)
      requires currNode == None
      modifies this
      ensures currNode == None && time == old(time) && stores == old(stores)
      ensures trace == old(trace) + NodeInitFrom(topo, 0).events
      ensures o == NodeInitFrom(topo, 0).outcome
    {
      var nodes := topo.processors;
      var j := 0;
      while j < |nodes|
        invariant 0 <= j <= |nodes|
        invariant currNode == None && time == old(time) && stores == old(stores)
        invariant Then(Run(trace, Ok), NodeInitFrom(topo, j)) == Then(Run(old(trace), Ok), NodeInitFrom(topo, 0))
      {
        var n := nodes[j];
        ThenStep(trace, NodeInitStep(topo, n), NodeInitFrom(topo, j + 1));
        var oi := InitNode(n);
        if oi.Failed? {
          return oi;
        }
        j := j + 1;
      }
      assert trace + [] == trace;
      o := Ok;
    }

    /** One node init: the cursor on the node during `init`, null after it, also when it raises. */
    method InitNode(n: NodeId) returns (o: Outcome)
      modifies this
      ensures currNode == None && time == old(time) && stores == old(stores)
      ensures trace == old(trace) + NodeInitStep(topo, n).events
      ensures o == NodeInitStep(topo, n).outcome
      ensures o.Ok? <==> topo.initOk(n)
      ensures o.Failed? ==> o.error == NodeInitFailed(n)
    {
      currNode := Some(n);
      trace := trace + [NodeInit(n)];
      o := if topo.initOk(n) then Ok else Failed(NodeInitFailed(n));
      currNode := None;
    }

    /** `process(topic, key, value)`: forward from the topic's source; the cursor ends null. */
    method Process(topic: string, r: Record) returns (o: Outcome)
      requires Ranked(topo)
      modifies this
      decreases CursorRank(topo, SourceOf(topo, topic)), 2, 0
      ensures currNode == None && time == old(time) && stores == old(stores)
      ensures trace == old(trace) + ProcessRun(topo, topic, r).events
      ensures o == ProcessRun(topo, topic, r).outcome
    {
      currNode := SourceOf(topo, topic);
      o := Forward(r);
      currNode := None;
    }

    /**
     * `forward(key, value)`: every child of the current node in order, the
     * cursor on the child during its call and back on this node after it,
     * also when the child raises.
     */
    method Forward(r: Record) returns (o: Outcome)
      requires Ranked(topo)
      modifies this
      decreases CursorRank(topo, currNode), 1, 1
      ensures currNode == old(currNode) && time == old(time) && stores == old(stores)
      ensures trace == old(trace) + ForwardRun(topo, old(currNode), r).events
      ensures o == ForwardRun(topo, old(currNode), r).outcome
    {
      if currNode.None? {
        return Failed(NoCurrentNode);
      }
      var thisNode := currNode.value;
      var kids := topo.children(thisNode);
      var i := 0;
      while i < |kids|
        invariant 0 <= i <= |kids|
        invariant currNode == Some(thisNode) && time == old(time) && stores == old(stores)
        invariant Then(Run(trace, Ok), ChildrenFrom(topo, thisNode, i, r)) == Then(Run(old(trace), Ok), ForwardRun(topo, old(currNode), r))
      {
        var child := kids[i];
        ThenStep(trace, NodeRun(topo, child, r), ChildrenFrom(topo, thisNode, i + 1, r));
        var oc := CallChild(thisNode, child, r);
        if oc.Failed? {
          return oc;
        }
        i := i + 1;
      }
      assert trace + [] == trace;
      o := Ok;
    }

    /** One guarded child call: cursor on the child, `process`, cursor back on `thisNode` (the `finally`). */
    method CallChild(thisNode: NodeId, child: NodeId, r: Record) returns (o: Outcome)
      requires Ranked(topo) && topo.rank(child) < topo.rank(thisNode)
      modifies this
      decreases topo.rank(thisNode), 1, 0
      ensures currNode == Some(thisNode) && time == old(time) && stores == old(stores)
      ensures trace == old(trace) + NodeRun(topo, child, r).events
      ensures o == NodeRun(topo, child, r).outcome
    {
      currNode := Some(child);
      o := NodeProcess(child, r);
      currNode := Some(thisNode);
    }

    /** `forward(key, value, childIndex)`: only the child at that position. */
    method ForwardAt(r: Record, childIndex: int) returns (o: Outcome)
      requires Ranked(topo)
      modifies this
      decreases CursorRank(topo, currNode), 1, 1
      ensures currNode == old(currNode) && time == old(time) && stores == old(stores)
      ensures trace == old(trace) + ForwardAtRun(topo, old(currNode), r, childIndex).events
      ensures o == ForwardAtRun(topo, old(currNode), r, childIndex).outcome
    {
      if currNode.None? {
        return Failed(NoCurrentNode);
      }
      var thisNode := currNode.value;
      var kids := topo.children(thisNode);
      if !(0 <= childIndex < |kids|) {
        return Failed(ChildIndexOutOfRange(childIndex));
      }
      var child := kids[childIndex];
      currNode := Some(child);
      o := NodeProcess(child, r);
      currNode := Some(thisNode);
    }

    /** `forward(key, value, childName)`: the first child with that name, then stop. */
    method ForwardNamed(r: Record, childName: string) returns (o: Outcome)
      requires Ranked(topo)
      modifies this
      decreases CursorRank(topo, currNode), 1, 1
      ensures currNode == old(currNode) && time == old(time) && stores == old(stores)
      ensures trace == old(trace) + ForwardNamedRun(topo, old(currNode), r, childName).events
      ensures o == ForwardNamedRun(topo, old(currNode), r, childName).outcome
    {
      if currNode.None? {
        return Failed(NoCurrentNode);
      }
      var thisNode := currNode.value;
      var kids := topo.children(thisNode);
      o := Ok;
      var i := 0;
      while i < |kids|
        invariant 0 <= i <= |kids|
        invariant currNode == Some(thisNode) && trace == old(trace)
        invariant time == old(time) && stores == old(stores)
        invariant forall j :: 0 <= j < i ==> topo.name(kids[j]) != childName
      {
        if topo.name(kids[i]) == childName {
          assert FirstNamed(topo, kids, childName) == Some(i) by {
            var f := FirstNamed(topo, kids, childName);
            if f.None? || f.value < i {
              assert false;
            } else if i < f.value {
              assert false;
            }
          }
          var child := kids[i];
          currNode := Some(child);
          o := NodeProcess(child, r);
          currNode := Some(thisNode);
          break;
        }
        i := i + 1;
      }
    }

    /** `ProcessorNode.process(key, value)`: record the call, then play the node's script. */
    method NodeProcess(n: NodeId, r: Record) returns (o: Outcome)
      requires Ranked(topo) && currNode == Some(n)
      modifies this
      decreases topo.rank(n), 4, 0
      ensures currNode == Some(n) || currNode == None
      ensures currNode == StepsCursor(topo, n, Some(n), topo.onProcess(n, r), 0)
      ensures time == old(time) && stores == old(stores)
      ensures trace == old(trace) + NodeRun(topo, n, r).events
      ensures o == NodeRun(topo, n, r).outcome
    {
      trace := trace + [Visit(n, r)];
      o := RunSteps(n, topo.onProcess(n, r));
    }

    /** The calls back into the driver that node `n`'s processor makes, in order. */
    method RunSteps(n: NodeId, steps: seq<Step>) returns (o: Outcome)
      requires Ranked(topo) && StepsRanked(topo, n, steps)
      requires currNode == Some(n) || currNode == None
      modifies this
      decreases topo.rank(n), 3, 1
      ensures currNode == Some(n) || currNode == None
      ensures time == old(time) && stores == old(stores)
      ensures currNode == StepsCursor(topo, n, old(currNode), steps, 0)
      ensures trace == old(trace) + StepsFrom(topo, n, old(currNode), steps, 0).events
      ensures o == StepsFrom(topo, n, old(currNode), steps, 0).outcome
    {
      var i := 0;
      while i < |steps|
        invariant 0 <= i <= |steps|
        invariant currNode == Some(n) || currNode == None
        invariant StepsCursor(topo, n, currNode, steps, i) == StepsCursor(topo, n, old(currNode), steps, 0)
        invariant time == old(time) && stores == old(stores)
        invariant Then(Run(trace, Ok), StepsFrom(topo, n, currNode, steps, i))
                    == Then(Run(old(trace), Ok), StepsFrom(topo, n, old(currNode), steps, 0))
      {
        var s := steps[i];
        ThenStep(trace, StepRun(topo, n, currNode, s), StepsFrom(topo, n, After(currNode, s), steps, i + 1));
        var oc := CallStep(n, s);
        if oc.Failed? {
          return oc;
        }
        i := i + 1;
      }
      assert trace + [] == trace;
      o := Ok;
    }

    /** One call from node `n`'s processor back into the driver. */
    method CallStep(n: NodeId, s: Step) returns (o: Outcome)
      requires Ranked(topo) && StepRanked(topo, n, s)
      requires currNode == Some(n) || currNode == None
      modifies this
      decreases topo.rank(n), 3, 0
      ensures currNode == After(old(currNode), s)
      ensures time == old(time) && stores == old(stores)
      ensures trace == old(trace) + StepRun(topo, n, old(currNode), s).events
      ensures o == StepRun(topo, n, old(currNode), s).outcome
    {
      match s {
        case ForwardAll(rec) => o := Forward(rec);
        case ForwardAt(rec, k) => o := ForwardAt(rec, k);
        case ForwardTo(rec, name) => o := ForwardNamed(rec, name);
        case Send(topic, rec) => o := CollectorSend(ProducerRecord(topic, rec.key, rec.value));
        case Throw => o := Failed(ProcessorFailed(n));
      }
    }

    /**
     * `MockRecordCollector.send(record, ...)`: both overloads skip
     * serialisation and partitioning and re-inject the record's key and
     * value, unchanged, through `process` on the record's topic.
     */
    method CollectorSend(record: ProducerRecord) returns (o: Outcome)
      requires Ranked(topo)
      modifies this
      decreases CursorRank(topo, SourceOf(topo, record.topic)), 2, 1
      ensures currNode == None && time == old(time) && stores == old(stores)
      ensures trace == old(trace) + ProcessRun(topo, record.topic, Record(record.key, record.value)).events
      ensures o == ProcessRun(topo, record.topic, Record(record.key, record.value)).outcome
    {
      o := Process(record.topic, Record(record.key, record.value));
    }

    /** `setTime(timestamp)`: sets the context's logical time. */
    method SetTime(timestamp: int)
      modifies this
      ensures time == timestamp
      ensures currNode == old(currNode) && stores == old(stores) && trace == old(trace)
    {
      time := timestamp;
    }

    /**
     * `punctuate(timestamp)`: sets the time, then calls punctuate on every
     * node that carries a processor, in topology order, with the cursor on
     * that node during the call and null after it, also when it raises.
     */
    method Punctuate(timestamp: int) returns (o: Outcome)
      requires Ranked(topo)
      modifies this
      ensures time == timestamp && stores == old(stores)
      ensures currNode == if AnyProcessor(topo, |topo.processors|) then None else old(currNode)
      ensures trace == old(trace) + PunctuateFrom(topo, 0, timestamp).events
      ensures o == PunctuateFrom(topo, 0, timestamp).outcome
    {
      SetTime(timestamp);
      var nodes := topo.processors;
      var i := 0;
      while i < |nodes|
        invariant 0 <= i <= |nodes|
        invariant time == timestamp && stores == old(stores)
        invariant currNode == if AnyProcessor(topo, i) then None else old(currNode)
        invariant Then(Run(trace, Ok), PunctuateFrom(topo, i, timestamp))
                    == Then(Run(old(trace), Ok), PunctuateFrom(topo, 0, timestamp))
      {
        var n := nodes[i];
        ThenStep(trace, TickRun(topo, n, timestamp), PunctuateFrom(topo, i + 1, timestamp));
        var oc := PunctuateNode(n, timestamp);
        if oc.Failed? {
          return oc;
        }
        i := i + 1;
      }
      assert trace + [] == trace;
      o := Ok;
    }

    /** One iteration of the punctuate loop: skip `n` unless it carries a processor. */
    method PunctuateNode(n: NodeId, timestamp: int) returns (o: Outcome)
      requires Ranked(topo)
      modifies this
      ensures currNode == if topo.hasProcessor(n) then None else old(currNode)
      ensures time == old(time) && stores == old(stores)
      ensures trace == old(trace) + TickRun(topo, n, timestamp).events
      ensures o == TickRun(topo, n, timestamp).outcome
    {
      o := Ok;
      if topo.hasProcessor(n) {
        currNode := Some(n);
        o := NodePunctuate(n, timestamp);
        currNode := None;
      }
    }

    /** `Processor.punctuate(timestamp)` on node `n`: record the call, then play its script. */
    method NodePunctuate(n: NodeId, timestamp: int) returns (o: Outcome)
      requires Ranked(topo) && topo.hasProcessor(n) && currNode == Some(n)
      modifies this
      ensures currNode == Some(n) || currNode == None
      ensures currNode == TickStepsCursor(topo, n, Some(n), topo.onPunctuate(n, timestamp), 0)
      ensures time == old(time) && stores == old(stores)
      ensures trace == old(trace) + TickRun(topo, n, timestamp).events
      ensures o == TickRun(topo, n, timestamp).outcome
    {
      trace := trace + [Tick(n, timestamp)];
      o := RunTickSteps(n, topo.onPunctuate(n, timestamp));
    }

    /** The calls back into the driver that node `n`'s punctuate callback makes, in order. */
    method RunTickSteps(n: NodeId, steps: seq<Step>) returns (o: Outcome)
      requires Ranked(topo)
      requires currNode == Some(n) || currNode == None
      modifies this
      ensures currNode == Some(n) || currNode == None
      ensures time == old(time) && stores == old(stores)
      ensures currNode == TickStepsCursor(topo, n, old(currNode), steps, 0)
      ensures trace == old(trace) + TickStepsFrom(topo, n, old(currNode), steps, 0).events
      ensures o == TickStepsFrom(topo, n, old(currNode), steps, 0).outcome
    {
      var i := 0;
      while i < |steps|
        invariant 0 <= i <= |steps|
        invariant currNode == Some(n) || currNode == None
        invariant TickStepsCursor(topo, n, currNode, steps, i) == TickStepsCursor(topo, n, old(currNode), steps, 0)
        invariant time == old(time) && stores == old(stores)
        invariant Then(Run(trace, Ok), TickStepsFrom(topo, n, currNode, steps, i))
                    == Then(Run(old(trace), Ok), TickStepsFrom(topo, n, old(currNode), steps, 0))
      {
        var s := steps[i];
        ThenStep(trace, TickStepRun(topo, n, currNode, s), TickStepsFrom(topo, n, After(currNode, s), steps, i + 1));
        var oc := CallTickStep(n, s);
        if oc.Failed? {
          return oc;
        }
        i := i + 1;
      }
      assert trace + [] == trace;
      o := Ok;
    }

    /** One call from node `n`'s punctuate callback back into the driver. */
    method CallTickStep(n: NodeId, s: Step) returns (o: Outcome)
      requires Ranked(topo)
      requires currNode == Some(n) || currNode == None
      modifies this
      ensures currNode == After(old(currNode), s)
      ensures time == old(time) && stores == old(stores)
      ensures trace == old(trace) + TickStepRun(topo, n, old(currNode), s).events
      ensures o == TickStepRun(topo, n, old(currNode), s).outcome
    {
      if s.Send? {
        o := CollectorSend(ProducerRecord(s.topic, s.rec.key, s.rec.value));
      } else {
        o := CallStep(n, s);
      }
    }

    /** `getStateStore(name)`: the store registered under `name`, or None. */
    function GetStateStore(name: string): (s: Option<Store>)
      reads this
      ensures s.None? <==> name !in stores
      ensures s.Some? ==> s.value == stores[name]
    {
      if name in stores then Some(stores[name]) else None
    }

    /** `allStateStores()`: every registered store by name. */
    function AllStateStores(): (m: map<string, Store>)
      reads this
      ensures forall name :: name in m <==> GetStateStore(name).Some?
      ensures forall name <- m :: GetStateStore(name) == Some(m[name])
    {
      stores
    }
  }
}
