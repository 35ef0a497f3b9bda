/**
 * What the three forward variants, process and punctuate promise, stated
 * over the pure semantics of module Traversal.
 */
module TraversalProperties {
  import opened ProcessorTopology
  import opened Traversal

  /**
   * Reference definition of a fan-out: `process` on each node of `kids` in
   * turn, stopping at the first one that raises.
   */
  function FanOut(t: Topology, kids: seq<NodeId>, r: Record): (run: Run)
    requires Ranked(t)
  {
    if kids == [] then Done else Then(NodeRun(t, kids[0], r), FanOut(t, kids[1..], r))
  }

  /** The children's own runs laid end to end, ignoring failures. */
  function ChildEvents(t: Topology, kids: seq<NodeId>, r: Record): seq<Event>
    requires Ranked(t)
  {
    if kids == [] then [] else NodeRun(t, kids[0], r).events + ChildEvents(t, kids[1..], r)
  }

  /**
   * The fan-out stops at child `k`: all earlier children completed, child
   * `k` raised, and the run holds the runs of children 0 to `k` and nothing
   * after them.
   */
  ghost predicate FailsAt(t: Topology, kids: seq<NodeId>, r: Record, k: nat, run: Run)
    requires Ranked(t) && k < |kids|
  {
    && (forall i :: 0 <= i < k ==> NodeRun(t, kids[i], r).outcome.Ok?)
    && NodeRun(t, kids[k], r).outcome.Failed?
    && run == Run(ChildEvents(t, kids[..k + 1], r), NodeRun(t, kids[k], r).outcome)
  }

  /** The loop of the unqualified forward from position `i` is the fan-out over the remaining children. */
  lemma {:induction false} ChildrenFromIsFanOut(t: Topology, p: NodeId, i: nat, r: Record)
    requires Ranked(t) && i <= |t.children(p)|
    ensures ChildrenFrom(t, p, i, r) == FanOut(t, t.children(p)[i..], r)
    decreases |t.children(p)| - i
  {
    var kids := t.children(p);
    if i < |kids| {
      ChildrenFromIsFanOut(t, p, i + 1, r);
      assert kids[i..][1..] == kids[i + 1..];
    }
  }

  /**
   * Unqualified forward from node `p` is the fan-out over `p`'s child list,
   * in list order; with no cursor it raises before any child runs.
   */
  lemma ForwardIsFanOut(t: Topology, p: NodeId, r: Record)
    requires Ranked(t)
    ensures ForwardRun(t, Some(p), r) == FanOut(t, t.children(p), r)
    ensures ForwardRun(t, None, r) == Run([], Failed(NoCurrentNode))
  {
    ChildrenFromIsFanOut(t, p, 0, r);
    assert t.children(p)[0..] == t.children(p);
  }

  /**
   * A fan-out calls `process` on every child exactly once, in the order of
   * the list, and completes iff every child completes. An empty list is a
   * no-op.
   */
  lemma {:induction false} FanOutInOrder(t: Topology, kids: seq<NodeId>, r: Record)
    requires Ranked(t)
    ensures kids == [] ==> FanOut(t, kids, r) == Done
    ensures FanOut(t, kids, r).outcome.Ok? <==>
              forall i :: 0 <= i < |kids| ==> NodeRun(t, kids[i], r).outcome.Ok?
    ensures FanOut(t, kids, r).outcome.Ok? ==> FanOut(t, kids, r).events == ChildEvents(t, kids, r)
  {
    if kids != [] {
      var rest := kids[1..];
      FanOutInOrder(t, rest, r);
      assert forall i :: 1 <= i < |kids| ==> kids[i] == rest[i - 1];
    }
  }

  lemma ChildEventsCons(t: Topology, kids: seq<NodeId>, r: Record, m: nat)
    requires Ranked(t) && 0 < m <= |kids|
    ensures ChildEvents(t, kids[..m], r) == NodeRun(t, kids[0], r).events + ChildEvents(t, kids[1..][..m - 1], r)
  {
    assert kids[..m][1..] == kids[1..][..m - 1];
    assert kids[..m][0] == kids[0];
  }

  /**
   * An exception from a child stops the fan-out at that child: every
   * earlier child completed, no later child runs, and the exception
   * propagates.
   */
  lemma {:induction false} FanOutStopsAtFailure(t: Topology, kids: seq<NodeId>, r: Record)
    requires Ranked(t) && FanOut(t, kids, r).outcome.Failed?
    ensures exists k :: 0 <= k < |kids| && FailsAt(t, kids, r, k, FanOut(t, kids, r))
  {
    var rest := kids[1..];
    var head := NodeRun(t, kids[0], r);
    if head.outcome.Failed? {
      ChildEventsCons(t, kids, r, 1);
      assert head.events + [] == head.events;
      assert FailsAt(t, kids, r, 0, FanOut(t, kids, r));
    } else {
      FanOutStopsAtFailure(t, rest, r);
      var k :| 0 <= k < |rest| && FailsAt(t, rest, r, k, FanOut(t, rest, r));
      ChildEventsCons(t, kids, r, k + 2);
      assert forall i :: 1 <= i <= k + 1 ==> kids[i] == rest[i - 1];
      assert FailsAt(t, kids, r, k + 1, FanOut(t, kids, r));
    }
  }

  /**
   * Unqualified forward from `p`, as a whole: it completes iff every child
   * completes, and then it produced exactly the children's runs in child
   * order; otherwise it stopped at the first child that raised.
   */
  lemma ForwardVisitsChildrenInOrder(t: Topology, p: NodeId, r: Record)
    requires Ranked(t)
    ensures ForwardRun(t, Some(p), r).outcome.Ok? <==>
              forall i :: 0 <= i < |t.children(p)| ==> NodeRun(t, t.children(p)[i], r).outcome.Ok?
    ensures ForwardRun(t, Some(p), r).outcome.Ok? ==>
              ForwardRun(t, Some(p), r).events == ChildEvents(t, t.children(p), r)
    ensures ForwardRun(t, Some(p), r).outcome.Failed? ==>
              exists k :: 0 <= k < |t.children(p)| && FailsAt(t, t.children(p), r, k, ForwardRun(t, Some(p), r))
  {
    ForwardIsFanOut(t, p, r);
    FanOutInOrder(t, t.children(p), r);
    if ForwardRun(t, Some(p), r).outcome.Failed? {
      FanOutStopsAtFailure(t, t.children(p), r);
    }
  }

  /**
   * Indexed forward reaches exactly the child at `i` and no other: it is the
   * fan-out over the one-element list holding that child. A bad index raises
   * before any child runs.
   */
  lemma IndexedForwardOneChild(t: Topology, p: NodeId, r: Record, i: int)
    requires Ranked(t)
    ensures 0 <= i < |t.children(p)| ==>
              ForwardAtRun(t, Some(p), r, i) == FanOut(t, [t.children(p)[i]], r)
    ensures !(0 <= i < |t.children(p)|) ==>
              ForwardAtRun(t, Some(p), r, i) == Run([], Failed(ChildIndexOutOfRange(i)))
  {
    if 0 <= i < |t.children(p)| {
      var c := t.children(p)[i];
      assert FanOut(t, [c], r) == Then(NodeRun(t, c, r), Done);
      assert NodeRun(t, c, r).events + [] == NodeRun(t, c, r).events;
    }
  }

  /**
   * Named forward reaches at most one child: the first child carrying that
   * name, exactly as a fan-out over that child alone. When no child carries
   * the name nothing runs and the call completes.
   */
  lemma NamedForwardFirstMatch(t: Topology, p: NodeId, r: Record, name: string)
    requires Ranked(t)
    ensures (forall j :: 0 <= j < |t.children(p)| ==> t.name(t.children(p)[j]) != name) ==>
              ForwardNamedRun(t, Some(p), r, name) == Done
    ensures forall k :: 0 <= k < |t.children(p)| && t.name(t.children(p)[k]) == name &&
                        (forall j :: 0 <= j < k ==> t.name(t.children(p)[j]) != name) ==>
              ForwardNamedRun(t, Some(p), r, name) == FanOut(t, [t.children(p)[k]], r)
  {
    var kids := t.children(p);
    forall k | 0 <= k < |kids| && t.name(kids[k]) == name && (forall j :: 0 <= j < k ==> t.name(kids[j]) != name)
      ensures ForwardNamedRun(t, Some(p), r, name) == FanOut(t, [kids[k]], r)
    {
      var f := FirstNamed(t, kids, name);
      assert f == Some(k) by {
        assert f.Some?;
        if f.value < k {
          assert false;
        } else if k < f.value {
          assert false;
        }
      }
      var c := kids[k];
      assert FanOut(t, [c], r) == Then(NodeRun(t, c, r), Done);
      assert NodeRun(t, c, r).events + [] == NodeRun(t, c, r).events;
    }
  }

  /**
   * `process` on a topic with a source node is the unqualified forward from
   * that source; on a topic without one it raises before anything runs.
   */
  lemma ProcessFromSource(t: Topology, topic: string, r: Record)
    requires Ranked(t)
    ensures topic in t.sources ==> ProcessRun(t, topic, r) == FanOut(t, t.children(t.sources[topic]), r)
    ensures topic !in t.sources ==> ProcessRun(t, topic, r) == Run([], Failed(NoCurrentNode))
  {
    if topic in t.sources {
      ForwardIsFanOut(t, t.sources[topic], r);
    }
  }

  /**
   * Forwarding restores the cursor: a processor that forwards twice reaches
   * its children twice, both record cascades completing in order.
   */
  lemma ForwardTwiceFromNode(t: Topology, n: NodeId, r1: Record, r2: Record)
    requires Ranked(t)
    requires ForwardRun(t, Some(n), r1).outcome.Ok?
    ensures StepsFrom(t, n, Some(n), [ForwardAll(r1), ForwardAll(r2)], 0)
              == Run(ForwardRun(t, Some(n), r1).events + ForwardRun(t, Some(n), r2).events,
                     ForwardRun(t, Some(n), r2).outcome)
  {
    var steps := [ForwardAll(r1), ForwardAll(r2)];
    assert StepRanked(t, n, steps[0]) && StepRanked(t, n, steps[1]);
    assert After(Some(n), steps[0]) == Some(n);
    assert StepRun(t, n, Some(n), steps[1]) == ForwardRun(t, Some(n), r2);
    assert StepsFrom(t, n, Some(n), steps, 2) == Done;
    assert StepsFrom(t, n, Some(n), steps, 1) == Then(ForwardRun(t, Some(n), r2), Done);
    assert ForwardRun(t, Some(n), r2).events + [] == ForwardRun(t, Some(n), r2).events;
  }

  /**
   * The cursor quirk of the Java driver: a loopback send ends inside `process`,
   * which resets the cursor to null rather than to the sending node, so a
   * processor that sends and then forwards raises on the forward, after the
   * whole downstream cascade of the send has run.
   */
  lemma ForwardAfterSendFails(t: Topology, n: NodeId, topic: string, r1: Record, r2: Record)
    requires Ranked(t) && StepsRanked(t, n, [Send(topic, r1), ForwardAll(r2)])
    requires ProcessRun(t, topic, r1).outcome.Ok?
    ensures StepsFrom(t, n, Some(n), [Send(topic, r1), ForwardAll(r2)], 0)
              == Run(ProcessRun(t, topic, r1).events, Failed(NoCurrentNode))
  {
    var steps := [Send(topic, r1), ForwardAll(r2)];
    assert StepRanked(t, n, steps[0]) && StepRanked(t, n, steps[1]);
    assert StepRun(t, n, None, ForwardAll(r2)) == Run([], Failed(NoCurrentNode));
    assert StepsFrom(t, n, None, steps, 1) == Run([], Failed(NoCurrentNode));
  }

  /** The nodes whose punctuate callback an event sequence records, in order. */
  function Ticked(events: seq<Event>): seq<NodeId>
  {
    if events == [] then []
    else (if events[0].Tick? then [events[0].node] else []) + Ticked(events[1..])
  }

  /** Reference definition: the nodes of `ns` that carry a processor, in order. */
  function WithProcessor(t: Topology, ns: seq<NodeId>): seq<NodeId>
  {
    if ns == [] then []
    else (if t.hasProcessor(ns[0]) then [ns[0]] else []) + WithProcessor(t, ns[1..])
  }

  lemma {:induction false} TickedAppend(a: seq<Event>, b: seq<Event>)
    ensures Ticked(a + b) == Ticked(a) + Ticked(b)
  {
    if a != [] {
      assert (a + b)[0] == a[0];
      assert (a + b)[1..] == a[1..] + b;
      TickedAppend(a[1..], b);
    } else {
      assert a + b == b;
    }
  }

  lemma {:induction false} TickedOnlyVisits(a: seq<Event>)
    requires OnlyVisits(a)
    ensures Ticked(a) == []
  {
    if a != [] {
      assert a[0] in a;
      TickedOnlyVisits(a[1..]);
    }
  }

  /** One node's punctuate step ticks exactly that node when it carries a processor, else nothing. */
  lemma TickedTickRun(t: Topology, n: NodeId, ts: int)
    requires Ranked(t)
    ensures Ticked(TickRun(t, n, ts).events) == if t.hasProcessor(n) then [n] else []
    ensures forall e <- TickRun(t, n, ts).events :: e.Tick? ==> e == Tick(n, ts)
  {
    if t.hasProcessor(n) {
      var s := TickStepsFrom(t, n, Some(n), t.onPunctuate(n, ts), 0);
      TickedOnlyVisits(s.events);
      TickedAppend([Tick(n, ts)], s.events);
      assert Ticked([Tick(n, ts)]) == [n];
    }
  }

  /**
   * `punctuate(ts)` from position `i` calls the punctuate callback of
   * exactly the remaining nodes that carry a processor, in topology order,
   * each with `ts`, skipping the rest; if a callback raises, the nodes called
   * so far are a prefix of that list ending with the node that raised.
   */
  lemma {:induction false} PunctuateFromTicksInOrder(t: Topology, i: nat, ts: int)
    requires Ranked(t) && i <= |t.processors|
    ensures Ticked(PunctuateFrom(t, i, ts).events) <= WithProcessor(t, t.processors[i..])
    ensures PunctuateFrom(t, i, ts).outcome.Ok? ==>
              Ticked(PunctuateFrom(t, i, ts).events) == WithProcessor(t, t.processors[i..])
    ensures PunctuateFrom(t, i, ts).outcome.Failed? ==> exists k :: PunctuateFailsAt(t, i, k, ts)
    ensures forall e <- PunctuateFrom(t, i, ts).events :: e.Tick? ==> e.node in t.processors[i..] && e.time == ts
    decreases |t.processors| - i
  {
    var ns := t.processors[i..];
    PunctuateStopsAtFailure(t, i, ts);
    if i < |t.processors| {
      var n := t.processors[i];
      assert ns[0] == n && ns[1..] == t.processors[i + 1..];
      var head := TickRun(t, n, ts);
      var rest := PunctuateFrom(t, i + 1, ts);
      PunctuateFromTicksInOrder(t, i + 1, ts);
      TickedTickRun(t, n, ts);
      if head.outcome.Ok? {
        TickedAppend(head.events, rest.events);
      }
    }
  }

  /**
   * The punctuate pass from `i` failing at the node in position `k`: every
   * earlier node's step completed, `k`'s tick raised and its exception is
   * the pass's, and the callbacks called are those of the nodes with a
   * processor in positions `i` through `k`, ending with `k`'s own.
   */
  ghost predicate PunctuateFailsAt(t: Topology, i: nat, k: nat, ts: int)
    requires Ranked(t)
  {
    && i <= k < |t.processors|
    && t.hasProcessor(t.processors[k])
    && (forall m :: i <= m < k ==> TickRun(t, t.processors[m], ts).outcome.Ok?)
    && TickRun(t, t.processors[k], ts).outcome.Failed?
    && PunctuateFrom(t, i, ts).outcome == TickRun(t, t.processors[k], ts).outcome
    && Ticked(PunctuateFrom(t, i, ts).events) == WithProcessor(t, t.processors[i..k + 1])
  }

  /** A pass whose first tick raises fails at that node. */
  lemma PunctuateFailsHere(t: Topology, i: nat, ts: int)
    requires Ranked(t) && i < |t.processors|
    requires TickRun(t, t.processors[i], ts).outcome.Failed?
    ensures PunctuateFailsAt(t, i, i, ts)
  {
    var ps := t.processors;
    TickedTickRun(t, ps[i], ts);
    assert ps[i..i + 1][1..] == [];
  }

  /** A pass whose first tick completes fails where the rest of the pass fails. */
  lemma PunctuateFailsLater(t: Topology, i: nat, k: nat, ts: int)
    requires Ranked(t) && i < |t.processors|
    requires TickRun(t, t.processors[i], ts).outcome.Ok?
    requires PunctuateFailsAt(t, i + 1, k, ts)
    ensures PunctuateFailsAt(t, i, k, ts)
  {
    var ps := t.processors;
    TickedTickRun(t, ps[i], ts);
    TickedAppend(TickRun(t, ps[i], ts).events, PunctuateFrom(t, i + 1, ts).events);
    assert ps[i..k + 1][1..] == ps[i + 1..k + 1];
  }

  /** A failing punctuate pass stops at the first node whose tick raises, with that tick's exception. */
  lemma {:induction false} PunctuateStopsAtFailure(t: Topology, i: nat, ts: int)
    requires Ranked(t) && i <= |t.processors|
    ensures PunctuateFrom(t, i, ts).outcome.Failed? ==> exists k :: PunctuateFailsAt(t, i, k, ts)
    decreases |t.processors| - i
  {
    if i < |t.processors| && PunctuateFrom(t, i, ts).outcome.Failed? {
      if TickRun(t, t.processors[i], ts).outcome.Failed? {
        PunctuateFailsHere(t, i, ts);
      } else {
        PunctuateStopsAtFailure(t, i + 1, ts);
        var k: nat :| PunctuateFailsAt(t, i + 1, k, ts);
        PunctuateFailsLater(t, i, k, ts);
      }
    }
  }

  /**
   * `punctuate(ts)`: the punctuate callbacks called are those of the nodes
   * carrying a processor, in topology order (all of them when it completes,
   * a prefix when one raises, ending with the node that raised, whose
   * exception the pass propagates), each with `ts`; nothing else is
   * punctuated.
   */
  lemma PunctuateTicksInOrder(t: Topology, ts: int)
    requires Ranked(t)
    ensures Ticked(PunctuateFrom(t, 0, ts).events) <= WithProcessor(t, t.processors)
    ensures PunctuateFrom(t, 0, ts).outcome.Ok? ==>
              Ticked(PunctuateFrom(t, 0, ts).events) == WithProcessor(t, t.processors)
    ensures PunctuateFrom(t, 0, ts).outcome.Failed? ==> exists k :: PunctuateFailsAt(t, 0, k, ts)
    ensures forall e <- PunctuateFrom(t, 0, ts).events :: e.Tick? ==> e.node in t.processors && e.time == ts
  {
    PunctuateFromTicksInOrder(t, 0, ts);
    PunctuateStopsAtFailure(t, 0, ts);
    assert t.processors[0..] == t.processors;
  }
}
