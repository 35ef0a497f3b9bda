/**
 * The meaning of one call into the driver, as a pure function of the
 * topology: which processor callbacks run, in which order, and whether the
 * call completes or raises. The driver's methods are proved to append
 * exactly these events to their trace and to return exactly this outcome.
 */
module Traversal {
  import opened ProcessorTopology

  /** The exceptions the driver can raise or propagate. */
  datatype Error =
    | NoCurrentNode                     // dereferencing a null cursor (NullPointerException)
    | ChildIndexOutOfRange(index: int)  // List.get with a bad index
    | ProcessorFailed(node: NodeId)     // a processor threw while processing or punctuating
    | NodeInitFailed(node: NodeId)
    | StoreInitFailed(store: string)

  datatype Outcome = Ok | Failed(error: Error)

  /** The observable invocations of opaque callbacks. */
  datatype Event =
    | Visit(node: NodeId, rec: Record)  // ProcessorNode.process(key, value)
    | Tick(node: NodeId, time: int)     // Processor.punctuate(timestamp)
    | NodeInit(node: NodeId)            // ProcessorNode.init(context)
    | StoreInit(store: string)          // StateStore.init(context, store)

  /** The events a call produces, and how it ends. */
  datatype Run = Run(events: seq<Event>, outcome: Outcome)

  /** Run `a`, then `b` unless `a` raised (an exception skips the rest). */
  function Then(a: Run, b: Run): Run
  {
    if a.outcome.Ok? then Run(a.events + b.events, b.outcome) else a
  }

  const Done := Run([], Ok)

  /** Having completed `done`, running `a` then `b` either carries on with `b` or stops at `a`. */
  lemma ThenStep(done: seq<Event>, a: Run, b: Run)
    ensures a.outcome.Ok? ==> Then(Run(done, Ok), Then(a, b)) == Then(Run(done + a.events, Ok), b)
    ensures a.outcome.Failed? ==> Then(Run(done, Ok), Then(a, b)) == Run(done + a.events, a.outcome)
  {
    assert (done + a.events) + b.events == done + (a.events + b.events);
  }

  /** Only ProcessorNode.process callbacks happen inside a record cascade. */
  ghost predicate OnlyVisits(events: seq<Event>)
  {
    forall e <- events :: e.Visit?
  }

  function CursorRank(t: Topology, cur: Option<NodeId>): nat
  {
    if cur.Some? then t.rank(cur.value) else 0
  }

  /** The cursor after a processor step: a loopback send ends in `process`, which nulls it. */
  function After(cur: Option<NodeId>, s: Step): Option<NodeId>
  {
    if s.Send? then None else cur
  }

  /** `process(topic, key, value)`: forward from the topic's source node. */
  function ProcessRun(t: Topology, topic: string, r: Record): (run: Run)
    requires Ranked(t)
    ensures OnlyVisits(run.events)
    decreases CursorRank(t, SourceOf(t, topic)), 2, 0
  {
    ForwardRun(t, SourceOf(t, topic), r)
  }

  /** `forward(key, value)` with cursor `cur`: every child, in order. */
  function ForwardRun(t: Topology, cur: Option<NodeId>, r: Record): (run: Run)
    requires Ranked(t)
    ensures OnlyVisits(run.events)
    decreases CursorRank(t, cur), 1, 1
  {
    match cur
    case None => Run([], Failed(NoCurrentNode))
    case Some(p) => ChildrenFrom(t, p, 0, r)
  }

  /** The loop of the unqualified `forward` over the children of `p` from position `i` on. */
  function ChildrenFrom(t: Topology, p: NodeId, i: nat, r: Record): (run: Run)
    requires Ranked(t)
    ensures OnlyVisits(run.events)
    decreases t.rank(p), 0, |t.children(p)| - i
  {
    if i >= |t.children(p)| then Done
    else Then(NodeRun(t, t.children(p)[i], r), ChildrenFrom(t, p, i + 1, r))
  }

  /** `forward(key, value, childIndex)` with cursor `cur`. */
  function ForwardAtRun(t: Topology, cur: Option<NodeId>, r: Record, i: int): (run: Run)
    requires Ranked(t)
    ensures OnlyVisits(run.events)
    decreases CursorRank(t, cur), 1, 1
  {
    match cur
    case None => Run([], Failed(NoCurrentNode))
    case Some(p) =>
      if 0 <= i < |t.children(p)| then NodeRun(t, t.children(p)[i], r)
      else Run([], Failed(ChildIndexOutOfRange(i)))
  }

  /** The position of the first node in `kids` called `name`, if any. */
  function FirstNamed(t: Topology, kids: seq<NodeId>, name: string): (k: Option<nat>)
    ensures k.None? <==> forall j :: 0 <= j < |kids| ==> t.name(kids[j]) != name
    ensures k.Some? ==> k.value < |kids| && t.name(kids[k.value]) == name
    ensures k.Some? ==> forall j :: 0 <= j < k.value ==> t.name(kids[j]) != name
  {
    if kids == [] then None
    else if t.name(kids[0]) == name then Some(0)
    else match FirstNamed(t, kids[1..], name)
      case None => None
      case Some(k) => Some(k + 1)
  }

  /** `forward(key, value, childName)` with cursor `cur`. */
  function ForwardNamedRun(t: Topology, cur: Option<NodeId>, r: Record, name: string): (run: Run)
    requires Ranked(t)
    ensures OnlyVisits(run.events)
    decreases CursorRank(t, cur), 1, 1
  {
    match cur
    case None => Run([], Failed(NoCurrentNode))
    case Some(p) =>
      match FirstNamed(t, t.children(p), name)
      case None => Done
      case Some(k) => NodeRun(t, t.children(p)[k], r)
  }

  /** `ProcessorNode.process(key, value)` on node `n`: the callback, then its script. */
  function NodeRun(t: Topology, n: NodeId, r: Record): (run: Run)
    requires Ranked(t)
    ensures OnlyVisits(run.events)
    ensures run.events != [] && run.events[0] == Visit(n, r)
    decreases t.rank(n), 4, 0
  {
    var s := StepsFrom(t, n, Some(n), t.onProcess(n, r), 0);
    Run([Visit(n, r)] + s.events, s.outcome)
  }

  /** A processor script run by node `n` from step `i` on, starting with cursor `cur`. */
  function StepsFrom(t: Topology, n: NodeId, cur: Option<NodeId>, steps: seq<Step>, i: nat): (run: Run)
    requires Ranked(t) && StepsRanked(t, n, steps)
    requires cur == Some(n) || cur == None
    ensures OnlyVisits(run.events)
    decreases t.rank(n), 3, |steps| - i + 1
  {
    if i >= |steps| then Done
    else Then(StepRun(t, n, cur, steps[i]), StepsFrom(t, n, After(cur, steps[i]), steps, i + 1))
  }

  /** One call from node `n`'s processor back into the driver. */
  function StepRun(t: Topology, n: NodeId, cur: Option<NodeId>, s: Step): (run: Run)
    requires Ranked(t) && StepRanked(t, n, s)
    requires cur == Some(n) || cur == None
    ensures OnlyVisits(run.events)
    decreases t.rank(n), 3, 0
  {
    match s
    case ForwardAll(rec) => ForwardRun(t, cur, rec)
    case ForwardAt(rec, i) => ForwardAtRun(t, cur, rec, i)
    case ForwardTo(rec, name) => ForwardNamedRun(t, cur, rec, name)
    case Send(topic, rec) => ProcessRun(t, topic, rec)
    case Throw => Run([], Failed(ProcessorFailed(n)))
  }

  /**
   * The cursor a process callback of node `n` leaves after playing `steps`
   * from `i` on: null once a step that ran was a send, since `process` nulls
   * it, and otherwise the cursor it started with.
   */
  function StepsCursor(t: Topology, n: NodeId, cur: Option<NodeId>, steps: seq<Step>, i: nat): (c: Option<NodeId>)
    requires Ranked(t) && StepsRanked(t, n, steps)
    requires cur == Some(n) || cur == None
    ensures c == cur || c == None
    ensures (forall j :: i <= j < |steps| ==> !steps[j].Send?) ==> c == cur
    decreases |steps| - i
  {
    if i >= |steps| then cur
    else if StepRun(t, n, cur, steps[i]).outcome.Failed? then After(cur, steps[i])
    else StepsCursor(t, n, After(cur, steps[i]), steps, i + 1)
  }

  /**
   * One call from node `n`'s punctuate callback back into the driver. No
   * cascade re-enters `punctuate`, so a send made here needs no rank below
   * `n`: the cascade it starts is finite on its own.
   */
  function TickStepRun(t: Topology, n: NodeId, cur: Option<NodeId>, s: Step): (run: Run)
    requires Ranked(t)
    requires cur == Some(n) || cur == None
    ensures OnlyVisits(run.events)
  {
    if s.Send? then ProcessRun(t, s.topic, s.rec) else StepRun(t, n, cur, s)
  }

  /** A punctuate script run by node `n` from step `i` on, starting with cursor `cur`. */
  function TickStepsFrom(t: Topology, n: NodeId, cur: Option<NodeId>, steps: seq<Step>, i: nat): (run: Run)
    requires Ranked(t)
    requires cur == Some(n) || cur == None
    ensures OnlyVisits(run.events)
    decreases |steps| - i
  {
    if i >= |steps| then Done
    else Then(TickStepRun(t, n, cur, steps[i]), TickStepsFrom(t, n, After(cur, steps[i]), steps, i + 1))
  }

  /** The cursor a punctuate callback of node `n` leaves after playing `steps` from `i` on. */
  function TickStepsCursor(t: Topology, n: NodeId, cur: Option<NodeId>, steps: seq<Step>, i: nat): (c: Option<NodeId>)
    requires Ranked(t)
    requires cur == Some(n) || cur == None
    ensures c == cur || c == None
    ensures (forall j :: i <= j < |steps| ==> !steps[j].Send?) ==> c == cur
    decreases |steps| - i
  {
    if i >= |steps| then cur
    else if TickStepRun(t, n, cur, steps[i]).outcome.Failed? then After(cur, steps[i])
    else TickStepsCursor(t, n, After(cur, steps[i]), steps, i + 1)
  }

  /**
   * `processor.punctuate(ts)` on node `n`, when it carries a processor: the
   * callback, then its script. It ticks `n` alone; the rest is cascades.
   */
  function TickRun(t: Topology, n: NodeId, ts: int): (run: Run)
    requires Ranked(t)
    ensures run.events != [] <==> t.hasProcessor(n)
    ensures t.hasProcessor(n) ==> run.events[0] == Tick(n, ts) && OnlyVisits(run.events[1..])
  {
    if !t.hasProcessor(n) then Done
    else
      var s := TickStepsFrom(t, n, Some(n), t.onPunctuate(n, ts), 0);
      assert ([Tick(n, ts)] + s.events)[1..] == s.events;
      Run([Tick(n, ts)] + s.events, s.outcome)
  }

  /** The loop of `punctuate(ts)` over the topology's nodes from position `i` on. */
  function PunctuateFrom(t: Topology, i: nat, ts: int): (run: Run)
    requires Ranked(t)
    ensures forall e <- run.events :: e.Visit? || e.Tick?
    decreases |t.processors| - i
  {
    if i >= |t.processors| then Done
    else Then(TickRun(t, t.processors[i], ts), PunctuateFrom(t, i + 1, ts))
  }
}
