/**
 * A concrete topology run through the semantics: a source for topic "in"
 * feeding an exclaiming stage and a sink, the sink sending every record
 * to topic "loop", whose source feeds a logger. Like a Kafka sink node, the
 * sink has no processor of its own: it only sends, and punctuation skips it.
 * On punctuation the logger sends a heartbeat record back to "in", which
 * feeds the whole pipeline again: the same send from a process callback
 * would close a loop no node rank could order, yet from punctuate it ends,
 * because no cascade re-enters punctuate.
 *
 *   0 source("in") -> 1 exclaim -> 2 sink ~~send "loop"~~> 3 source("loop") -> 4 log
 *   4 log ~~punctuate: send "in"~~> 0 source("in")
 */
module Scenarios {
  import opened ProcessorTopology
  import opened Traversal

  /** The record the exclaiming stage forwards for `r`: its value with "!" appended. */
  function Shout(r: Record): Record
  {
    Record(r.key, r.value + "!")
  }

  /** The record the logger sends to "in" when punctuated at `ts`. */
  function Heartbeat(ts: int): Record
  {
    Record(ts, "tick")
  }

  function Pipeline(): Topology
  {
    Topology(
      [0, 1, 2, 3, 4],
      map["in" := 0, "loop" := 3],
      [Supplier("counts", true)],
      n => if n == 0 then "in-source" else if n == 1 then "exclaim" else if n == 2 then "sink"
           else if n == 3 then "loop-source" else "log",
      n => if n == 0 then [1] else if n == 1 then [2] else if n == 3 then [4] else [],
      n => n == 1 || n == 4,
      n => true,
      (n, r) => if n == 1 then [ForwardAll(Shout(r))] else if n == 2 then [Send("loop", r)] else [],
      (n, ts) => if n == 4 then [Send("in", Heartbeat(ts))] else [],
      n => if n <= 4 then 5 - n else 0)
  }

  /** Ranks fall along every edge and along the sink's send, so every cascade of the pipeline is finite. */
  lemma PipelineRanked()
    ensures Ranked(Pipeline())
  {
    var t := Pipeline();
    forall n: NodeId, j | 0 <= j < |t.children(n)|
      ensures t.rank(t.children(n)[j]) < t.rank(n)
    {
      assert n == 0 || n == 1 || n == 3;
    }
    forall n: NodeId, r: Record
      ensures StepsRanked(t, n, t.onProcess(n, r))
    {
      if n == 2 {
        assert t.rank(t.sources["loop"]) == 2;
      }
    }
  }

  /** The logger's heartbeat lands on a source ranked above the logger, which only a punctuate send may do. */
  lemma PipelineHeartbeatClimbs(ts: int)
    ensures Ranked(Pipeline())
    ensures !StepsRanked(Pipeline(), 4, Pipeline().onPunctuate(4, ts))
  {
    PipelineRanked();
    var t := Pipeline();
    assert !StepRanked(t, 4, t.onPunctuate(4, ts)[0]);
  }

  /** The pipeline with the logger's heartbeat sent from its process callback instead, ranked by `rk`. */
  function FedBack(rk: NodeId -> nat): Topology
  {
    Pipeline().(
      onProcess := (n, r) => if n == 1 then [ForwardAll(Shout(r))] else if n == 2 then [Send("loop", r)]
                             else if n == 4 then [Send("in", r)] else [],
      rank := rk)
  }

  /**
   * Sent from a process callback, the heartbeat closes the loop
   * in -> exclaim -> sink -> loop -> log -> in, which no node rank orders.
   */
  lemma NoRankOrdersFeedback(rk: NodeId -> nat)
    ensures !Ranked(FedBack(rk))
  {
    var t := FedBack(rk);
    var r := Record(0, "");
    assert t.children(0)[0] == 1 && t.children(1)[0] == 2 && t.children(3)[0] == 4;
    assert t.onProcess(2, r)[0] == Send("loop", r);
    assert t.onProcess(4, r)[0] == Send("in", r);
  }

  /** A record sent to "loop" reaches the logger and nothing else. */
  lemma PipelineLoopback(r: Record)
    ensures Ranked(Pipeline())
    ensures ProcessRun(Pipeline(), "loop", r) == Run([Visit(4, r)], Ok)
  {
    PipelineRanked();
    var t := Pipeline();
    assert ProcessRun(t, "loop", r) == ChildrenFrom(t, 3, 0, r);
    assert NodeRun(t, 4, r) == Run([Visit(4, r)], Ok);
    assert ChildrenFrom(t, 3, 1, r) == Done;
  }

  /**
   * Processing a record on "in" reaches the exclaiming stage, then the sink
   * with the exclaimed record, then, through the loopback collector, the logger.
   */
  lemma PipelineCascade(r: Record)
    ensures Ranked(Pipeline())
    ensures ProcessRun(Pipeline(), "in", r)
              == Run([Visit(1, r), Visit(2, Shout(r)), Visit(4, Shout(r))], Ok)
  {
    PipelineRanked();
    var t := Pipeline();
    var s := Shout(r);
    PipelineLoopback(s);
    assert StepsRanked(t, 2, t.onProcess(2, s));
    assert StepsFrom(t, 2, Some(2), [Send("loop", s)], 1) == Done;
    assert NodeRun(t, 2, s) == Run([Visit(2, s), Visit(4, s)], Ok);
    assert ChildrenFrom(t, 1, 1, s) == Done;
    assert StepsFrom(t, 1, Some(1), [ForwardAll(s)], 1) == Done;
    assert NodeRun(t, 1, r) == Run([Visit(1, r), Visit(2, s), Visit(4, s)], Ok);
    assert ChildrenFrom(t, 0, 1, r) == Done;
  }

  /** A record on a topic without a source raises before any processor runs. */
  lemma PipelineUnknownTopic(r: Record)
    ensures Ranked(Pipeline())
    ensures ProcessRun(Pipeline(), "out", r) == Run([], Failed(NoCurrentNode))
  {
    PipelineRanked();
  }

  /**
   * Punctuating the pipeline ticks the two nodes that carry a processor, in
   * topology order; the logger's tick sends its heartbeat around the whole
   * pipeline before punctuation completes.
   */
  lemma PipelinePunctuate(ts: int)
    ensures Ranked(Pipeline())
    ensures PunctuateFrom(Pipeline(), 0, ts)
              == Run([Tick(1, ts), Tick(4, ts), Visit(1, Heartbeat(ts)), Visit(2, Shout(Heartbeat(ts))),
                      Visit(4, Shout(Heartbeat(ts)))], Ok)
  {
    PipelineRanked();
    var t := Pipeline();
    var h := Heartbeat(ts);
    PipelineCascade(h);
    var steps := t.onPunctuate(4, ts);
    assert TickStepsFrom(t, 4, None, steps, 1) == Done;
    assert TickStepsFrom(t, 4, Some(4), steps, 0) == ProcessRun(t, "in", h);
    assert TickRun(t, 4, ts) == Run([Tick(4, ts), Visit(1, h), Visit(2, Shout(h)), Visit(4, Shout(h))], Ok);
    assert PunctuateFrom(t, 5, ts) == Done;
    assert TickRun(t, 3, ts) == Done;
    assert TickRun(t, 2, ts) == Done;
    assert TickRun(t, 1, ts) == Run([Tick(1, ts)], Ok);
    assert TickRun(t, 0, ts) == Done;
  }
}
