/**
 * The processor topology the test driver runs: an immutable value built
 * elsewhere (by the stream builder) and only read by the driver.
 *
 * Node identities are natural numbers. The topology gives, for every node,
 * its name, its ordered child list, whether it carries a processor, and
 * whether its initialisation succeeds. What a node's processor does when
 * it receives a record, or when it is punctuated, is opaque user code; it
 * is abstracted here as a script of calls back into the driver (a `Step`
 * sequence), chosen by the topology as a function of the node and its input.
 */
module ProcessorTopology {

  datatype Option<T> = None | Some(value: T)

  type NodeId = nat

  /** A key/value pair as handed to `process` and `forward`. */
  datatype Record = Record(key: int, value: string)

  /** One call a processor makes back into the driver while it runs. */
  datatype Step =
    | ForwardAll(rec: Record)                  // context.forward(key, value)
    | ForwardAt(rec: Record, index: int)       // context.forward(key, value, childIndex)
    | ForwardTo(rec: Record, child: string)    // context.forward(key, value, childName)
    | Send(topic: string, rec: Record)         // recordCollector.send(new ProducerRecord(topic, key, value), ...)
    | Throw                                    // the processor raises an exception

  /** A state-store supplier: the name of the store it builds and whether its init succeeds. */
  datatype Supplier = Supplier(name: string, initOk: bool)

  datatype Topology = Topology(
    processors: seq<NodeId>,                     // every node, in topology order
    sources: map<string, NodeId>,                // source node bound to each topic
    suppliers: seq<Supplier>,                    // state-store suppliers, in order
    name: NodeId -> string,
    children: NodeId -> seq<NodeId>,
    hasProcessor: NodeId -> bool,
    initOk: NodeId -> bool,
    onProcess: (NodeId, Record) -> seq<Step>,
    onPunctuate: (NodeId, int) -> seq<Step>,
    rank: NodeId -> nat)                         // modelling device: see Ranked

  /** The source node bound to a topic, or None (the Java lookup returns null). */
  function SourceOf(t: Topology, topic: string): (src: Option<NodeId>)
    ensures src.Some? <==> topic in t.sources
    ensures src.Some? ==> src.value == t.sources[topic]
  {
    if topic in t.sources then Some(t.sources[topic]) else None
  }

  /** A loopback send issued by node `n` lands on a source of lower rank. */
  ghost predicate StepRanked(t: Topology, n: NodeId, s: Step)
  {
    s.Send? && s.topic in t.sources ==> t.rank(t.sources[s.topic]) < t.rank(n)
  }

  ghost predicate StepsRanked(t: Topology, n: NodeId, steps: seq<Step>)
  {
    forall j :: 0 <= j < |steps| ==> StepRanked(t, n, steps[j])
  }

  /**
   * The rank strictly decreases along every child edge and along every
   * loopback send a `process` callback can issue. This is what makes every
   * cascade finite. Sends from `punctuate` callbacks are unconstrained: no
   * cascade re-enters `punctuate`. The Java driver performs no cycle check:
   * there a cyclic topology recurses without bound. Being a per-node
   * measure, the rank also rules out loopbacks that re-enter their own
   * topic with a changed record, even those that stop after finitely many
   * rounds.
   */
  ghost predicate Ranked(t: Topology)
  {
    && (forall n: NodeId, j :: 0 <= j < |t.children(n)| ==> t.rank(t.children(n)[j]) < t.rank(n))
    && (forall n: NodeId, r: Record :: StepsRanked(t, n, t.onProcess(n, r)))
  }
}
