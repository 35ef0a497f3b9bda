# KStreamTestDriver, modelled in Dafny

Kafka Streams' `KStreamTestDriver` is a test harness. It builds a processor
topology, initialises its state stores and nodes, and then drives records
through the topology in memory. The driver keeps one mutable cursor,
`currNode`, which names the node whose children a `forward` call reaches.
Every processor call saves and restores the cursor around itself. Records
that a processor sends to a topic come back into `process` through a
loopback record collector, so one `process` call can cascade through the
whole topology and through further topics.

The model has five modules:

- `ProcessorTopology` (`topology.dfy`): the immutable topology the driver
  reads. It holds the nodes in topology order, the source node of each topic,
  the state-store suppliers, and for every node its name, children, whether it
  carries a processor, and whether its `init` succeeds. The processors are user
  code, so each one is abstracted as a script of calls back into the driver
  (`Step`: forward to all children, forward by index, forward by name, send
  to a topic, or throw).
- `Traversal` (`traversal.dfy`): the pure meaning of each driver entry point.
  For every entry point a function gives the callbacks it invokes, in order
  (`Event`), and whether it completes or raises (`Outcome`).
- `TestDriver` (`driver.dfy`): the driver itself, as a class with the cursor,
  the context's time and the registered stores as fields. Every method is
  proved to append exactly its run to a ghost `trace` of callback
  invocations, to return exactly that run's outcome, and to leave the cursor
  as the Java code leaves it. This holds on every exception path as well.
  The runs of the entry points are `Traversal` functions; the runs of the
  constructor's init loops (`StoreInitFrom`, `NodeInitFrom`, `InitRun`) are
  defined next to the class, with lemmas saying where they stop.
- `TraversalProperties` (`properties.dfy`): what the entry points promise,
  proved over those runs. The unqualified forward is an in-order fan-out that
  stops at the first child that raises. Indexed forward reaches exactly one
  child, and named forward at most one. `punctuate` ticks exactly the nodes
  that carry a processor, in topology order.
- `Scenarios` (`scenarios.dfy`): a five-node topology with a loopback send
  and a punctuate callback that feeds the topology's input, evaluated end to
  end.

Java exceptions become `Outcome.Failed(error)`, and the `finally` blocks
become cursor assignments on every return path. These exceptions are
modelled:

- a null cursor or an unknown topic, which is a NullPointerException in the
  Java code;
- a bad child index;
- a processor that throws;
- a failing `init`.

One behaviour of the code is easy to misread. `forward` restores the cursor
to the forwarding node, but `process` does not restore its caller's cursor: it
sets the cursor to null (`KStreamTestDriver.java:86`). The model follows the
code. A processor that sends a record and then calls `forward` therefore
raises on that forward, after the whole downstream cascade of the send has run
(`ForwardAfterSendFails`). A processor that forwards twice reaches its
children twice (`ForwardTwiceFromNode`).

## Model

| member | source | states |
|---|---|---|
| `ProcessorTopology.SourceOf` | streams/src/test/java/org/apache/kafka/test/KStreamTestDriver.java:82 | a topic has a source node iff it is bound in the topology, and the node returned is the bound one |
| `Traversal.FirstNamed` | streams/src/test/java/org/apache/kafka/test/KStreamTestDriver.java:141-142 | no position is returned iff no child carries the name; a returned position holds a child with the name and no earlier child has it |
| `Traversal.NodeRun` | streams/src/test/java/org/apache/kafka/test/KStreamTestDriver.java:119 | a child's process callback is the first thing its run invokes, and a record cascade invokes only process callbacks |
| `Traversal.ProcessRun` | streams/src/test/java/org/apache/kafka/test/KStreamTestDriver.java:81-88 | `process` is the unqualified forward with the cursor on the topic's source node (null for an unbound topic); a cascade calls only process callbacks |
| `Traversal.ForwardRun` | streams/src/test/java/org/apache/kafka/test/KStreamTestDriver.java:114-124 | `forward` with a null cursor raises before any child runs; otherwise it is the child loop from the first child; only process callbacks run |
| `Traversal.ChildrenFrom` | streams/src/test/java/org/apache/kafka/test/KStreamTestDriver.java:116-123 | the child loop from position `i`: run child `i` with the record, and the rest of the loop only if that child completed |
| `Traversal.ForwardAtRun` | streams/src/test/java/org/apache/kafka/test/KStreamTestDriver.java:127-136 | indexed forward: a null cursor or an index outside the child list raises before any child runs; otherwise exactly the child at the index runs |
| `Traversal.ForwardNamedRun` | streams/src/test/java/org/apache/kafka/test/KStreamTestDriver.java:139-152 | named forward: a null cursor raises; otherwise the first child with the name runs, and nothing runs when no child has it |
| `Traversal.StepsFrom` | streams/src/test/java/org/apache/kafka/test/KStreamTestDriver.java:119 | a process callback's calls back into the driver, in order, each with the cursor the previous one left (null after a send); the first that raises ends the callback with its exception |
| `Traversal.StepRun` | streams/src/test/java/org/apache/kafka/test/KStreamTestDriver.java:114-152 | one call from a process callback: the three forwards with the current cursor, a send as `process` on its topic, or a throw naming the node |
| `Traversal.TickStepRun` | streams/src/test/java/org/apache/kafka/test/KStreamTestDriver.java:165-175 | one call from a punctuate callback: a send is `process` on its topic with no rank demanded, any other call as from a process callback |
| `Traversal.StepsCursor` | streams/src/test/java/org/apache/kafka/test/KStreamTestDriver.java:81-88 | the cursor a process callback leaves: the one it started with, unless a send it ran ended in `process`, which nulls it; a script without sends leaves it unchanged |
| `Traversal.TickStepsFrom` | streams/src/test/java/org/apache/kafka/test/KStreamTestDriver.java:97 | a punctuate callback's calls back into the driver, in order; the first that raises ends the callback; only process callbacks run inside it |
| `Traversal.TickStepsCursor` | streams/src/test/java/org/apache/kafka/test/KStreamTestDriver.java:81-88 | the same for a punctuate callback's script |
| `Traversal.TickRun` | streams/src/test/java/org/apache/kafka/test/KStreamTestDriver.java:94-100 | a node without a processor is skipped with nothing run; otherwise its punctuate callback is the first event and is followed only by process callbacks |
| `Traversal.PunctuateFrom` | streams/src/test/java/org/apache/kafka/test/KStreamTestDriver.java:93-102 | the punctuate loop from position `i`: node `i`'s tick step, then the rest only if it completed; only process and punctuate callbacks run |
| `TestDriver.InitEventsInOrder` | streams/src/test/java/org/apache/kafka/test/KStreamTestDriver.java:62-74 | construction inits every store in supplier order, then every node in topology order, one event each |
| `TestDriver.StoreInitFrom` | streams/src/test/java/org/apache/kafka/test/KStreamTestDriver.java:62-65 | the supplier loop from position `i`: init the supplier's store, raising its exception if it fails, then the rest; only store inits happen |
| `TestDriver.NodeInitFrom` | streams/src/test/java/org/apache/kafka/test/KStreamTestDriver.java:67-74 | the node loop from position `j`: init the node, raising its exception if it fails, then the rest; only node inits happen |
| `TestDriver.InitRun` | streams/src/test/java/org/apache/kafka/test/KStreamTestDriver.java:62-74 | construction is the supplier loop, then the node loop only if every store inited; only init callbacks happen |
| `TestDriver.KStreamTestDriver.constructor` | streams/src/test/java/org/apache/kafka/test/KStreamTestDriver.java:57-60 | a fresh driver has time 0, no stores, a null cursor and no callbacks run |
| `TestDriver.KStreamTestDriver.Create` | streams/src/test/java/org/apache/kafka/test/KStreamTestDriver.java:53-75 | construction produces exactly the callbacks and the outcome of `InitRun`: it completes iff every store init and every node init succeeds, then having run all the init events, and otherwise a prefix of them; the cursor ends null; every supplier's store is registered under its name |
| `TestDriver.KStreamTestDriver.InitStores` | streams/src/test/java/org/apache/kafka/test/KStreamTestDriver.java:62-65 | runs exactly the supplier loop `StoreInitFrom`, registering each store whose init succeeds; on success it has registered exactly the suppliers' store names |
| `TestDriver.KStreamTestDriver.InitNodes` | streams/src/test/java/org/apache/kafka/test/KStreamTestDriver.java:67-74 | runs exactly the node loop `NodeInitFrom` and returns its outcome; the cursor ends null |
| `TestDriver.StoreInitFromMeaning` | streams/src/test/java/org/apache/kafka/test/KStreamTestDriver.java:62-65 | the supplier loop completes iff every remaining store inits, and then runs every store init in supplier order; otherwise it stops right after the first store that raises, with that supplier's error, having run the store inits up to it and none after |
| `TestDriver.NodeInitFromMeaning` | streams/src/test/java/org/apache/kafka/test/KStreamTestDriver.java:67-74 | the node loop completes iff every remaining node inits, and then runs every node init in topology order; otherwise it stops right after the first node that raises, with that node's error, having run the node inits up to it and none after |
| `TestDriver.InitRunShape` | streams/src/test/java/org/apache/kafka/test/KStreamTestDriver.java:62-74 | a store that raises ends construction right after its init, before any node is inited; once every store has inited, construction is the node loop after all the store inits |
| `TestDriver.InitRunMeaning` | streams/src/test/java/org/apache/kafka/test/KStreamTestDriver.java:62-74 | construction completes iff every store init and every node init succeeds, and then has run every init event in order; in any case it has run a prefix of the init events |
| `TestDriver.KStreamTestDriver.InitNode` | streams/src/test/java/org/apache/kafka/test/KStreamTestDriver.java:68-73 | one node init with the cursor null afterwards, whether or not it raises; it raises iff the node's `init` does, with that node's error |
| `TestDriver.KStreamTestDriver.Process` | streams/src/test/java/org/apache/kafka/test/KStreamTestDriver.java:81-88 | runs exactly the forward from the topic's source; the cursor ends null; time and stores are unchanged |
| `TestDriver.KStreamTestDriver.Forward` | streams/src/test/java/org/apache/kafka/test/KStreamTestDriver.java:114-124 | runs exactly the in-order fan-out over the current node's children; the cursor is unchanged afterwards, also when a child raises; a null cursor raises |
| `TestDriver.KStreamTestDriver.CallChild` | streams/src/test/java/org/apache/kafka/test/KStreamTestDriver.java:117-122 | one child's run with the cursor back on the parent afterwards, also when the child raises |
| `TestDriver.KStreamTestDriver.ForwardAt` | streams/src/test/java/org/apache/kafka/test/KStreamTestDriver.java:127-136 | runs exactly the child at the index, restoring the cursor; a bad index or a null cursor raises before any child runs |
| `TestDriver.KStreamTestDriver.ForwardNamed` | streams/src/test/java/org/apache/kafka/test/KStreamTestDriver.java:139-152 | runs exactly the first child with the name, or nothing when there is none, restoring the cursor |
| `TestDriver.KStreamTestDriver.NodeProcess` | streams/src/test/java/org/apache/kafka/test/KStreamTestDriver.java:119 | the child's process callback, recorded and then played as the node's script; the cursor it leaves is exactly `StepsCursor` of that script |
| `TestDriver.KStreamTestDriver.RunSteps` | streams/src/test/java/org/apache/kafka/test/KStreamTestDriver.java:119 | plays a process callback's script: appends exactly `StepsFrom`'s events and returns its outcome, leaving exactly the cursor `StepsCursor` gives |
| `TestDriver.KStreamTestDriver.CallStep` | streams/src/test/java/org/apache/kafka/test/KStreamTestDriver.java:114-152 | one call from a process callback: appends exactly `StepRun`'s events, returns its outcome, and leaves the cursor null after a send and unchanged otherwise |
| `TestDriver.KStreamTestDriver.CollectorSend` | streams/src/test/java/org/apache/kafka/test/KStreamTestDriver.java:165-175 | a sent record re-enters `process` on its topic with its key and value unchanged; the cursor ends null |
| `TestDriver.KStreamTestDriver.SetTime` | streams/src/test/java/org/apache/kafka/test/KStreamTestDriver.java:105-107 | sets the logical time and changes nothing else |
| `TestDriver.KStreamTestDriver.Punctuate` | streams/src/test/java/org/apache/kafka/test/KStreamTestDriver.java:90-103 | sets the time first, then runs the punctuate pass over all nodes; the cursor ends null if some node carries a processor and is otherwise untouched |
| `TestDriver.KStreamTestDriver.PunctuateNode` | streams/src/test/java/org/apache/kafka/test/KStreamTestDriver.java:94-101 | a node without a processor is skipped; otherwise its tick runs with the cursor on it and null afterwards, also when it raises |
| `TestDriver.KStreamTestDriver.NodePunctuate` | streams/src/test/java/org/apache/kafka/test/KStreamTestDriver.java:97 | the processor's punctuate callback, recorded and then played as the node's script; the cursor it leaves is exactly `TickStepsCursor` of that script |
| `TestDriver.KStreamTestDriver.RunTickSteps` | streams/src/test/java/org/apache/kafka/test/KStreamTestDriver.java:97 | plays a punctuate callback's script: appends exactly `TickStepsFrom`'s events and returns its outcome, leaving exactly the cursor `TickStepsCursor` gives |
| `TestDriver.KStreamTestDriver.CallTickStep` | streams/src/test/java/org/apache/kafka/test/KStreamTestDriver.java:165-175 | one call from a punctuate callback: a send goes through the loopback collector, anything else as from a process callback; appends exactly `TickStepRun`'s events |
| `TestDriver.KStreamTestDriver.GetStateStore` | streams/src/test/java/org/apache/kafka/test/KStreamTestDriver.java:109-111 | no store is returned iff none is registered under the name; otherwise the registered one is returned |
| `TestDriver.KStreamTestDriver.AllStateStores` | streams/src/test/java/org/apache/kafka/test/KStreamTestDriver.java:154-156 | the map holds exactly the stores `GetStateStore` finds, under their names |
| `TraversalProperties.ChildrenFromIsFanOut` | streams/src/test/java/org/apache/kafka/test/KStreamTestDriver.java:116-123 | the forward loop from any position equals the reference fan-out over the remaining children |
| `TraversalProperties.ForwardIsFanOut` | streams/src/test/java/org/apache/kafka/test/KStreamTestDriver.java:114-124 | forward from a node is the reference fan-out over its child list; with a null cursor it raises before any child runs |
| `TraversalProperties.FanOutInOrder` | streams/src/test/java/org/apache/kafka/test/KStreamTestDriver.java:116-123 | a fan-out completes iff every child completes, and then it holds exactly the children's runs in list order; an empty list is a no-op |
| `TraversalProperties.FanOutStopsAtFailure` | streams/src/test/java/org/apache/kafka/test/KStreamTestDriver.java:116-123 | a failing fan-out stops at some child k: every earlier child completed, child k raised and its error propagates, and no later child ran |
| `TraversalProperties.ForwardVisitsChildrenInOrder` | streams/src/test/java/org/apache/kafka/test/KStreamTestDriver.java:114-124 | forward completes iff every child completes, producing their runs in child order; otherwise it stops at the first child that raised |
| `TraversalProperties.IndexedForwardOneChild` | streams/src/test/java/org/apache/kafka/test/KStreamTestDriver.java:127-136 | indexed forward is the fan-out over the single child at that index; an out-of-range index raises with nothing run |
| `TraversalProperties.NamedForwardFirstMatch` | streams/src/test/java/org/apache/kafka/test/KStreamTestDriver.java:139-152 | named forward is the fan-out over the first child with the name alone, and a no-op when no child has it |
| `TraversalProperties.ProcessFromSource` | streams/src/test/java/org/apache/kafka/test/KStreamTestDriver.java:81-88 | process is the fan-out over the topic source's children; a topic without a source raises with nothing run |
| `TraversalProperties.ForwardTwiceFromNode` | streams/src/test/java/org/apache/kafka/test/KStreamTestDriver.java:120-122 | after a forward the cursor is back on the forwarding node, so a second forward reaches the same children |
| `TraversalProperties.ForwardAfterSendFails` | streams/src/test/java/org/apache/kafka/test/KStreamTestDriver.java:81-88 | after a loopback send the cursor is null, so a following forward raises once the send's cascade has run |
| `TraversalProperties.TickedTickRun` | streams/src/test/java/org/apache/kafka/test/KStreamTestDriver.java:94-100 | one node's punctuate step ticks that node, with the given time, iff it carries a processor, and ticks nothing else |
| `TraversalProperties.PunctuateFromTicksInOrder` | streams/src/test/java/org/apache/kafka/test/KStreamTestDriver.java:93-102 | the punctuate loop from any position ticks the remaining nodes with a processor in order, each with the given time; if a tick raises, it stops at the first node whose tick raised, as `PunctuateFailsAt` states |
| `TraversalProperties.PunctuateStopsAtFailure` | streams/src/test/java/org/apache/kafka/test/KStreamTestDriver.java:93-102 | a failing punctuate loop stops at some node k that carries a processor: every earlier step completed, k's tick raised and its exception is the loop's, and the nodes ticked are exactly those with a processor up to and including k |
| `TraversalProperties.PunctuateTicksInOrder` | streams/src/test/java/org/apache/kafka/test/KStreamTestDriver.java:90-103 | punctuate ticks exactly the nodes with a processor, in topology order, each with the given time, and no other node; when a tick raises, the pass ends at that node with its exception, having ticked exactly the nodes with a processor up to it |
| `Scenarios.PipelineHeartbeatClimbs` | streams/src/test/java/org/apache/kafka/test/KStreamTestDriver.java:90-103 | the sample topology, which satisfies `Ranked`, has a punctuate callback sending to a source ranked above its node |
| `Scenarios.NoRankOrdersFeedback` | streams/src/test/java/org/apache/kafka/test/KStreamTestDriver.java:81-88 | sent from the logger's process callback instead, the heartbeat closes a loop through the sample topology that no rank function orders: that topology is not `Ranked` for any rank |
| `Scenarios.PipelineLoopback` | streams/src/test/java/org/apache/kafka/test/KStreamTestDriver.java:165-175 | in the sample topology, a record sent to "loop" reaches only the logger node |
| `Scenarios.PipelineCascade` | streams/src/test/java/org/apache/kafka/test/KStreamTestDriver.java:81-88 | in the sample topology, a record on "in" runs the exclaiming stage, then the sink with the transformed record, then through the loopback the logger, and completes |
| `Scenarios.PipelineUnknownTopic` | streams/src/test/java/org/apache/kafka/test/KStreamTestDriver.java:82-84 | a topic without a source raises before any processor runs |
| `Scenarios.PipelinePunctuate` | streams/src/test/java/org/apache/kafka/test/KStreamTestDriver.java:90-103 | punctuating the sample topology ticks its two processor nodes in order, skipping the sources and the sink; the logger's heartbeat then runs the whole pipeline, and the pass completes |

## Left out

- The builder, the `"X"` application id and the serdes (`KStreamTestDriver.java:45-58`) are not modelled. The topology is given as a value, because building it is `KStreamBuilder`'s job, and KStreamBuilder is not part of this model.
- `stateDir` and the `context()` getter (`KStreamTestDriver.java:41`, `77-79`) are not modelled. They hand out objects without changing any driver state.
- MockProcessorContext is not part of this model. The model keeps only its logical time and its map of registered stores. A store is taken as registered under its own name exactly when its `init` succeeds. A failing store init aborts construction, so registration on that path cannot be observed.
- What processors compute and what state they keep is user code. It is abstracted as the topology's `onProcess` and `onPunctuate` scripts, a function of the node and its input. Processor-internal state across calls is not modelled.
- Keys and values are an `int` key and a `string` value, standing in for arbitrary Java objects. A ProducerRecord is reduced to its topic, key and value, the only parts the loopback collector reads.
- `TestDriver.KStreamTestDriver.CollectorSend` models both `send` overloads. They differ only in the partitioner, and the collector ignores the partitioner along with the serializers.
- `flush` and `close` of the collector (`KStreamTestDriver.java:177-183`) are no-ops and are not modelled.
- The node `rank` is a modelling device. Every child edge and every loopback send from a process callback must lead to a lower rank (`Ranked`), so every cascade is finite. Sends from punctuate callbacks are not constrained, because no cascade re-enters `punctuate`. The Java code performs no cycle check: a cyclic topology, or a processor whose sends keep feeding its own topic, recurses until the stack overflows, and that is not modelled.
- `Ranked` still excludes some topologies whose loops do terminate in the Java driver. The rank belongs to a node, not to a record, so a loopback that re-enters its own topic with a changed record and stops after finitely many rounds (a counter in the key, say) is outside every precondition that requires `Ranked`.
- No processor callback reads the context: a script is a function of the node and its record (or timestamp) alone. So the logical time is written and never read, and the order in which `punctuate` sets the time before ticking (`KStreamTestDriver.java:91`) cannot be observed in the model.
- A node's `init` makes no calls back into the driver; it only succeeds or raises. So setting the cursor to the node during `init` (`KStreamTestDriver.java:68`) has no modelled effect beyond the cursor being null afterwards.
- A processor script cannot catch an exception raised by its own `forward` or `send` and carry on: `StepsFrom` ends the script at the first step that raises, as a Java processor does when it lets the exception propagate. A processor that catches it is not modelled.
- `TestDriver.KStreamTestDriver.Create` stands for the Java constructor's init loops. A Dafny constructor cannot report failure, so allocation (`constructor`) and the init loops (`Create`) are separate. A failed construction still returns an object, marked `Failed`, which the caller must not use.
- Exceptions are reduced to the five kinds in `Traversal.Error`. Their Java classes and messages are not modelled.
- A topic without a source node fails as a null cursor (`NoCurrentNode`), because `forward` dereferences the null that the topology lookup returns. No distinct lookup error is modelled.
- The timestamp is an unbounded `int`. The driver does no arithmetic on it, so Java's 64-bit `long` width does not matter.
- The ghost `trace` records only callback invocations (process, punctuate, node init and store init), not what the callbacks do inside.
