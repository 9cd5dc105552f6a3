# Bus topology lifecycle and the layer-5 brain of the hello-layers demo

This project models two pieces of the ACE layered cognitive-architecture demo.

The first piece is the `Busses` resource. It owns the broker topology for the whole layer stack. After the broker connection is up, `post_connect` runs two passes:

- it declares one durable system-integrity queue for each configured layer;
- then it sets up one exchange for each layer queue name.

Before the connection goes down, `pre_disconnect` runs the passes the other way round. It tears the exchanges down first, then deletes the integrity queues.

The second piece is the layer brain of `Layer5` ("Cognitive Control"). It takes the five message batches (control, data, request, response, telemetry) and returns a pair (northbound, southbound). The pair is always one "data" greeting and one "control" greeting, whatever the input. A message's class is the enumerated type `MessageType`, so every returned message carries one of the five classes by construction; `TypeName` gives the tag string that goes into its "type" field.

Files:

- `broker.dfy` (module `BrokerModel`): the broker as an abstract state. The state is a set of exchange names plus a map from queue name to durability. The four broker operations the resource issues are a `Broker` class. Two of them, `setup_exchange` and `teardown_exchange`, are module functions of `ace.amqp.exchange` that take the publisher channel as an argument (busses.py:2, 39-43, 53-57). The other two, `declare_queue` and `queue_delete`, are methods of the consumer channel (busses.py:63, 68). Each call is one atomic update, and a ghost event trace records every call in order. `Replay` gives the meaning of a trace: the state reached by issuing its calls in order.
- `busses.dfy` (module `Busses`): the `Busses` class. Its methods loop over the name lists with loop invariants. Each method states its new broker state and the calls it appended to the trace. The module also holds lemmas about those call sequences: ordering, phase-by-phase mirroring, a closed form for replaying each pass, the connect/disconnect round trip, idempotence and the queue count.
- `layer5.dfy` (module `Layer5`): the message taxonomy, the layer settings and status, and `ProcessLayerMessages`.

Three inputs come from framework code that is not part of this model, so they are parameters of the `Busses` constructor:

- the configured layer stack (`settings.layers`). `BussesSettings` is built with only a name and a label (busses.py:13-17), so `layers` is the default of the framework `Settings` class it extends (busses.py:1, 6);
- the integrity-queue name builder (`build_system_integrity_queue_name`), from the `Resource` base class, as a function from layer name to queue name;
- the list of layer queue names (`build_all_layer_queue_names`), also from the `Resource` base class.

All three are constants. So the teardown passes enumerate exactly the names the setup passes enumerated. Injectivity of the name builder is assumed only where it is needed: for the queue count.

Where the design description and the code disagree, this model follows the code:

- The design asks each pass to continue past a failed call and report the errors at the end. The code has no error handling, and the model has no failing calls (see Left out).
- The design describes `status` as "true once connected". The code always passes `True` to the base-class `return_status`, whatever the connection state. The model reports healthy unconditionally; the `return_status` wrapping is not modelled (see Left out).
- The design reads the teardown as the mirror image of the setup. The code mirrors the order of the two phases only. Within each phase, teardown walks the list in the same order as setup, not in reverse. `PreDisconnectMirrorsPostConnect` states exactly this.

## Model

| member | source | states |
|---|---|---|
| `BrokerModel.Broker.SetupExchange` | demos/hello-layers/src/ace/framework/resources/busses.py:39-43 | setting up an exchange adds that one name to the exchanges; queues are unchanged; the new state is `Apply` of one `ExchangeDeclared` event, which is appended to the trace |
| `BrokerModel.Broker.TeardownExchange` | demos/hello-layers/src/ace/framework/resources/busses.py:53-57 | tearing down removes that one name (absence is not an error); queues are unchanged; the new state is `Apply` of one `ExchangeDeleted` event, which is appended to the trace |
| `BrokerModel.Broker.DeclareQueue` | demos/hello-layers/src/ace/framework/resources/busses.py:63 | declaring a queue makes it exist with the requested durability; exchanges are unchanged; the new state is `Apply` of one `QueueDeclared` event, which is appended to the trace |
| `BrokerModel.Broker.QueueDelete` | demos/hello-layers/src/ace/framework/resources/busses.py:68 | deleting a queue makes it absent; exchanges are unchanged; the new state is `Apply` of one `QueueDeleted` event, which is appended to the trace |
| `BrokerModel.ReplayAppend` | demos/hello-layers/src/ace/framework/resources/busses.py:24-30 | issuing two call sequences one after the other reaches the same state as issuing their concatenation, so each lifecycle hook is the composition of its two passes |
| `Busses.Busses.Settings` | demos/hello-layers/src/ace/framework/resources/busses.py:12-17 | the resource is named "busses" with label "Busses", and its layer list is the configured stack that the integrity passes iterate over |
| `Busses.Busses.Status` | demos/hello-layers/src/ace/framework/resources/busses.py:19-22 | the health probe reports healthy whatever the broker holds |
| `Busses.Busses.IntegrityQueueNames` | demos/hello-layers/src/ace/framework/resources/busses.py:61-62 | one integrity-queue name per configured layer, in layer order, each built from its layer |
| `Busses.Busses.PostConnect` | demos/hello-layers/src/ace/framework/resources/busses.py:24-26 | afterwards every integrity queue exists and is durable, every layer queue name has an exchange, and nothing else changes; the calls appended are all the queue declarations followed by all the exchange set-ups; the new state is the replay of exactly those calls |
| `Busses.Busses.PreDisconnect` | demos/hello-layers/src/ace/framework/resources/busses.py:28-30 | afterwards no layer queue name has an exchange and no integrity queue exists, and nothing else changes; the calls appended are all the exchange teardowns followed by all the queue deletions; the new state is their replay |
| `Busses.Busses.CreateExchanges` | demos/hello-layers/src/ace/framework/resources/busses.py:32-36 | every listed name has an exchange; a name outside the list has one exactly when it had one before; queues are unchanged; the trace gains one set-up per name, in list order |
| `Busses.Busses.CreateExchange` | demos/hello-layers/src/ace/framework/resources/busses.py:38-44 | sets up the exchange for one queue name and touches nothing else |
| `Busses.Busses.DestroyExchanges` | demos/hello-layers/src/ace/framework/resources/busses.py:46-50 | no listed name has an exchange; a name outside the list has one exactly when it had one before; queues are unchanged; the trace gains one teardown per name, in list order |
| `Busses.Busses.DestroyExchange` | demos/hello-layers/src/ace/framework/resources/busses.py:52-58 | tears down the exchange for one queue name and touches nothing else |
| `Busses.Busses.CreateSystemIntegrityQueues` | demos/hello-layers/src/ace/framework/resources/busses.py:60-63 | for every configured layer, the queue named by the builder for that layer exists and is durable; every other queue keeps its presence and durability; exchanges are unchanged; the trace gains one durable declaration per layer, in layer order |
| `Busses.Busses.DestroySystemIntegrityQueues` | demos/hello-layers/src/ace/framework/resources/busses.py:65-68 | no configured layer's integrity queue exists; every other queue is unchanged; exchanges are unchanged; the trace gains one deletion per layer, in layer order |
| `Busses.ReplayCreateExchanges` | demos/hello-layers/src/ace/framework/resources/busses.py:32-36 | replaying the exchange set-up calls from any state adds exactly the listed names to the exchanges and changes nothing else |
| `Busses.ReplayDestroyExchanges` | demos/hello-layers/src/ace/framework/resources/busses.py:46-50 | replaying the teardown calls from any state removes exactly the listed names and changes nothing else |
| `Busses.ReplayCreateIntegrityQueues` | demos/hello-layers/src/ace/framework/resources/busses.py:60-63 | replaying the durable declarations makes exactly the listed queues exist and be durable; other queues are unchanged |
| `Busses.ReplayDestroyIntegrityQueues` | demos/hello-layers/src/ace/framework/resources/busses.py:65-68 | replaying the deletions removes exactly the listed queues; other queues are unchanged |
| `Busses.ReplayPostConnect` | demos/hello-layers/src/ace/framework/resources/busses.py:24-26 | closed form of the `post_connect` calls from any state: the exchanges gain the listed names, the queues gain the integrity queues as durable, and nothing else changes |
| `Busses.ReplayPreDisconnect` | demos/hello-layers/src/ace/framework/resources/busses.py:28-30 | closed form of the `pre_disconnect` calls from any state: the listed exchanges and the integrity queues are removed, and nothing else changes |
| `Busses.PostConnectQueuesBeforeExchanges` | demos/hello-layers/src/ace/framework/resources/busses.py:24-26 | in `post_connect` the first calls are the durable integrity-queue declarations in layer order, the remaining calls are the exchange set-ups in list order, and every queue call comes before every exchange call |
| `Busses.PreDisconnectMirrorsPostConnect` | demos/hello-layers/src/ace/framework/resources/busses.py:24-30 | `pre_disconnect` issues as many calls as `post_connect`; it first tears down each exchange that `post_connect` set up last, then deletes each queue that `post_connect` declared first; every exchange call comes before every queue call |
| `Busses.LifecycleRoundTrip` | demos/hello-layers/src/ace/framework/resources/busses.py:24-30 | starting from a broker that holds none of the enumerated exchanges or integrity queues, connecting and then disconnecting restores the broker state exactly |
| `Busses.ConnectThenDisconnect` | demos/hello-layers/src/ace/framework/resources/busses.py:24-30 | on the objects: with a broker that holds none of the enumerated exchanges or integrity queues, calling `post_connect` and then `pre_disconnect` leaves its exchanges and queues exactly as they were, and the trace gains the connect calls followed by the disconnect calls |
| `Busses.ExchangeCycleIdempotent` | demos/hello-layers/src/ace/framework/resources/busses.py:32-50 | a teardown-then-setup cycle of the exchange passes is idempotent: running it twice gives the same state as running it once, namely the old exchanges plus the listed names |
| `Busses.IntegrityQueueCount` | demos/hello-layers/src/ace/framework/resources/busses.py:60-63 | with an injective name builder, the number of distinct integrity queues equals the number of distinct configured layers |
| `Layer5.Settings` | demos/hello-layers/src/ace/framework/resources/layer_5.py:9-14 | the layer is named "layer_5" with label "Cognitive Control" |
| `Layer5.Status` | demos/hello-layers/src/ace/framework/resources/layer_5.py:16-19 | the health probe always reports healthy |
| `Layer5.ProcessLayerMessages` | demos/hello-layers/src/ace/framework/resources/layer_5.py:24-38 | the northbound list is exactly one message, tagged "data", with payload "hello data"; the southbound list is exactly one message, tagged "control", with payload "hello control"; they come back in the order (northbound, southbound) |
| `Layer5.ProcessLayerMessagesIgnoresInput` | demos/hello-layers/src/ace/framework/resources/layer_5.py:24-38 | the result does not depend on any of the five batches: any two calls agree, and every call agrees with the call on five empty batches |
| `Layer5.TypeName` | demos/hello-layers/src/ace/framework/resources/layer_5.py:28-34 | each class is encoded in the "type" field as its lower-case name ("data" and "control" are the two the brain emits), and every encoding is one of the five class tags |
| `Layer5.ParseType` | demos/hello-layers/src/ace/framework/resources/layer_5.py:28-34 | decoding a "type" tag: it is accepted exactly when it is one of the five class tags, and then as the class that encodes to it; together with `ParseTypeName` this shows the string encoding of the five classes is lossless |
| `Layer5.ParseTypeName` | demos/hello-layers/src/ace/framework/resources/layer_5.py:28-34 | the string encoding of the five classes is lossless: every class's tag decodes back to that class, so distinct classes carry distinct tags |

## Left out

- `async`/`await` scheduling: each awaited broker call is one atomic, sequential state update. Interleaving with other tasks is not modelled.
- Publisher and consumer channels: both reach the same broker, so the model has one `Broker` object. Which channel carries which call is not recorded.
- Internals of `setup_exchange` and `teardown_exchange` (busses.py:2): their bodies are not part of this model. They are an idempotent insert into and removal from the exchange set. Bindings, exchange kinds and any queue they may declare are not modelled.
- Broker errors: every call succeeds. In the code, an exception from an awaited call would abort the rest of the pass. The best-effort error collection that the design describes does not exist in the code. Neither behaviour is modelled.
- `BrokerModel.Broker.DeclareQueue`: redeclaring an existing queue with a different durability simply overwrites the flag. A real broker would refuse it, but that is error handling, which is not modelled.
- The name builders `build_all_layer_queue_names` and `build_system_integrity_queue_name` live in the resource base class, which is not part of this model. Their string formats are not modelled. So the count of two exchanges per adjacent layer pair is not stated. Only the integrity-queue count is stated, under injectivity.
- The connect/disconnect state machine (disconnected, connecting, connected, disconnecting) lives in the resource base class, which is not part of this model. Only the two hooks it calls are modelled.
- The layer actor's drain/process/publish loop and the `Layer` base class are not part of this model. Only the layer-5 processing function is modelled.
- Busses.Busses.Status: returns the bare `true` that busses.py:22 passes to `return_status`; the `return_status` wrapping is not modelled, because it lives in the `Resource` base class, which is not part of this model.
- Layer5.Status: returns the bare `true` that layer_5.py:19 passes to `return_status`; the `return_status` wrapping is not modelled, because it lives in the `Layer` base class, which is not part of this model.
- Logging calls and `time.sleep(5)` (layer_5.py:25) have no modelled meaning and are dropped.
- `Layer5.set_identity` (layer_5.py:21-22) assigns an imported prompt text; there is nothing to state about it.
- demos/stacey/backend/ace/l3_agent.py is not part of this model. It is glue around an LLM client, a vector memory store, a scheduler and the wall clock.
