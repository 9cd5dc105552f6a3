/** The bus resource: it owns the broker topology of the whole layer stack.
    After the broker connection is up it declares one durable system-integrity
    queue per layer and then one exchange per layer queue name; before the
    connection goes down it tears the exchanges down and then deletes the
    integrity queues. */
module Busses {
  import opened BrokerModel

  /** Settings of the resource: its name and label, and the configured layer
      stack it inherits from the framework's settings. */
  datatype BussesSettings = BussesSettings(name: string, labelText: string, layers: seq<string>)

  // The calls each pass issues, one per name, in list order.

  function DeclareDurable(queue: string): BrokerEvent { QueueDeclared(queue, true) }
  function DeleteQueue(queue: string): BrokerEvent { QueueDeleted(queue) }
  function DeclareExchange(name: string): BrokerEvent { ExchangeDeclared(name) }
  function DeleteExchange(name: string): BrokerEvent { ExchangeDeleted(name) }

  /** The calls of `post_connect`: every integrity queue, then every exchange. */
  function PostConnectEvents(queues: seq<string>, names: seq<string>): seq<BrokerEvent> {
    MapSeq(queues, DeclareDurable) + MapSeq(names, DeclareExchange)
  }

  /** The calls of `pre_disconnect`: every exchange, then every integrity queue. */
  function PreDisconnectEvents(queues: seq<string>, names: seq<string>): seq<BrokerEvent> {
    MapSeq(names, DeleteExchange) + MapSeq(queues, DeleteQueue)
  }

  /** The queue map after declaring every queue of `names` durable. */
  function WithDurable(queues: map<string, bool>, names: set<string>): (r: map<string, bool>)
    ensures r.Keys == queues.Keys + names
    ensures forall q :: q in names ==> r[q]
    ensures forall q :: q in queues && q !in names ==> r[q] == queues[q]
  {
    map q | q in queues.Keys + names :: if q in names then true else queues[q]
  }

  lemma WithDurableSnoc(queues: map<string, bool>, names: set<string>, q: string)
    ensures WithDurable(queues, names)[q := true] == WithDurable(queues, names + {q})
  {
  }

  /** Distinct layers get distinct integrity-queue names. */
  ghost predicate Injective(f: string -> string) {
    forall a, b :: f(a) == f(b) ==> a == b
  }

  /** Every element's image is among the images of the list. */
  lemma MapSeqCovers(s: seq<string>, f: string -> string)
    ensures forall x :: x in s ==> f(x) in NameSet(MapSeq(s, f))
  {
  }

  lemma AppendAssoc(a: seq<BrokerEvent>, b: seq<BrokerEvent>, c: seq<BrokerEvent>)
    ensures a + b + c == a + (b + c)
  {
  }

  /** One more call of a pass extends its trace segment by that call. */
  lemma TraceStep(trace: seq<BrokerEvent>, done: seq<string>, x: string, f: string -> BrokerEvent)
    ensures trace + MapSeq(done, f) + [f(x)] == trace + MapSeq(done + [x], f)
  {
  }

  /** One more durable declaration extends the declared set by that queue. */
  lemma DeclareStep(queues: map<string, bool>, done: seq<string>, q: string)
    ensures WithDurable(queues, NameSet(done))[q := true] == WithDurable(queues, NameSet(done + [q]))
  {
  }

  /** One more deletion extends the deleted set by that queue. */
  lemma DeleteStep(queues: map<string, bool>, done: seq<string>, q: string)
    ensures queues - NameSet(done) - {q} == queues - NameSet(done + [q])
  {
  }

  /** The exchange pass explains its effect: replaying it from any broker
      state adds exactly the listed names to the exchanges. */
  lemma {:induction false} ReplayCreateExchanges(s: BrokerState, names: seq<string>)
    ensures Replay(s, MapSeq(names, DeclareExchange)) == s.(exchanges := s.exchanges + NameSet(names))
    decreases |names|
  {
    if names != [] {
      var p, x := names[..|names| - 1], names[|names| - 1];
      assert names == p + [x];
      ReplayCreateExchanges(s, p);
      MapSeqSnoc(p, x, DeclareExchange);
      ReplayStep(s, MapSeq(p, DeclareExchange), DeclareExchange(x));
      NameSetSnoc(p, x);
    }
  }

  /** Replaying the teardown pass removes exactly the listed names. */
  lemma {:induction false} ReplayDestroyExchanges(s: BrokerState, names: seq<string>)
    ensures Replay(s, MapSeq(names, DeleteExchange)) == s.(exchanges := s.exchanges - NameSet(names))
    decreases |names|
  {
    if names != [] {
      var p, x := names[..|names| - 1], names[|names| - 1];
      assert names == p + [x];
      ReplayDestroyExchanges(s, p);
      MapSeqSnoc(p, x, DeleteExchange);
      ReplayStep(s, MapSeq(p, DeleteExchange), DeleteExchange(x));
      NameSetSnoc(p, x);
    }
  }

  /** Replaying the integrity-queue declarations makes exactly the listed
      queues exist, durable, and leaves every other queue as it was. */
  lemma {:induction false} ReplayCreateIntegrityQueues(s: BrokerState, queues: seq<string>)
    ensures Replay(s, MapSeq(queues, DeclareDurable)) == s.(queues := WithDurable(s.queues, NameSet(queues)))
    decreases |queues|
  {
    if queues == [] {
      assert WithDurable(s.queues, {}) == s.queues;
    } else {
      var p, x := queues[..|queues| - 1], queues[|queues| - 1];
      assert queues == p + [x];
      ReplayCreateIntegrityQueues(s, p);
      MapSeqSnoc(p, x, DeclareDurable);
      ReplayStep(s, MapSeq(p, DeclareDurable), DeclareDurable(x));
      NameSetSnoc(p, x);
      WithDurableSnoc(s.queues, NameSet(p), x);
    }
  }

  /** Replaying the integrity-queue deletions removes exactly the listed queues. */
  lemma {:induction false} ReplayDestroyIntegrityQueues(s: BrokerState, queues: seq<string>)
    ensures Replay(s, MapSeq(queues, DeleteQueue)) == s.(queues := s.queues - NameSet(queues))
    decreases |queues|
  {
    if queues == [] {
      assert s.queues - {} == s.queues;
    } else {
      var p, x := queues[..|queues| - 1], queues[|queues| - 1];
      assert queues == p + [x];
      ReplayDestroyIntegrityQueues(s, p);
      MapSeqSnoc(p, x, DeleteQueue);
      ReplayStep(s, MapSeq(p, DeleteQueue), DeleteQueue(x));
      DeleteStep(s.queues, p, x);
    }
  }

  /** In `post_connect` every queue declaration comes before every exchange
      declaration: the first |queues| calls declare the integrity queues,
      durable, in layer order, and the rest declare the exchanges in list order. */
  lemma PostConnectQueuesBeforeExchanges(queues: seq<string>, names: seq<string>)
    ensures var ev := PostConnectEvents(queues, names);
      && |ev| == |queues| + |names|
      && (forall i :: 0 <= i < |queues| ==> ev[i] == QueueDeclared(queues[i], true))
      && (forall i :: 0 <= i < |names| ==> ev[|queues| + i] == ExchangeDeclared(names[i]))
      && (forall i, j :: 0 <= i < |ev| && 0 <= j < |ev| && ev[i].IsQueueEvent() && ev[j].IsExchangeEvent() ==> i < j)
  {
  }

  /** `pre_disconnect` mirrors `post_connect` phase by phase: it first deletes
      the exchanges `post_connect` declared last, then the integrity queues it
      declared first. Within each phase the list order is kept, not reversed. */
  lemma PreDisconnectMirrorsPostConnect(queues: seq<string>, names: seq<string>)
    ensures var post, pre := PostConnectEvents(queues, names), PreDisconnectEvents(queues, names);
      && |pre| == |post|
      && (forall i :: 0 <= i < |names| ==> pre[i] == ExchangeDeleted(post[|queues| + i].exchange))
      && (forall i :: 0 <= i < |queues| ==> pre[|names| + i] == QueueDeleted(post[i].queue))
      && (forall i, j :: 0 <= i < |pre| && 0 <= j < |pre| && pre[i].IsExchangeEvent() && pre[j].IsQueueEvent() ==> i < j)
  {
  }

  /** Replaying `post_connect` from any broker state: the integrity queues
      exist and are durable, the listed exchanges exist, nothing else changes. */
  lemma ReplayPostConnect(s: BrokerState, queues: seq<string>, names: seq<string>)
    ensures Replay(s, PostConnectEvents(queues, names))
         == BrokerState(s.exchanges + NameSet(names), WithDurable(s.queues, NameSet(queues)))
  {
    ReplayAppend(s, MapSeq(queues, DeclareDurable), MapSeq(names, DeclareExchange));
    ReplayCreateIntegrityQueues(s, queues);
    ReplayCreateExchanges(s.(queues := WithDurable(s.queues, NameSet(queues))), names);
  }

  /** Replaying `pre_disconnect` from any broker state: the listed exchanges
      and the integrity queues are gone, nothing else changes. */
  lemma ReplayPreDisconnect(s: BrokerState, queues: seq<string>, names: seq<string>)
    ensures Replay(s, PreDisconnectEvents(queues, names))
         == BrokerState(s.exchanges - NameSet(names), s.queues - NameSet(queues))
  {
    ReplayAppend(s, MapSeq(names, DeleteExchange), MapSeq(queues, DeleteQueue));
    ReplayDestroyExchanges(s, names);
    ReplayDestroyIntegrityQueues(s.(exchanges := s.exchanges - NameSet(names)), queues);
  }

  /** Connecting and then disconnecting restores the broker exactly, provided
      it held none of the enumerated exchanges and integrity queues before. */
  lemma LifecycleRoundTrip(s: BrokerState, queues: seq<string>, names: seq<string>)
    requires s.exchanges !! NameSet(names)
    requires s.queues.Keys !! NameSet(queues)
    ensures Replay(s, PostConnectEvents(queues, names) + PreDisconnectEvents(queues, names)) == s
  {
    ReplayAppend(s, PostConnectEvents(queues, names), PreDisconnectEvents(queues, names));
    ReplayPostConnect(s, queues, names);
    var up := BrokerState(s.exchanges + NameSet(names), WithDurable(s.queues, NameSet(queues)));
    ReplayPreDisconnect(up, queues, names);
    assert up.exchanges - NameSet(names) == s.exchanges;
    assert up.queues - NameSet(queues) == s.queues;
  }

  /** A teardown-then-setup cycle of the exchange passes is idempotent:
      running it twice leaves the same exchanges as running it once. */
  lemma ExchangeCycleIdempotent(s: BrokerState, names: seq<string>)
    ensures var cycle := MapSeq(names, DeleteExchange) + MapSeq(names, DeclareExchange);
      Replay(s, cycle + cycle) == Replay(s, cycle)
      && Replay(s, cycle).exchanges == s.exchanges + NameSet(names)
  {
    var te, de := MapSeq(names, DeleteExchange), MapSeq(names, DeclareExchange);
    ReplayAppend(s, te, de);
    ReplayDestroyExchanges(s, names);
    ReplayCreateExchanges(s.(exchanges := s.exchanges - NameSet(names)), names);
    var once := Replay(s, te + de);
    assert once == s.(exchanges := s.exchanges + NameSet(names));
    ReplayAppend(s, te + de, te + de);
    ReplayAppend(once, te, de);
    ReplayDestroyExchanges(once, names);
    ReplayCreateExchanges(once.(exchanges := once.exchanges - NameSet(names)), names);
  }

  lemma NameSetSnocPresent(s: seq<string>, x: string)
    requires x in s
    ensures NameSet(s + [x]) == NameSet(s)
  {
  }

  lemma NameSetSnocAbsent(s: seq<string>, x: string)
    requires x !in s
    ensures |NameSet(s + [x])| == |NameSet(s)| + 1
  {
    NameSetSnoc(s, x);
  }

  /** An injective builder gives a layer outside the list a fresh name. */
  lemma ImageOfAbsent(s: seq<string>, x: string, f: string -> string)
    requires Injective(f) && x !in s
    ensures f(x) !in NameSet(MapSeq(s, f))
  {
  }

  /** With an injective name builder there is exactly one integrity queue per
      distinct configured layer. */
  lemma {:induction false} IntegrityQueueCount(layers: seq<string>, f: string -> string)
    requires Injective(f)
    ensures |NameSet(MapSeq(layers, f))| == |NameSet(layers)|
    decreases |layers|
  {
    if layers != [] {
      var p, x := layers[..|layers| - 1], layers[|layers| - 1];
      assert layers == p + [x];
      IntegrityQueueCount(p, f);
      MapSeqSnoc(p, x, f);
      if x in p {
        MapSeqCovers(p, f);
        NameSetSnocPresent(p, x);
        NameSetSnocPresent(MapSeq(p, f), f(x));
      } else {
        ImageOfAbsent(p, x, f);
        NameSetSnocAbsent(p, x);
        NameSetSnocAbsent(MapSeq(p, f), f(x));
      }
    }
  }

  /** The bus resource over one broker. The configured layer stack, the
      integrity-queue name builder and the layer queue names come from the
      framework's settings and base resource; all three are fixed, so every
      pass enumerates the same names. */
  class Busses {
    const broker: Broker
    const layers: seq<string>
    const integrityQueueName: string -> string
    const layerQueueNames: seq<string>

    constructor (broker: Broker, layers: seq<string>, integrityQueueName: string -> string,
                 layerQueueNames: seq<string>)
      ensures this.broker == broker && this.layers == layers
      ensures this.integrityQueueName == integrityQueueName
      ensures this.layerQueueNames == layerQueueNames
    {
      this.broker := broker;
      this.layers := layers;
      this.integrityQueueName := integrityQueueName;
      this.layerQueueNames := layerQueueNames;
    }

    function Settings(): (s: BussesSettings)
      ensures s.name == "busses" && s.labelText == "Busses"
      ensures s.layers == layers
    {
      BussesSettings("busses", "Busses", layers)
    }

    /** The health probe is a placeholder: healthy whatever the broker holds. */
    function Status(): (healthy: bool)
      ensures healthy
    {
      true
    }

    /** The integrity-queue names of the configured layers, in layer order. */
    function IntegrityQueueNames(): (r: seq<string>)
      ensures |r| == |layers|
      ensures forall i :: 0 <= i < |layers| ==> r[i] == integrityQueueName(layers[i])
    {
      MapSeq(Settings().layers, integrityQueueName)
    }

    method PostConnect()
      modifies broker
      ensures broker.queues == WithDurable(old(broker.queues), NameSet(IntegrityQueueNames()))
      ensures broker.exchanges == old(broker.exchanges) + NameSet(layerQueueNames)
      ensures broker.trace == old(broker.trace) + PostConnectEvents(IntegrityQueueNames(), layerQueueNames)
      ensures broker.State() == Replay(old(broker.State()), PostConnectEvents(IntegrityQueueNames(), layerQueueNames))
    {
      CreateSystemIntegrityQueues();
      CreateExchanges();
      AppendAssoc(old(broker.trace), MapSeq(IntegrityQueueNames(), DeclareDurable), MapSeq(layerQueueNames, DeclareExchange));
      ReplayPostConnect(old(broker.State()), IntegrityQueueNames(), layerQueueNames);
    }

    method PreDisconnect()
      modifies broker
      ensures broker.exchanges == old(broker.exchanges) - NameSet(layerQueueNames)
      ensures broker.queues == old(broker.queues) - NameSet(IntegrityQueueNames())
      ensures broker.trace == old(broker.trace) + PreDisconnectEvents(IntegrityQueueNames(), layerQueueNames)
      ensures broker.State() == Replay(old(broker.State()), PreDisconnectEvents(IntegrityQueueNames(), layerQueueNames))
    {
      DestroyExchanges();
      DestroySystemIntegrityQueues();
      AppendAssoc(old(broker.trace), MapSeq(layerQueueNames, DeleteExchange), MapSeq(IntegrityQueueNames(), DeleteQueue));
      ReplayPreDisconnect(old(broker.State()), IntegrityQueueNames(), layerQueueNames);
    }

    method CreateExchanges()
      modifies broker
      ensures forall n :: n in layerQueueNames ==> n in broker.exchanges
      ensures forall n :: n !in layerQueueNames ==> (n in broker.exchanges <==> n in old(broker.exchanges))
      ensures broker.exchanges == old(broker.exchanges) + NameSet(layerQueueNames)
      ensures broker.queues == old(broker.queues)
      ensures broker.trace == old(broker.trace) + MapSeq(layerQueueNames, DeclareExchange)
    {
      var names := layerQueueNames;
      for i := 0 to |names|
        invariant broker.exchanges == old(broker.exchanges) + NameSet(names[..i])
        invariant broker.queues == old(broker.queues)
        invariant broker.trace == old(broker.trace) + MapSeq(names[..i], DeclareExchange)
      {
        CreateExchange(names[i]);
        assert names[..i + 1] == names[..i] + [names[i]];
        NameSetSnoc(names[..i], names[i]);
        TraceStep(old(broker.trace), names[..i], names[i], DeclareExchange);
      }
      assert names[..|names|] == names;
    }

    method CreateExchange(queueName: string)
      modifies broker
      ensures broker.exchanges == old(broker.exchanges) + {queueName}
      ensures broker.queues == old(broker.queues)
      ensures broker.trace == old(broker.trace) + [DeclareExchange(queueName)]
    {
      broker.SetupExchange(queueName);
    }

    method DestroyExchanges()
      modifies broker
      ensures forall n :: n in layerQueueNames ==> n !in broker.exchanges
      ensures forall n :: n !in layerQueueNames ==> (n in broker.exchanges <==> n in old(broker.exchanges))
      ensures broker.exchanges == old(broker.exchanges) - NameSet(layerQueueNames)
      ensures broker.queues == old(broker.queues)
      ensures broker.trace == old(broker.trace) + MapSeq(layerQueueNames, DeleteExchange)
    {
      var names := layerQueueNames;
      for i := 0 to |names|
        invariant broker.exchanges == old(broker.exchanges) - NameSet(names[..i])
        invariant broker.queues == old(broker.queues)
        invariant broker.trace == old(broker.trace) + MapSeq(names[..i], DeleteExchange)
      {
        DestroyExchange(names[i]);
        assert names[..i + 1] == names[..i] + [names[i]];
        NameSetSnoc(names[..i], names[i]);
        TraceStep(old(broker.trace), names[..i], names[i], DeleteExchange);
      }
      assert names[..|names|] == names;
    }

    method DestroyExchange(queueName: string)
      modifies broker
      ensures broker.exchanges == old(broker.exchanges) - {queueName}
      ensures broker.queues == old(broker.queues)
      ensures broker.trace == old(broker.trace) + [DeleteExchange(queueName)]
    {
      broker.TeardownExchange(queueName);
    }

    method CreateSystemIntegrityQueues()
      modifies broker
      ensures forall layer :: layer in layers ==>
        integrityQueueName(layer) in broker.queues && broker.queues[integrityQueueName(layer)]
      ensures broker.queues == WithDurable(old(broker.queues), NameSet(IntegrityQueueNames()))
      ensures broker.exchanges == old(broker.exchanges)
      ensures broker.trace == old(broker.trace) + MapSeq(IntegrityQueueNames(), DeclareDurable)
    {
      var stack := Settings().layers;
      ghost var declared: seq<string> := [];
      for i := 0 to |stack|
        invariant declared == MapSeq(stack[..i], integrityQueueName)
        invariant broker.queues == WithDurable(old(broker.queues), NameSet(declared))
        invariant broker.exchanges == old(broker.exchanges)
        invariant broker.trace == old(broker.trace) + MapSeq(declared, DeclareDurable)
      {
        var queueName := integrityQueueName(stack[i]);
        broker.DeclareQueue(queueName, true);
        assert stack[..i + 1] == stack[..i] + [stack[i]];
        MapSeqSnoc(stack[..i], stack[i], integrityQueueName);
        DeclareStep(old(broker.queues), declared, queueName);
        TraceStep(old(broker.trace), declared, queueName, DeclareDurable);
        declared := declared + [queueName];
      }
      assert stack[..|stack|] == stack;
      MapSeqCovers(layers, integrityQueueName);
    }

    method DestroySystemIntegrityQueues()
      modifies broker
      ensures forall layer :: layer in layers ==> integrityQueueName(layer) !in broker.queues
      ensures broker.queues == old(broker.queues) - NameSet(IntegrityQueueNames())
      ensures broker.exchanges == old(broker.exchanges)
      ensures broker.trace == old(broker.trace) + MapSeq(IntegrityQueueNames(), DeleteQueue)
    {
      var stack := Settings().layers;
      ghost var deleted: seq<string> := [];
      for i := 0 to |stack|
        invariant deleted == MapSeq(stack[..i], integrityQueueName)
        invariant broker.queues == old(broker.queues) - NameSet(deleted)
        invariant broker.exchanges == old(broker.exchanges)
        invariant broker.trace == old(broker.trace) + MapSeq(deleted, DeleteQueue)
      {
        var queueName := integrityQueueName(stack[i]);
        broker.QueueDelete(queueName);
        assert stack[..i + 1] == stack[..i] + [stack[i]];
        MapSeqSnoc(stack[..i], stack[i], integrityQueueName);
        DeleteStep(old(broker.queues), deleted, queueName);
        TraceStep(old(broker.trace), deleted, queueName, DeleteQueue);
        deleted := deleted + [queueName];
      }
      assert stack[..|stack|] == stack;
      MapSeqCovers(layers, integrityQueueName);
    }
  }

  /** The lifecycle bracket on the objects: a connect hook followed by a
      disconnect hook leaves the broker exactly as it was, provided it held
      none of the enumerated exchanges and integrity queues before. */
  method ConnectThenDisconnect(b: Busses)
    requires b.broker.exchanges !! NameSet(b.layerQueueNames)
    requires b.broker.queues.Keys !! NameSet(b.IntegrityQueueNames())
    modifies b.broker
    ensures b.broker.exchanges == old(b.broker.exchanges)
    ensures b.broker.queues == old(b.broker.queues)
    ensures b.broker.trace == old(b.broker.trace)
      + PostConnectEvents(b.IntegrityQueueNames(), b.layerQueueNames)
      + PreDisconnectEvents(b.IntegrityQueueNames(), b.layerQueueNames)
  {
    b.PostConnect();
    b.PreDisconnect();
    assert b.broker.exchanges == old(b.broker.exchanges) + NameSet(b.layerQueueNames) - NameSet(b.layerQueueNames);
    assert b.broker.queues == WithDurable(old(b.broker.queues), NameSet(b.IntegrityQueueNames())) - NameSet(b.IntegrityQueueNames());
  }
}
