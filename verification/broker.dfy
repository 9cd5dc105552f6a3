/** The message broker as the bus resource sees it: a set of exchanges, a set of
    queues (each with its durability flag), and the four broker operations the
    resource issues. Two are the exchange helpers, which take the publisher
    channel as an argument; two are queue calls on the consumer channel. Every
    operation is one atomic update of the broker state, and each is recorded as
    an event so that the order of operations can be stated. */
module BrokerModel {

  /** One broker call, as recorded in the event trace. */
  datatype BrokerEvent =
    | ExchangeDeclared(exchange: string)
    | ExchangeDeleted(exchange: string)
    | QueueDeclared(queue: string, durable: bool)
    | QueueDeleted(queue: string)
  {
    predicate IsExchangeEvent() { ExchangeDeclared? || ExchangeDeleted? }
    predicate IsQueueEvent() { QueueDeclared? || QueueDeleted? }

  }

  /** Broker contents: exchange names, and queue names mapped to durability. */
  datatype BrokerState = BrokerState(exchanges: set<string>, queues: map<string, bool>)

  /** The effect of one call: declaring is an idempotent insert, deleting an
      idempotent remove (absence is not an error). */
  function Apply(s: BrokerState, e: BrokerEvent): BrokerState {
    match e
    case ExchangeDeclared(x) => s.(exchanges := s.exchanges + {x})
    case ExchangeDeleted(x) => s.(exchanges := s.exchanges - {x})
    case QueueDeclared(q, d) => s.(queues := s.queues[q := d])
    case QueueDeleted(q) => s.(queues := s.queues - {q})
  }

  /** The state reached by issuing the calls of `events` in order. */
  function Replay(s: BrokerState, events: seq<BrokerEvent>): BrokerState
    decreases |events|
  {
    if events == [] then s
    else Apply(Replay(s, events[..|events| - 1]), events[|events| - 1])
  }

  lemma ReplayStep(s: BrokerState, events: seq<BrokerEvent>, e: BrokerEvent)
    ensures Replay(s, events + [e]) == Apply(Replay(s, events), e)
  {
  }

  /** Replaying two call sequences back to back is replaying their concatenation. */
  lemma {:induction false} ReplayAppend(s: BrokerState, a: seq<BrokerEvent>, b: seq<BrokerEvent>)
    ensures Replay(s, a + b) == Replay(Replay(s, a), b)
    decreases |b|
  {
    if b == [] {
      assert a + b == a;
    } else {
      var b' := b[..|b| - 1];
      var e := b[|b| - 1];
      assert b == b' + [e];
      assert a + b == (a + b') + [e];
      ReplayAppend(s, a, b');
      ReplayStep(s, a + b', e);
      ReplayStep(Replay(s, a), b', e);
    }
  }

  /** The elements of a name list, as a set. */
  function NameSet(names: seq<string>): (r: set<string>)
    ensures forall n {:trigger n in r} :: n in r <==> n in names
  {
    set n | n in names
  }

  /** Applies `f` to every element, keeping the order (the shape of every
      per-name loop of the bus resource). */
  function MapSeq<A, B>(s: seq<A>, f: A -> B): (r: seq<B>)
    ensures |r| == |s|
    ensures forall i {:trigger r[i]} :: 0 <= i < |s| ==> r[i] == f(s[i])
    decreases |s|
  {
    if s == [] then [] else MapSeq(s[..|s| - 1], f) + [f(s[|s| - 1])]
  }

  /** `MapSeq` over a list extended by one element. */
  lemma MapSeqSnoc<A, B>(s: seq<A>, x: A, f: A -> B)
    ensures MapSeq(s + [x], f) == MapSeq(s, f) + [f(x)]
  {
  }

  lemma NameSetSnoc(names: seq<string>, x: string)
    ensures NameSet(names + [x]) == NameSet(names) + {x}
  {
  }

  /** The broker behind the resource's publisher and consumer channels. The
      ghost `trace` records every call in order. */
  class Broker {
    var exchanges: set<string>
    var queues: map<string, bool>
    ghost var trace: seq<BrokerEvent>

    function State(): BrokerState
      reads this
    {
      BrokerState(exchanges, queues)
    }

    constructor (exchanges: set<string>, queues: map<string, bool>)
      ensures this.exchanges == exchanges && this.queues == queues
      ensures trace == []
    {
      this.exchanges := exchanges;
      this.queues := queues;
      trace := [];
    }

    /** Declares exchange `name`; present already is not an error. */
    method SetupExchange(name: string)
      modifies this
      ensures exchanges == old(exchanges) + {name} && queues == old(queues)
      ensures State() == Apply(old(State()), ExchangeDeclared(name))
      ensures trace == old(trace) + [ExchangeDeclared(name)]
    {
      exchanges := exchanges + {name};
      trace := trace + [ExchangeDeclared(name)];
    }

    /** Tears down exchange `name`; absent is not an error. */
    method TeardownExchange(name: string)
      modifies this
      ensures exchanges == old(exchanges) - {name} && queues == old(queues)
      ensures State() == Apply(old(State()), ExchangeDeleted(name))
      ensures trace == old(trace) + [ExchangeDeleted(name)]
    {
      exchanges := exchanges - {name};
      trace := trace + [ExchangeDeleted(name)];
    }

    /** Declares queue `name` with the given durability. */
    method DeclareQueue(name: string, durable: bool)
      modifies this
      ensures queues == old(queues)[name := durable] && exchanges == old(exchanges)
      ensures name in queues && queues[name] == durable
      ensures State() == Apply(old(State()), QueueDeclared(name, durable))
      ensures trace == old(trace) + [QueueDeclared(name, durable)]
    {
      queues := queues[name := durable];
      trace := trace + [QueueDeclared(name, durable)];
    }

    /** Deletes queue `name`; absent is not an error. */
    method QueueDelete(name: string)
      modifies this
      ensures queues == old(queues) - {name} && exchanges == old(exchanges)
      ensures name !in queues
      ensures State() == Apply(old(State()), QueueDeleted(name))
      ensures trace == old(trace) + [QueueDeleted(name)]
    {
      queues := queues - {name};
      trace := trace + [QueueDeleted(name)];
    }
  }
}
