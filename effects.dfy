/** The externally visible effects of both programs, recorded in order: broker operations on a
    channel, rows appended to sink files, calls to the e-mail collaborator, acknowledgements. */
module Effects {
  import opened Topology

  datatype Event =
    | QueueDelete(queue: string)
    | QueueDeclare(queue: string, durable: bool)
    | BasicPublish(exchange: string, routingKey: string, body: string)
    | BasicQos(prefetchCount: nat)
    | BasicConsume(queue: string, callback: Callback, autoAck: bool)
    | BasicAck(deliveryTag: nat)
    | SinkAppend(file: string, row: seq<string>)
    | EmailAlert(subject: string, body: string)

  /** Which collaborators fail: sink files that cannot be opened for append (nothing is
      written), and whether the e-mail collaborator raises once it has been called. */
  datatype Faults = Faults(unwritable: set<string>, mailDown: bool)

  /** The process's view of the outside world: everything it did, in order. */
  class World {
    var trace: seq<Event>
    const faults: Faults

    constructor (faults: Faults)
      ensures this.faults == faults && trace == []
    {
      this.faults := faults;
      trace := [];
    }

    method QueueDelete(queue: string)
      modifies this
      ensures trace == old(trace) + [Event.QueueDelete(queue)]
    {
      trace := trace + [Event.QueueDelete(queue)];
    }

    method QueueDeclare(queue: string, durable: bool)
      modifies this
      ensures trace == old(trace) + [Event.QueueDeclare(queue, durable)]
    {
      trace := trace + [Event.QueueDeclare(queue, durable)];
    }

    method BasicPublish(exchange: string, routingKey: string, body: string)
      modifies this
      ensures trace == old(trace) + [Event.BasicPublish(exchange, routingKey, body)]
    {
      trace := trace + [Event.BasicPublish(exchange, routingKey, body)];
    }

    method BasicQos(prefetchCount: nat)
      modifies this
      ensures trace == old(trace) + [Event.BasicQos(prefetchCount)]
    {
      trace := trace + [Event.BasicQos(prefetchCount)];
    }

    method BasicConsume(queue: string, callback: Callback, autoAck: bool)
      modifies this
      ensures trace == old(trace) + [Event.BasicConsume(queue, callback, autoAck)]
    {
      trace := trace + [Event.BasicConsume(queue, callback, autoAck)];
    }

    method BasicAck(deliveryTag: nat)
      modifies this
      ensures trace == old(trace) + [Event.BasicAck(deliveryTag)]
    {
      trace := trace + [Event.BasicAck(deliveryTag)];
    }

    /** Opens `file` for append and writes one row; `ok` is false when the open or write raises. */
    method AppendRow(file: string, row: seq<string>) returns (ok: bool)
      modifies this
      ensures ok == (file !in faults.unwritable)
      ensures trace == old(trace) + (if ok then [SinkAppend(file, row)] else [])
    {
      ok := file !in faults.unwritable;
      if ok {
        trace := trace + [SinkAppend(file, row)];
      }
    }

    /** Calls the e-mail collaborator; the call is recorded, and `ok` is false when it raises. */
    method SendEmail(subject: string, body: string) returns (ok: bool)
      modifies this
      ensures ok == !faults.mailDown
      ensures trace == old(trace) + [EmailAlert(subject, body)]
    {
      ok := !faults.mailDown;
      trace := trace + [EmailAlert(subject, body)];
    }
  }

  /** A kind of event to pick out of a trace. */
  datatype Kind = Acks | EmailCalls | RowsTo(file: string) | PublishesTo(queue: string)

  predicate Is(k: Kind, e: Event)
  {
    match k
    case Acks => e.BasicAck?
    case EmailCalls => e.EmailAlert?
    case RowsTo(file) => e.SinkAppend? && e.file == file
    case PublishesTo(queue) => e.BasicPublish? && e.routingKey == queue
  }

  /** The events of kind `k` in a trace, in trace order. */
  function Only(k: Kind, es: seq<Event>): (picked: seq<Event>)
  {
    if es == [] then [] else (if Is(k, es[0]) then [es[0]] else []) + Only(k, es[1..])
  }

  /** Regrouping a concatenation; called where the solver would otherwise search for it. */
  lemma AppendAssoc<T>(x: seq<T>, y: seq<T>, z: seq<T>)
    ensures x + (y + z) == (x + y) + z
  {
  }

  lemma {:induction false} OnlyConcat(k: Kind, a: seq<Event>, b: seq<Event>)
    ensures Only(k, a + b) == Only(k, a) + Only(k, b)
  {
    if a == [] {
      assert a + b == b;
    } else {
      OnlyConcat(k, a[1..], b);
      assert (a + b)[1..] == a[1..] + b;
      var head := if Is(k, a[0]) then [a[0]] else [];
      calc {
        Only(k, a + b);
        head + Only(k, a[1..] + b);
        head + (Only(k, a[1..]) + Only(k, b));
        { AppendAssoc(head, Only(k, a[1..]), Only(k, b)); }
        (head + Only(k, a[1..])) + Only(k, b);
      }
    }
  }

  /** The events of kind `k` in a trace of one or two events. */
  lemma OnlyShort(k: Kind, e1: Event, e2: Event)
    ensures Only(k, [e1]) == (if Is(k, e1) then [e1] else [])
    ensures Only(k, [e1, e2]) == (if Is(k, e1) then [e1] else []) + (if Is(k, e2) then [e2] else [])
  {
    assert [e1][1..] == [];
    assert Only(k, [e1]) == (if Is(k, e1) then [e1] else []) + [];
    assert [e1, e2][1..] == [e2];
    assert Only(k, [e1, e2]) == (if Is(k, e1) then [e1] else []) + Only(k, [e2]);
  }
}
