/** The consumer: one handler per queue (upper-case the message, raise the Columbia alert on the
    location queue, append the message as a CSV row, acknowledge), and the registration loop
    that subscribes both handlers. */
module Consumer {
  import opened Text
  import opened Topology
  import opened Effects

  const AlertPattern: string := "CITY: COLUMBIA, STATE: MISSOURI"
  const AlertSubject: string := "ALERT! Brewery found in Columbia"
  const PrefetchCount: nat := 1

  /** The e-mail body of an alert for the upper-cased message. */
  function AlertBody(message: string): (emailBody: string)
  {
    "Brewery Information: " + message + " "
  }

  /** The e-mail body: the fixed lead-in, the message, and one trailing space. */
  lemma AlertBodyLayout(message: string)
    ensures var e := AlertBody(message);
      |e| == 22 + |message| && e[..21] == "Brewery Information: " &&
      e[21..21 + |message|] == message && e[21 + |message|] == ' '
  {
  }

  /** How one handler invocation ends: it acknowledged its delivery, or an exception from the
      sink file or the e-mail collaborator escaped it, leaving the delivery unacknowledged. */
  datatype HandlerOutcome = Acked | Fault

  /** What one handler invocation does, in order, and how it ends. */
  datatype Step = Step(events: seq<Event>, outcome: HandlerOutcome)

  /** The row a handler writes for a message body. */
  function SinkRow(body: string): (row: seq<string>)
  {
    Split(Upper(body), ',')
  }

  /** The alert predicate of the location handler, on the raw body. */
  predicate AlertFires(body: string)
  {
    Contains(Upper(body), AlertPattern)
  }

  /** The alert predicate holds exactly when the pattern occurs somewhere in the upper-cased
      body. */
  lemma AlertFiresIff(body: string)
    ensures AlertFires(body) <==> exists i :: OccursAt(Upper(body), AlertPattern, i)
  {
    ContainsIff(Upper(body), AlertPattern);
  }

  /** The e-mail call a handler makes before its write: only the location handler makes one,
      and only when the alert predicate holds. */
  function AlertCall(cb: Callback, body: string): (calls: seq<Event>)
  {
    if cb == LocationCallback && AlertFires(body)
    then [EmailAlert(AlertSubject, AlertBody(Upper(body)))] else []
  }

  /** The sink file each handler appends to. */
  function SinkOf(cb: Callback): (file: string)
  {
    match cb
    case TypeCallback => TypeSink
    case LocationCallback => LocationSink
  }

  /** A handler gets through its alert call and its write when neither raises. */
  predicate Completes(cb: Callback, f: Faults, body: string)
  {
    SinkOf(cb) !in f.unwritable && !(AlertCall(cb, body) != [] && f.mailDown)
  }

  /** What the handler bound to `cb` does with delivery `tag` carrying `body`: its alert call,
      then, if neither collaborator raised, the row append and the acknowledgement. */
  function HandlerStep(cb: Callback, f: Faults, tag: nat, body: string): (step: Step)
  {
    if Completes(cb, f, body)
    then Step(AlertCall(cb, body) + [SinkAppend(SinkOf(cb), SinkRow(body)), BasicAck(tag)], Acked)
    else Step(AlertCall(cb, body), Fault)
  }

  method CallbackType(ch: World, deliveryTag: nat, body: string) returns (outcome: HandlerOutcome)
    modifies ch
    ensures ch.trace == old(ch.trace) + HandlerStep(TypeCallback, ch.faults, deliveryTag, body).events
    ensures outcome == HandlerStep(TypeCallback, ch.faults, deliveryTag, body).outcome
  {
    var message1 := Upper(body);
    var written := ch.AppendRow(TypeSink, Split(message1, ','));
    if !written {
      return Fault;
    }
    ch.BasicAck(deliveryTag);
    return Acked;
  }

  method CallbackLocation(ch: World, deliveryTag: nat, body: string) returns (outcome: HandlerOutcome)
    modifies ch
    ensures ch.trace == old(ch.trace) + HandlerStep(LocationCallback, ch.faults, deliveryTag, body).events
    ensures outcome == HandlerStep(LocationCallback, ch.faults, deliveryTag, body).outcome
  {
    var message2 := Upper(body);
    if Contains(message2, AlertPattern) {
      var sent := ch.SendEmail(AlertSubject, AlertBody(message2));
      if !sent {
        return Fault;
      }
    }
    var written := ch.AppendRow(LocationSink, Split(message2, ','));
    if !written {
      return Fault;
    }
    ch.BasicAck(deliveryTag);
    return Acked;
  }

  /** The alert call holds one e-mail call and nothing else. */
  lemma AlertCallOnly(cb: Callback, body: string, file: string)
    ensures Only(EmailCalls, AlertCall(cb, body)) == AlertCall(cb, body)
    ensures Only(RowsTo(file), AlertCall(cb, body)) == []
    ensures Only(Acks, AlertCall(cb, body)) == []
  {
    var alert := AlertCall(cb, body);
    if alert != [] {
      OnlyShort(EmailCalls, alert[0], alert[0]);
      OnlyShort(RowsTo(file), alert[0], alert[0]);
      OnlyShort(Acks, alert[0], alert[0]);
    }
  }

  /** The end of an acknowledged run: one row to its own file, then one acknowledgement. */
  lemma FinishOnly(file: string, row: seq<string>, tag: nat, other: string)
    requires other != file
    ensures Only(RowsTo(file), [SinkAppend(file, row), BasicAck(tag)]) == [SinkAppend(file, row)]
    ensures Only(RowsTo(other), [SinkAppend(file, row), BasicAck(tag)]) == []
    ensures Only(EmailCalls, [SinkAppend(file, row), BasicAck(tag)]) == []
    ensures Only(Acks, [SinkAppend(file, row), BasicAck(tag)]) == [BasicAck(tag)]
  {
    var append, ack := SinkAppend(file, row), BasicAck(tag);
    OnlyShort(RowsTo(file), append, ack);
    OnlyShort(RowsTo(other), append, ack);
    OnlyShort(EmailCalls, append, ack);
    OnlyShort(Acks, append, ack);
  }

  /** A handler ends in `Acked` exactly when its collaborators did not raise; it then
      acknowledges its own tag once, as its last effect, right after appending the message's row
      to its own sink. A faulted handler acknowledges nothing. */
  lemma AckDiscipline(cb: Callback, f: Faults, tag: nat, body: string)
    ensures var s := HandlerStep(cb, f, tag, body);
      (s.outcome == Acked <==>
        SinkOf(cb) !in f.unwritable && !(cb == LocationCallback && AlertFires(body) && f.mailDown)) &&
      Only(Acks, s.events) == (if s.outcome == Acked then [BasicAck(tag)] else []) &&
      (s.outcome == Acked ==>
        |s.events| >= 2 &&
        s.events[|s.events| - 1] == BasicAck(tag) &&
        s.events[|s.events| - 2] == SinkAppend(SinkOf(cb), SinkRow(body)))
  {
    var alert := AlertCall(cb, body);
    AlertCallOnly(cb, body, SinkOf(cb));
    if Completes(cb, f, body) {
      var tail := [SinkAppend(SinkOf(cb), SinkRow(body)), BasicAck(tag)];
      DistinctNames();
      FinishOnly(SinkOf(cb), SinkRow(body), tag, SinkOf(Other(cb)));
      OnlyConcat(Acks, alert, tail);
    }
  }

  /** The row a handler writes joins back, with commas, to the upper-cased message. */
  lemma SinkRowJoins(body: string)
    ensures Join(SinkRow(body), ',') == Upper(body)
    ensures |SinkRow(body)| >= 1
  {
    JoinSplit(Upper(body), ',');
  }

  /** The other handler of the table. */
  function Other(cb: Callback): (other: Callback)
  {
    match cb
    case TypeCallback => LocationCallback
    case LocationCallback => TypeCallback
  }

  /** What a handler leaves in the sinks and in the e-mail log: its own sink receives the row
      exactly when the handler is acknowledged, the other sink nothing, and the only e-mail
      calls are its alert call: one, with the fixed subject and the message in the body, when
      the location handler's alert predicate holds, none otherwise and none from the type
      handler. */
  lemma HandlerEffects(cb: Callback, f: Faults, tag: nat, body: string)
    ensures var s := HandlerStep(cb, f, tag, body);
      Only(RowsTo(SinkOf(cb)), s.events) ==
        (if s.outcome == Acked then [SinkAppend(SinkOf(cb), SinkRow(body))] else []) &&
      Only(RowsTo(SinkOf(Other(cb))), s.events) == [] &&
      Only(EmailCalls, s.events) ==
        (if cb == LocationCallback && AlertFires(body)
         then [EmailAlert(AlertSubject, AlertBody(Upper(body)))] else [])
  {
    var alert := AlertCall(cb, body);
    var own, other := SinkOf(cb), SinkOf(Other(cb));
    AlertCallOnly(cb, body, own);
    AlertCallOnly(cb, body, other);
    if Completes(cb, f, body) {
      var tail := [SinkAppend(own, SinkRow(body)), BasicAck(tag)];
      DistinctNames();
      FinishOnly(own, SinkRow(body), tag, other);
      OnlyConcat(EmailCalls, alert, tail);
      OnlyConcat(RowsTo(own), alert, tail);
      OnlyConcat(RowsTo(other), alert, tail);
    }
  }

  /** Handlers keep no state: two deliveries of the same body (a redelivery) end the same way
      and repeat the same e-mail calls; when acknowledged they append the same row twice to the
      sink and acknowledge both tags, in delivery order. */
  lemma Redelivery(cb: Callback, f: Faults, tag1: nat, tag2: nat, body: string)
    ensures HandlerStep(cb, f, tag1, body).outcome == HandlerStep(cb, f, tag2, body).outcome
    ensures var es := HandlerStep(cb, f, tag1, body).events + HandlerStep(cb, f, tag2, body).events;
      Only(EmailCalls, es) == AlertCall(cb, body) + AlertCall(cb, body) &&
      (HandlerStep(cb, f, tag1, body).outcome == Acked ==>
        Only(RowsTo(SinkOf(cb)), es) ==
          [SinkAppend(SinkOf(cb), SinkRow(body)), SinkAppend(SinkOf(cb), SinkRow(body))] &&
        Only(Acks, es) == [BasicAck(tag1), BasicAck(tag2)])
  {
    var s1 := HandlerStep(cb, f, tag1, body);
    var s2 := HandlerStep(cb, f, tag2, body);
    OnlyConcat(EmailCalls, s1.events, s2.events);
    OnlyConcat(RowsTo(SinkOf(cb)), s1.events, s2.events);
    OnlyConcat(Acks, s1.events, s2.events);
    AckDiscipline(cb, f, tag1, body);
    AckDiscipline(cb, f, tag2, body);
    HandlerEffects(cb, f, tag1, body);
    HandlerEffects(cb, f, tag2, body);
    var row := SinkAppend(SinkOf(cb), SinkRow(body));
    assert [row] + [row] == [row, row];
    assert [BasicAck(tag1)] + [BasicAck(tag2)] == [BasicAck(tag1), BasicAck(tag2)];
  }

  /** The broker operations that subscribe one table entry: a durable declare, a prefetch
      ceiling of one, and a consume with manual acknowledgement. */
  function Subscription(entry: (string, Callback)): (ops: seq<Event>)
  {
    [QueueDeclare(entry.0, true), BasicQos(PrefetchCount), BasicConsume(entry.0, entry.1, false)]
  }

  /** The operations of the registration loop over a table, entry by entry. */
  function Registration(table: seq<(string, Callback)>): (ops: seq<Event>)
  {
    if table == [] then [] else Registration(table[..|table| - 1]) + Subscription(table[|table| - 1])
  }

  /** The registration loop of `main`, before it starts consuming. */
  method Run(channel: World)
    modifies channel
    ensures channel.trace == old(channel.trace) + Registration(QueuesAndCallbacks)
  {
    var i := 0;
    while i < |QueuesAndCallbacks|
      invariant 0 <= i <= |QueuesAndCallbacks|
      invariant channel.trace == old(channel.trace) + Registration(QueuesAndCallbacks[..i])
    {
      var (queueName, callbackFunction) := QueuesAndCallbacks[i];
      channel.QueueDeclare(queueName, true);
      channel.BasicQos(PrefetchCount);
      channel.BasicConsume(queueName, callbackFunction, false);
      assert QueuesAndCallbacks[..i + 1][..i] == QueuesAndCallbacks[..i];
      i := i + 1;
    }
    assert QueuesAndCallbacks[..i] == QueuesAndCallbacks;
  }

  /** Registration handles the table in list order: entry k occupies positions 3k to 3k+2 as a
      durable declare of its queue, a prefetch of one, and a consume of its queue by its
      callback without automatic acknowledgement. */
  lemma {:induction false} RegistrationShape(table: seq<(string, Callback)>)
    ensures |Registration(table)| == 3 * |table|
    ensures forall k :: 0 <= k < |table| ==>
      Registration(table)[3 * k] == QueueDeclare(table[k].0, true) &&
      Registration(table)[3 * k + 1] == BasicQos(1) &&
      Registration(table)[3 * k + 2] == BasicConsume(table[k].0, table[k].1, false)
  {
    if table != [] {
      var init := table[..|table| - 1];
      RegistrationShape(init);
      forall k | 0 <= k < |table|
        ensures Registration(table)[3 * k] == QueueDeclare(table[k].0, true)
        ensures Registration(table)[3 * k + 1] == BasicQos(1)
        ensures Registration(table)[3 * k + 2] == BasicConsume(table[k].0, table[k].1, false)
      {
        if k < |init| {
          assert table[k] == init[k];
        }
      }
    }
  }

  /** `main` subscribes exactly the two queues, the type queue first, each durable, with a
      prefetch of one and manual acknowledgement, and binds each to its own handler. */
  lemma RunSubscribes()
    ensures var r := Registration(QueuesAndCallbacks);
      |r| == 6 &&
      r[0] == QueueDeclare(TypeQueue, true) && r[1] == BasicQos(1) &&
      r[2] == BasicConsume(TypeQueue, TypeCallback, false) &&
      r[3] == QueueDeclare(LocationQueue, true) && r[4] == BasicQos(1) &&
      r[5] == BasicConsume(LocationQueue, LocationCallback, false)
  {
    RegistrationShape(QueuesAndCallbacks);
    assert QueuesAndCallbacks[0] == (TypeQueue, TypeCallback);
    assert QueuesAndCallbacks[1] == (LocationQueue, LocationCallback);
    assert Registration(QueuesAndCallbacks)[3 * 1] == QueueDeclare(LocationQueue, true);
  }
}
