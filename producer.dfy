/** The producer: resets and declares the queues, then turns every data row of the brewery
    file into a type message and a location message, published in that order. */
module Producer {
  import opened Topology
  import opened Effects

  const FieldCount: nat := 14

  /** One data row, unpacked into its 14 positional fields. */
  datatype Brewery = Brewery(
    id: string, name: string, breweryType: string,
    address1: string, address2: string, address3: string,
    city: string, stateProvince: string, postalCode: string, country: string,
    phone: string, websiteUrl: string, longitude: string, latitude: string)

  datatype Option<T> = None | Some(value: T)

  /** How `main_work` ends: every data row published, an empty file (no header row to skip),
      or the first data row whose unpacking raised, counted from 0 after the header. */
  datatype RunOutcome = Published(rows: nat) | NoHeader | Unpackable(row: nat)

  /** The row a record was unpacked from. */
  function Fields(b: Brewery): (row: seq<string>)
  {
    [b.id, b.name, b.breweryType, b.address1, b.address2, b.address3,
     b.city, b.stateProvince, b.postalCode, b.country,
     b.phone, b.websiteUrl, b.longitude, b.latitude]
  }

  /** The tuple unpacking of a row: it succeeds exactly when the row has 14 fields. */
  function Unpack(row: seq<string>): (r: Option<Brewery>)
    ensures r.Some? <==> |row| == FieldCount
  {
    if |row| != FieldCount then None
    else Some(Brewery(row[0], row[1], row[2], row[3], row[4], row[5], row[6],
                      row[7], row[8], row[9], row[10], row[11], row[12], row[13]))
  }

  /** Unpacking a record's own fields gives the record back. */
  lemma UnpackFields(b: Brewery)
    ensures Unpack(Fields(b)) == Some(b)
  {
  }

  /** A 14-field row is exactly the fields of what it unpacks to. */
  lemma FieldsUnpack(row: seq<string>)
    requires |row| == FieldCount
    ensures Fields(Unpack(row).value) == row
  {
  }

  /** The message for the "01-type" queue. */
  function TypeMessage(b: Brewery): (message: string)
  {
    "Name: " + b.name + ", Type: " + b.breweryType + ", Website: " + b.websiteUrl
  }

  /** The type message: its three labels, each followed by its field, and nothing else. */
  lemma TypeMessageLayout(b: Brewery)
    ensures var m, n, t := TypeMessage(b), |b.name|, |b.breweryType|;
      |m| == 25 + n + t + |b.websiteUrl| &&
      m[..6] == "Name: " && m[6..6 + n] == b.name &&
      m[6 + n..14 + n] == ", Type: " && m[14 + n..14 + n + t] == b.breweryType &&
      m[14 + n + t..25 + n + t] == ", Website: " && m[25 + n + t..] == b.websiteUrl
  {
  }

  /** The message for the "02-location" queue. */
  function LocationMessage(b: Brewery): (message: string)
  {
    "Name: " + b.name + ", City: " + b.city + ", State: " + b.stateProvince + ", Country: " + b.country
  }

  /** The location message: its four labels, each followed by its field, and nothing else. */
  lemma LocationMessageLayout(b: Brewery)
    ensures var m, n, c, s := LocationMessage(b), |b.name|, |b.city|, |b.stateProvince|;
      |m| == 34 + n + c + s + |b.country| &&
      m[..6] == "Name: " && m[6..6 + n] == b.name &&
      m[6 + n..14 + n] == ", City: " && m[14 + n..14 + n + c] == b.city &&
      m[14 + n + c..23 + n + c] == ", State: " && m[23 + n + c..23 + n + c + s] == b.stateProvince &&
      m[23 + n + c + s..34 + n + c + s] == ", Country: " && m[34 + n + c + s..] == b.country
  {
  }

  /** What `send_message` does to the channel: one publish of the unchanged text on the
      default exchange, routed by the queue name. */
  function Send(queueName: string, message: string): (publish: Event)
  {
    BasicPublish("", queueName, message)
  }

  method SendMessage(ch: World, queueName: string, message: string)
    modifies ch
    ensures ch.trace == old(ch.trace) + [Send(queueName, message)]
  {
    ch.BasicPublish("", queueName, message);
  }

  /** The queue reset that precedes the row loop: two deletes, then two durable declares. */
  const Setup: seq<Event> := [
    QueueDelete(TypeQueue), QueueDelete(StaleLocationQueue),
    QueueDeclare(TypeQueue, true), QueueDeclare(LocationQueue, true)]

  /** The queues a trace declares, and the queues it deletes. */
  function Declared(es: seq<Event>): (queues: set<string>)
  {
    set e | e in es && e.QueueDeclare? :: e.queue
  }

  function Deleted(es: seq<Event>): (queues: set<string>)
  {
    set e | e in es && e.QueueDelete? :: e.queue
  }

  /** The producer declares exactly the queues the consumer subscribes to, every declare is
      durable, and the location queue is never deleted: the second delete names
      "01-location", which nothing else uses. */
  lemma SetupTopology()
    ensures Declared(Setup) == QueueNames(QueuesAndCallbacks)
    ensures forall e :: e in Setup && e.QueueDeclare? ==> e.durable
    ensures Deleted(Setup) == {TypeQueue, StaleLocationQueue}
    ensures LocationQueue !in Deleted(Setup)
    ensures forall i, j :: 0 <= i < j < |Setup| && Setup[j].QueueDelete? ==> Setup[i].QueueDelete?
  {
    TableShape();
    assert Setup[0].queue == TypeQueue && Setup[1].queue == StaleLocationQueue;
    assert Setup[2].queue == TypeQueue && Setup[3].queue == LocationQueue;
  }

  /** The records of the data rows up to, not including, the first row that does not unpack. */
  function Parse(rows: seq<seq<string>>): (recs: seq<Brewery>)
    ensures |recs| <= |rows|
    ensures forall k :: 0 <= k < |recs| ==> Unpack(rows[k]) == Some(recs[k])
    ensures |recs| < |rows| ==> Unpack(rows[|recs|]) == None
  {
    if rows == [] then []
    else
      match Unpack(rows[0])
      case None => []
      case Some(b) => [b] + Parse(rows[1..])
  }

  /** The two publishes of one record: the type message first, then the location message. */
  function RowPublishes(b: Brewery): (publishes: seq<Event>)
  {
    [Send(TypeQueue, TypeMessage(b)), Send(LocationQueue, LocationMessage(b))]
  }

  /** The publishes of a sequence of records, record by record. */
  function Fanout(recs: seq<Brewery>): (publishes: seq<Event>)
  {
    if recs == [] then [] else RowPublishes(recs[0]) + Fanout(recs[1..])
  }

  /** The whole trace of `main_work` on the rows of the file, header included. */
  function MainWorkTrace(file: seq<seq<string>>): (trace: seq<Event>)
  {
    Setup + (if file == [] then [] else Fanout(Parse(file[1..])))
  }

  function MainWorkOutcome(file: seq<seq<string>>): (outcome: RunOutcome)
  {
    if file == [] then NoHeader
    else if |Parse(file[1..])| < |file| - 1 then Unpackable(|Parse(file[1..])|)
    else Published(|file| - 1)
  }

  /** The queue reset at the start of `main_work`. */
  method ResetQueues(ch: World)
    modifies ch
    ensures ch.trace == old(ch.trace) + Setup
  {
    ch.QueueDelete(TypeQueue);
    ch.QueueDelete(StaleLocationQueue);
    ch.QueueDeclare(TypeQueue, true);
    ch.QueueDeclare(LocationQueue, true);
  }

  /** One iteration of the row loop after a successful unpack: build both messages, then send
      the type message and the location message. */
  method PublishRecord(ch: World, b: Brewery)
    modifies ch
    ensures ch.trace == old(ch.trace) + RowPublishes(b)
  {
    var message1 := TypeMessage(b);
    var message2 := LocationMessage(b);
    SendMessage(ch, TypeQueue, message1);
    SendMessage(ch, LocationQueue, message2);
  }

  /** `main_work`: the queue reset, then the row loop, which stops at the first data row that
      does not unpack. */
  method MainWork(ch: World, file: seq<seq<string>>) returns (outcome: RunOutcome)
    modifies ch
    ensures ch.trace == old(ch.trace) + MainWorkTrace(file)
    ensures outcome == MainWorkOutcome(file)
  {
    ResetQueues(ch);
    if file == [] {
      return NoHeader;
    }
    var rows := file[1..];
    ghost var recs := Parse(rows);
    ghost var reset := ch.trace;
    var k := 0;
    while k < |rows|
      invariant 0 <= k <= |recs|
      invariant ch.trace == reset + Fanout(recs[..k])
    {
      var r := Unpack(rows[k]);
      if r.None? {
        assert recs[..k] == recs;
        AppendAssoc(old(ch.trace), Setup, Fanout(recs));
        return Unpackable(k);
      }
      PublishRecord(ch, r.value);
      FanoutSnoc(recs, k);
      k := k + 1;
    }
    assert recs[..k] == recs;
    AppendAssoc(old(ch.trace), Setup, Fanout(recs));
    return Published(|rows|);
  }

  lemma FanoutSnoc(recs: seq<Brewery>, k: nat)
    requires k < |recs|
    ensures Fanout(recs[..k + 1]) == Fanout(recs[..k]) + RowPublishes(recs[k])
  {
    FanoutConcat(recs[..k], [recs[k]]);
    assert recs[..k + 1] == recs[..k] + [recs[k]];
    assert Fanout([recs[k]]) == RowPublishes(recs[k]) + Fanout([]);
  }

  lemma {:induction false} FanoutConcat(a: seq<Brewery>, b: seq<Brewery>)
    ensures Fanout(a + b) == Fanout(a) + Fanout(b)
  {
    if a == [] {
      assert a + b == b;
    } else {
      FanoutConcat(a[1..], b);
      assert (a + b)[1..] == a[1..] + b;
      calc {
        Fanout(a + b);
        RowPublishes(a[0]) + Fanout(a[1..] + b);
        RowPublishes(a[0]) + (Fanout(a[1..]) + Fanout(b));
        { AppendAssoc(RowPublishes(a[0]), Fanout(a[1..]), Fanout(b)); }
        (RowPublishes(a[0]) + Fanout(a[1..])) + Fanout(b);
      }
    }
  }

  lemma {:induction false} FanoutLength(recs: seq<Brewery>)
    ensures |Fanout(recs)| == 2 * |recs|
  {
    if recs != [] {
      FanoutLength(recs[1..]);
    }
  }

  /** Record k's type publish is at position 2k and its location publish at 2k+1. */
  lemma {:induction false} FanoutAt(recs: seq<Brewery>, k: nat)
    requires k < |recs|
    ensures |Fanout(recs)| == 2 * |recs|
    ensures Fanout(recs)[2 * k] == Send(TypeQueue, TypeMessage(recs[k]))
    ensures Fanout(recs)[2 * k + 1] == Send(LocationQueue, LocationMessage(recs[k]))
  {
    FanoutLength(recs);
    if k > 0 {
      FanoutAt(recs[1..], k - 1);
      assert Fanout(recs) == RowPublishes(recs[0]) + Fanout(recs[1..]);
      assert Fanout(recs)[2 * k] == Fanout(recs[1..])[2 * (k - 1)];
      assert Fanout(recs)[2 * k + 1] == Fanout(recs[1..])[2 * (k - 1) + 1];
    }
  }

  /** Two publishes per record, record by record in input order, the type message first. */
  lemma FanoutShape(recs: seq<Brewery>)
    ensures |Fanout(recs)| == 2 * |recs|
    ensures forall k :: 0 <= k < |recs| ==>
      Fanout(recs)[2 * k] == Send(TypeQueue, TypeMessage(recs[k])) &&
      Fanout(recs)[2 * k + 1] == Send(LocationQueue, LocationMessage(recs[k]))
  {
    FanoutLength(recs);
    forall k | 0 <= k < |recs|
      ensures Fanout(recs)[2 * k] == Send(TypeQueue, TypeMessage(recs[k]))
      ensures Fanout(recs)[2 * k + 1] == Send(LocationQueue, LocationMessage(recs[k]))
    {
      FanoutAt(recs, k);
    }
  }

  /** The publishes one record makes to queue `q`. */
  lemma RowPublishesTo(b: Brewery, q: string)
    ensures Only(PublishesTo(q), RowPublishes(b)) ==
      (if q == TypeQueue then [Send(TypeQueue, TypeMessage(b))] else []) +
      (if q == LocationQueue then [Send(LocationQueue, LocationMessage(b))] else [])
  {
    OnlyShort(PublishesTo(q), RowPublishes(b)[0], RowPublishes(b)[1]);
  }

  /** The publishes to "01-type" are the type messages of the records, one each, in record order. */
  lemma {:induction false} TypePublishes(recs: seq<Brewery>)
    ensures Only(PublishesTo(TypeQueue), Fanout(recs)) ==
      seq(|recs|, k requires 0 <= k < |recs| => Send(TypeQueue, TypeMessage(recs[k])))
  {
    if recs != [] {
      TypePublishes(recs[1..]);
      OnlyConcat(PublishesTo(TypeQueue), RowPublishes(recs[0]), Fanout(recs[1..]));
      RowPublishesTo(recs[0], TypeQueue);
    }
  }

  /** The publishes to "02-location" are the location messages of the records, one each, in
      record order. */
  lemma {:induction false} LocationPublishes(recs: seq<Brewery>)
    ensures Only(PublishesTo(LocationQueue), Fanout(recs)) ==
      seq(|recs|, k requires 0 <= k < |recs| => Send(LocationQueue, LocationMessage(recs[k])))
  {
    if recs != [] {
      LocationPublishes(recs[1..]);
      OnlyConcat(PublishesTo(LocationQueue), RowPublishes(recs[0]), Fanout(recs[1..]));
      RowPublishesTo(recs[0], LocationQueue);
    }
  }

  /** Nothing is published to any queue but the two. */
  lemma {:induction false} NoOtherPublishes(recs: seq<Brewery>, q: string)
    requires q != TypeQueue && q != LocationQueue
    ensures Only(PublishesTo(q), Fanout(recs)) == []
  {
    if recs != [] {
      NoOtherPublishes(recs[1..], q);
      OnlyConcat(PublishesTo(q), RowPublishes(recs[0]), Fanout(recs[1..]));
      RowPublishesTo(recs[0], q);
    }
  }

  /** With every data row well formed, `n` data rows give exactly `2n` publishes and the run
      reports all of them. */
  lemma PublishCount(file: seq<seq<string>>)
    requires |file| >= 1
    requires forall k :: 1 <= k < |file| ==> |file[k]| == FieldCount
    ensures |MainWorkTrace(file)| == |Setup| + 2 * (|file| - 1)
    ensures MainWorkOutcome(file) == Published(|file| - 1)
  {
    var recs := Parse(file[1..]);
    FanoutShape(recs);
  }

  /** A data row without 14 fields stops the run: nothing is published for it or any later
      row, and the run reports the first such row. */
  lemma {:induction false} BadRowStops(rows: seq<seq<string>>, j: nat)
    requires j < |rows| && |rows[j]| != FieldCount
    ensures Parse(rows) == Parse(rows[..j])
    ensures |Parse(rows)| <= j
  {
    if |rows[0]| == FieldCount {
      BadRowStops(rows[1..], j - 1);
      assert rows[1..][..j - 1] == rows[..j][1..];
    } else if j != 0 {
      assert rows[..j][0] == rows[0];
    }
  }

  /** Every publish of a run goes to the default exchange and to a queue the run declared. */
  lemma PublishesRouted(file: seq<seq<string>>)
    ensures forall e :: e in MainWorkTrace(file) && e.BasicPublish? ==>
      e.exchange == "" && e.routingKey in Declared(Setup)
  {
    SetupTopology();
    TableShape();
    if file != [] {
      var recs := Parse(file[1..]);
      FanoutShape(recs);
      forall e | e in Fanout(recs)
        ensures e.BasicPublish? && e.exchange == "" && e.routingKey in {TypeQueue, LocationQueue}
      {
        var i :| 0 <= i < |Fanout(recs)| && Fanout(recs)[i] == e;
        var k := i / 2;
        if i == 2 * k {
          assert e == Send(TypeQueue, TypeMessage(recs[k]));
        } else {
          assert i == 2 * k + 1;
          assert e == Send(LocationQueue, LocationMessage(recs[k]));
        }
      }
    }
  }
}
