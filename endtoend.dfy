/** The producer's templates composed with the consumer's handlers: what the consumer does with
    the messages the producer publishes, and the queue set both sides agree on. */
module EndToEnd {
  import opened Text
  import opened Topology
  import opened Effects
  import opened Producer
  import opened Consumer

  /** The upper-cased location message, for already upper-cased fields. */
  function LocationShout(name: string, city: string, state: string, country: string): (message: string)
  {
    "NAME: " + name + ", CITY: " + city + ", STATE: " + state + ", COUNTRY: " + country
  }

  /** The upper-cased type message, for already upper-cased fields. */
  function TypeShout(name: string, breweryType: string, website: string): (message: string)
  {
    "NAME: " + name + ", TYPE: " + breweryType + ", WEBSITE: " + website
  }

  /** Upper-casing the location message upper-cases each field and the fixed labels. */
  lemma UpperLocationMessage(b: Brewery)
    ensures Upper(LocationMessage(b)) ==
      LocationShout(Upper(b.name), Upper(b.city), Upper(b.stateProvince), Upper(b.country))
  {
    var p1 := "Name: " + b.name + ", City: ";
    var p2 := p1 + b.city + ", State: ";
    var p3 := p2 + b.stateProvince + ", Country: ";
    assert Upper("Name: ") == "NAME: ";
    assert Upper(", City: ") == ", CITY: ";
    assert Upper(", State: ") == ", STATE: ";
    assert Upper(", Country: ") == ", COUNTRY: ";
    UpperConcat("Name: ", b.name);
    UpperConcat("Name: " + b.name, ", City: ");
    UpperConcat(p1, b.city);
    UpperConcat(p1 + b.city, ", State: ");
    UpperConcat(p2, b.stateProvince);
    UpperConcat(p2 + b.stateProvince, ", Country: ");
    UpperConcat(p3, b.country);
  }

  /** Upper-casing the type message upper-cases each field and the fixed labels. */
  lemma UpperTypeMessage(b: Brewery)
    ensures Upper(TypeMessage(b)) == TypeShout(Upper(b.name), Upper(b.breweryType), Upper(b.websiteUrl))
  {
    var p1 := "Name: " + b.name + ", Type: ";
    var p2 := p1 + b.breweryType + ", Website: ";
    assert Upper("Name: ") == "NAME: ";
    assert Upper(", Type: ") == ", TYPE: ";
    assert Upper(", Website: ") == ", WEBSITE: ";
    UpperConcat("Name: ", b.name);
    UpperConcat("Name: " + b.name, ", Type: ");
    UpperConcat(p1, b.breweryType);
    UpperConcat(p1 + b.breweryType, ", Website: ");
    UpperConcat(p2, b.websiteUrl);
  }

  /** Where the colons of an upper-cased location message are, when no field holds one: the
      four label colons, at fixed offsets from the field lengths. */
  lemma ShoutColons(n: string, c: string, s: string, k: string, j: int)
    requires ':' !in n && ':' !in c && ':' !in s && ':' !in k
    requires 0 <= j < |LocationShout(n, c, s, k)| && LocationShout(n, c, s, k)[j] == ':'
    ensures j == 4 || j == 12 + |n| || j == 21 + |n| + |c| || j == 32 + |n| + |c| + |s|
  {
  }

  /** The alert pattern is the city label, "COLUMBIA", the state label and "MISSOURI". */
  lemma PatternWords()
    ensures AlertPattern == "CITY: " + "COLUMBIA" + ", STATE: " + "MISSOURI"
  {
  }

  /** A city of "COLUMBIA" followed by a state that starts with "MISSOURI" puts the alert
      pattern in the upper-cased location message, whatever the other fields hold. */
  lemma ShoutHasPattern(n: string, c: string, s: string, k: string)
    requires c == "COLUMBIA" && StartsWith(s, "MISSOURI")
    ensures Contains(LocationShout(n, c, s, k), AlertPattern)
  {
    var m := LocationShout(n, c, s, k);
    var i := 8 + |n|;
    PatternWords();
    forall j | 0 <= j < |AlertPattern|
      ensures m[i + j] == AlertPattern[j]
    {
      if 23 <= j {
        assert s[j - 23] == s[..8][j - 23];
      }
    }
    assert m[i..i + |AlertPattern|] == AlertPattern;
    assert OccursAt(m, AlertPattern, i);
    ContainsIff(m, AlertPattern);
  }

  /** With no colon in any field, the only place the alert pattern can start is the city label. */
  lemma PatternOnlyAtCity(n: string, c: string, s: string, k: string, i: int)
    requires ':' !in n && ':' !in c && ':' !in s && ':' !in k
    requires OccursAt(LocationShout(n, c, s, k), AlertPattern, i)
    ensures i == 8 + |n| && |c| == 8
  {
    var m := LocationShout(n, c, s, k);
    assert m[i + 4] == AlertPattern[4] == ':';
    assert m[i] == AlertPattern[0] == 'C';
    ShoutColons(n, c, s, k, i + 4);
    if i + 4 == 12 + |n| {
      assert m[i + 21] == AlertPattern[21] == ':';
      ShoutColons(n, c, s, k, i + 21);
    }
  }

  /** An occurrence of the alert pattern at the city label spells out the city and the start
      of the state. */
  lemma PatternAtCity(n: string, c: string, s: string, k: string)
    requires |c| == 8
    requires OccursAt(LocationShout(n, c, s, k), AlertPattern, 8 + |n|)
    ensures c == "COLUMBIA" && StartsWith(s, "MISSOURI")
  {
    var m := LocationShout(n, c, s, k);
    var i := 8 + |n|;
    forall j | 0 <= j < 31 ensures m[i + j] == AlertPattern[j] {
      assert m[i..i + 31][j] == m[i + j];
    }
    PatternWords();
    forall j | 0 <= j < 8 ensures c[j] == "COLUMBIA"[j] {
      assert m[i + 6 + j] == c[j];
    }
    assert m[i + 23 + |s|] == ',';
    forall j | 0 <= j < 8 ensures s[..8][j] == "MISSOURI"[j] {
      assert m[i + 23 + j] == s[j];
    }
  }

  /** With no colon in any field, the upper-cased location message holds the alert pattern
      exactly when the city is "COLUMBIA" and the state starts with "MISSOURI". */
  lemma ShoutAlert(n: string, c: string, s: string, k: string)
    requires ':' !in n && ':' !in c && ':' !in s && ':' !in k
    ensures Contains(LocationShout(n, c, s, k), AlertPattern) <==>
      c == "COLUMBIA" && StartsWith(s, "MISSOURI")
  {
    var m := LocationShout(n, c, s, k);
    ContainsIff(m, AlertPattern);
    if Contains(m, AlertPattern) {
      var i :| OccursAt(m, AlertPattern, i);
      PatternOnlyAtCity(n, c, s, k, i);
      PatternAtCity(n, c, s, k);
    }
    if c == "COLUMBIA" && StartsWith(s, "MISSOURI") {
      ShoutHasPattern(n, c, s, k);
    }
  }

  /** The producer's location message raises the consumer's alert when its city upper-cases to
      "COLUMBIA" and its state upper-cases to something starting with "MISSOURI". */
  lemma ColumbiaAlerts(b: Brewery)
    requires Upper(b.city) == "COLUMBIA" && StartsWith(Upper(b.stateProvince), "MISSOURI")
    ensures AlertFires(LocationMessage(b))
  {
    UpperLocationMessage(b);
    ShoutHasPattern(Upper(b.name), Upper(b.city), Upper(b.stateProvince), Upper(b.country));
  }

  /** With no colon in the name, city, state or country, the pattern cannot straddle fields, so
      the alert fires on the producer's location message exactly for the Columbia, Missouri
      case: the same city with another state raises nothing. */
  lemma LocationAlert(b: Brewery)
    requires ':' !in b.name && ':' !in b.city && ':' !in b.stateProvince && ':' !in b.country
    ensures AlertFires(LocationMessage(b)) <==>
      Upper(b.city) == "COLUMBIA" && StartsWith(Upper(b.stateProvince), "MISSOURI")
  {
    UpperLocationMessage(b);
    UpperKeepsOther(b.name, ':');
    UpperKeepsOther(b.city, ':');
    UpperKeepsOther(b.stateProvince, ':');
    UpperKeepsOther(b.country, ':');
    ShoutAlert(Upper(b.name), Upper(b.city), Upper(b.stateProvince), Upper(b.country));
  }

  /** The location handler on the producer's location message: one e-mail call, with the fixed
      subject and the upper-cased message in the body, exactly in the Columbia, Missouri case,
      and none otherwise, whatever the sink and the mail server do. */
  lemma LocationDelivery(b: Brewery, f: Faults, tag: nat)
    requires ':' !in b.name && ':' !in b.city && ':' !in b.stateProvince && ':' !in b.country
    ensures Only(EmailCalls, HandlerStep(LocationCallback, f, tag, LocationMessage(b)).events) ==
      if Upper(b.city) == "COLUMBIA" && StartsWith(Upper(b.stateProvince), "MISSOURI")
      then [EmailAlert(AlertSubject, AlertBody(Upper(LocationMessage(b))))]
      else []
  {
    HandlerEffects(LocationCallback, f, tag, LocationMessage(b));
    LocationAlert(b);
  }

  /** The type handler on the producer's type message never calls the e-mail collaborator, even
      for a Columbia, Missouri brewery. */
  lemma TypeDelivery(b: Brewery, f: Faults, tag: nat)
    ensures Only(EmailCalls, HandlerStep(TypeCallback, f, tag, TypeMessage(b)).events) == []
  {
    HandlerEffects(TypeCallback, f, tag, TypeMessage(b));
  }

  /** An upper-cased type message whose fields hold no comma splits into one column per label. */
  lemma TypeShoutColumns(n: string, t: string, w: string)
    requires ',' !in n && ',' !in t && ',' !in w
    ensures Split(TypeShout(n, t, w), ',') == ["NAME: " + n, " TYPE: " + t, " WEBSITE: " + w]
  {
    var p0, p1, p2 := "NAME: " + n, " TYPE: " + t, " WEBSITE: " + w;
    var b1 := "NAME: " + n + ", TYPE: " + t;
    assert ", TYPE: " == [','] + " TYPE: ";
    assert ", WEBSITE: " == [','] + " WEBSITE: ";
    CommaLabel(p0, " TYPE: ", t);
    CommaLabel(b1, " WEBSITE: ", w);
    SplitAt(p0, p1, ',');
    SplitAt(b1, p2, ',');
    SplitPlain(p0, ',');
    SplitPlain(p1, ',');
    SplitPlain(p2, ',');
  }

  /** A label that starts with a comma, moved behind the comma that starts it. */
  lemma CommaLabel(x: string, word: string, v: string)
    ensures x + ([','] + word) + v == x + [','] + (word + v)
  {
  }

  /** With no comma in the fields it shows, the type message lands in the sink as three
      columns, one per label, upper-cased. */
  lemma TypeRow(b: Brewery)
    requires ',' !in b.name && ',' !in b.breweryType && ',' !in b.websiteUrl
    ensures SinkRow(TypeMessage(b)) ==
      ["NAME: " + Upper(b.name), " TYPE: " + Upper(b.breweryType), " WEBSITE: " + Upper(b.websiteUrl)]
  {
    UpperTypeMessage(b);
    UpperKeepsOther(b.name, ',');
    UpperKeepsOther(b.breweryType, ',');
    UpperKeepsOther(b.websiteUrl, ',');
    TypeShoutColumns(Upper(b.name), Upper(b.breweryType), Upper(b.websiteUrl));
  }

  /** The name, city and state part of an upper-cased location message splits into one
      column per label when those fields hold no comma. */
  lemma LocationPrefixColumns(n: string, c: string, s: string)
    requires ',' !in n && ',' !in c && ',' !in s
    ensures Split("NAME: " + n + ", CITY: " + c + ", STATE: " + s, ',') ==
      ["NAME: " + n, " CITY: " + c, " STATE: " + s]
  {
    var p0, p1, p2 := "NAME: " + n, " CITY: " + c, " STATE: " + s;
    var b1 := "NAME: " + n + ", CITY: " + c;
    assert ", CITY: " == [','] + " CITY: ";
    assert ", STATE: " == [','] + " STATE: ";
    CommaLabel(p0, " CITY: ", c);
    CommaLabel(b1, " STATE: ", s);
    SplitAt(p0, p1, ',');
    SplitAt(b1, p2, ',');
    SplitPlain(p0, ',');
    SplitPlain(p1, ',');
    SplitPlain(p2, ',');
  }

  /** An upper-cased location message whose fields hold no comma splits into one column per
      label. */
  lemma LocationShoutColumns(n: string, c: string, s: string, k: string)
    requires ',' !in n && ',' !in c && ',' !in s && ',' !in k
    ensures Split(LocationShout(n, c, s, k), ',') ==
      ["NAME: " + n, " CITY: " + c, " STATE: " + s, " COUNTRY: " + k]
  {
    var b2 := "NAME: " + n + ", CITY: " + c + ", STATE: " + s;
    var p3 := " COUNTRY: " + k;
    LocationPrefixColumns(n, c, s);
    assert ", COUNTRY: " == [','] + " COUNTRY: ";
    CommaLabel(b2, " COUNTRY: ", k);
    SplitAt(b2, p3, ',');
    SplitPlain(p3, ',');
  }

  /** With no comma in the fields it shows, the location message lands in the sink as four
      columns, one per label, upper-cased. */
  lemma LocationRow(b: Brewery)
    requires ',' !in b.name && ',' !in b.city && ',' !in b.stateProvince && ',' !in b.country
    ensures SinkRow(LocationMessage(b)) ==
      ["NAME: " + Upper(b.name), " CITY: " + Upper(b.city),
       " STATE: " + Upper(b.stateProvince), " COUNTRY: " + Upper(b.country)]
  {
    UpperLocationMessage(b);
    UpperKeepsOther(b.name, ',');
    UpperKeepsOther(b.city, ',');
    UpperKeepsOther(b.stateProvince, ',');
    UpperKeepsOther(b.country, ',');
    LocationShoutColumns(Upper(b.name), Upper(b.city), Upper(b.stateProvince), Upper(b.country));
  }

  /** The queues a trace starts consuming from. */
  function Subscribed(es: seq<Event>): (queues: set<string>)
  {
    set e | e in es && e.BasicConsume? :: e.queue
  }

  /** The queues the consumer declares, and the queues it consumes from, are exactly the
      queues the producer declares. */
  lemma SubscribedAreDeclared()
    ensures Declared(Registration(QueuesAndCallbacks)) == Declared(Setup)
    ensures Subscribed(Registration(QueuesAndCallbacks)) == Declared(Setup)
  {
    RunSubscribes();
    SetupTopology();
    TableShape();
    var r := Registration(QueuesAndCallbacks);
    assert r[0].queue == TypeQueue && r[3].queue == LocationQueue;
    assert r[2].queue == TypeQueue && r[5].queue == LocationQueue;
  }
}
