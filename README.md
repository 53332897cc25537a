# Brewery fan-out over RabbitMQ: a Dafny model

This project models the message logic of a small RabbitMQ demo.

The producer (`producer.py`):
- resets the queues: it deletes "01-type" and "01-location", then declares "01-type" and "02-location" as durable;
- reads the brewery CSV and skips its header row;
- unpacks each data row into 14 positional fields;
- publishes two messages per row on the default exchange: a type message to "01-type", then a location message to "02-location".

The consumer (`consumer1.py`) binds one handler to each queue. Each handler:
- upper-cases the message;
- on the location queue only, calls the e-mail collaborator when the message contains "CITY: COLUMBIA, STATE: MISSOURI";
- splits the message on commas and appends it as one row to its own CSV sink;
- acknowledges the delivery.

Its `main` subscribes both queues in table order. Each queue is declared durable, with a prefetch count of one and manual acknowledgement.

Modules:
- `Text`: ASCII `upper`, `split`/`join` and the substring test.
- `Topology`: the queue names, the sink names and the queue/callback table.
- `Effects`: every externally visible effect as an `Event` appended to the `trace` of a `World` object. The effects are broker operations, sink rows, e-mail calls and acknowledgements. A `World` also holds a `Faults` value saying which collaborators raise.
- `Producer`: `main_work` and `send_message` as methods. Each is proved equal to a specification function of its input (`MainWorkTrace`, `MainWorkOutcome`), and that function's properties are proved as lemmas.
- `Consumer`: the two handlers and the registration loop as methods, proved against `HandlerStep` and `Registration`.
- `EndToEnd`: the consumer applied to what the producer publishes. It covers the alert decision on location messages, the columns of the sink rows, and the queue set both sides agree on.

## Model

| member | source | states |
|---|---|---|
| Producer.SendMessage | producer.py:95-106 | publishes the message text unchanged, on exchange "" with the queue name as routing key, and appends nothing else |
| Producer.ResetQueues | producer.py:53-60 | deletes "01-type" and "01-location", then declares "01-type" and "02-location" durable, in that order |
| Producer.SetupTopology | producer.py:53-60 | the declared set is exactly the consumer's queue set; every declare is durable; the deleted set is {"01-type", "01-location"}, so "02-location" is never deleted; all deletes precede all declares |
| Producer.TypeMessageLayout | producer.py:74 | the type message is exactly "Name: " + name + ", Type: " + brewery_type + ", Website: " + website_url: each label at its offset, each field right after its label, and nothing else |
| Producer.LocationMessageLayout | producer.py:75 | the location message is exactly "Name: " + name + ", City: " + city + ", State: " + state_province + ", Country: " + country: each label at its offset, each field right after its label, and nothing else |
| Producer.Unpack | producer.py:71 | unpacking succeeds exactly when the row has 14 fields |
| Producer.UnpackFields | producer.py:71 | unpacking a record's own 14 fields gives that record back |
| Producer.FieldsUnpack | producer.py:71 | a 14-field row is exactly the field list of the record it unpacks to |
| Producer.Parse | producer.py:69-71 | the parsed records are the unpackings of the leading rows, and parsing stops exactly at the first row that does not unpack |
| Producer.PublishRecord | producer.py:73-80 | one iteration publishes the type message to "01-type", then the location message to "02-location" |
| Producer.MainWork | producer.py:50-80 | the channel receives the queue reset followed by the publishes of every parsed row; the outcome is NoHeader for an empty file, Unpackable(k) at the first bad data row, and Published(n) otherwise |
| Producer.PublishCount | producer.py:66-80 | a file whose n data rows all have 14 fields yields exactly 2n publishes after the four reset operations, and ends Published(n) |
| Producer.BadRowStops | producer.py:69-71 | a data row that does not unpack cuts the parse at or before it: nothing after it is parsed or published |
| Producer.FanoutLength | producer.py:69-80 | every record yields exactly two publishes |
| Producer.FanoutAt | producer.py:69-80 | publish 2k is the type message of record k and publish 2k+1 its location message, in file order |
| Producer.FanoutShape | producer.py:69-80 | the whole publish sequence, as a per-position statement over all records |
| Producer.FanoutConcat | producer.py:69-80 | the publishes of two runs of rows are the publishes of their concatenation |
| Producer.TypePublishes | producer.py:74 | the publishes to "01-type" are exactly the type messages of the records, in record order |
| Producer.LocationPublishes | producer.py:75 | the publishes to "02-location" are exactly the location messages of the records, in record order |
| Producer.NoOtherPublishes | producer.py:79-80 | no other queue receives any publish |
| Producer.PublishesRouted | producer.py:106 | every publish goes to exchange "" with a routing key among the declared queues |
| Consumer.CallbackType | consumer1.py:22-39 | the type handler upper-cases, appends the comma-split row to "consumer1_type.csv" and acknowledges its tag; a failing write stops it unacknowledged |
| Consumer.CallbackLocation | consumer1.py:42-71 | the location handler makes the alert call when the upper-cased message contains the pattern, then appends the row to "consumer2_location.csv" and acknowledges; a raising e-mail call or write stops it unacknowledged |
| Consumer.AlertFiresIff | consumer1.py:51 | the location handler's alert test holds exactly when "CITY: COLUMBIA, STATE: MISSOURI" occurs at some index of the upper-cased message |
| Consumer.AlertBodyLayout | consumer1.py:58 | the e-mail body is "Brewery Information: ", then the upper-cased message, then one space, and nothing else |
| Consumer.AckDiscipline | consumer1.py:51-71 | a handler is acknowledged if and only if neither collaborator raised; its acknowledgements are exactly one of its own tag, as the last effect, right after the sink row, and none when it fails |
| Consumer.HandlerEffects | consumer1.py:27-65 | a handler's own sink gets the upper-cased comma-split row exactly when it is acknowledged, and the other sink gets nothing; the e-mail calls are one call with subject "ALERT! Brewery found in Columbia" and body "Brewery Information: " + message + " " when the location handler's pattern matches, and none otherwise or from the type handler |
| Consumer.SinkRowJoins | consumer1.py:28-33 | the row joined back with commas is the upper-cased message, and the row is never empty |
| Consumer.Redelivery | consumer1.py:22-71 | handlers keep no state: a redelivery of the same body ends the same way, repeats the same e-mail calls, and when acknowledged appends the same row again and acknowledges both tags in order |
| Consumer.Run | consumer1.py:90-110 | the registration loop performs, entry by entry, a durable declare, a prefetch of 1 and a consume without auto-ack |
| Consumer.RegistrationShape | consumer1.py:90-110 | entry k of the table occupies positions 3k to 3k+2 of the registration, in list order |
| Consumer.RunSubscribes | consumer1.py:78-110 | `main` subscribes exactly "01-type" with the type handler, then "02-location" with the location handler, each durable, prefetch 1, auto_ack False |
| Topology.TableShape | consumer1.py:78-81 | the table names the two queues, each once and with its own callback |
| Text.Upper | consumer1.py:28 | upper-casing keeps the length |
| Text.UpperConcat | consumer1.py:28 | upper-casing distributes over concatenation |
| Text.UpperKeepsOther | consumer1.py:28 | upper-casing neither adds nor removes a non-letter such as ':' or ',' |
| Text.Split | consumer1.py:33 | a split is never empty, and no part holds the separator |
| Text.JoinSplit | consumer1.py:33 | joining the parts of a split gives back the split string |
| Text.SplitJoin | consumer1.py:33 | splitting a join of separator-free parts gives back the parts |
| Text.SplitAt | consumer1.py:65 | splitting at one separator splits each side on its own |
| Text.ContainsIff | consumer1.py:51 | the substring test holds if and only if the pattern occurs at some index |
| EndToEnd.UpperLocationMessage | producer.py:75 | the upper-cased location message is "NAME: ", ", CITY: ", ", STATE: ", ", COUNTRY: " with the upper-cased fields between them |
| EndToEnd.UpperTypeMessage | producer.py:74 | the upper-cased type message is "NAME: ", ", TYPE: ", ", WEBSITE: " with the upper-cased fields between them |
| EndToEnd.ColumbiaAlerts | consumer1.py:51 | a city that upper-cases to "COLUMBIA" and a state whose upper-case starts with "MISSOURI" raise the alert, whatever the other fields hold |
| EndToEnd.LocationAlert | consumer1.py:51 | with no colon in name, city, state or country, the alert fires on the producer's location message if and only if the city upper-cases to "COLUMBIA" and the state's upper-case starts with "MISSOURI" |
| EndToEnd.ShoutAlert | consumer1.py:51 | the same equivalence on the upper-cased message itself |
| EndToEnd.PatternOnlyAtCity | consumer1.py:51 | with colon-free fields, the pattern can only start at the city label, and then the city has 8 characters |
| EndToEnd.LocationDelivery | consumer1.py:51-59 | with no colon in name, city, state or country, the location handler on the producer's location message makes exactly one e-mail call, with the fixed subject and the upper-cased message in the body, in the Columbia, Missouri case and none otherwise |
| EndToEnd.TypeDelivery | consumer1.py:22-39 | the type handler never calls the e-mail collaborator on a type message |
| EndToEnd.TypeRow | consumer1.py:28-33 | with comma-free fields, the type sink row is the three upper-cased columns "NAME: …", " TYPE: …", " WEBSITE: …" |
| EndToEnd.LocationRow | consumer1.py:63-65 | with comma-free fields, the location sink row is the four upper-cased columns "NAME: …", " CITY: …", " STATE: …", " COUNTRY: …" |
| EndToEnd.SubscribedAreDeclared | consumer1.py:90-110 | the queues the consumer declares, and the queues it starts consuming from, are each exactly the queues the producer declares (producer.py:59-60) |

## Left out

- The broker is not modelled. This covers connections, channels, `start_consuming`, the delivery loop, redelivery and prefetch enforcement. Broker operations are recorded as events; `Redelivery` only states what a handler does when it is given the same body twice.
- `time.sleep`, `print`, logging, `sys.exit` codes and the connection close in `finally` are left out. They are pacing, I/O and process control.
- CSV quoting is left out. Input rows are taken as already-split field lists, and a sink row is recorded as the field list handed to `writerow`.
- `str.upper` and `bytes.decode` are modelled on ASCII only. A body is taken to be the text it decodes to.
- The e-mail module is not part of this model. A call is recorded as its (subject, body) pair, and whether it raises is a parameter.
- Transport errors and `AMQPConnectionError` are not modelled. Their only effect in the source is to log and exit.
- The startup check that both sides use the same queue names is not modelled: the source has none. `SetupTopology` and `SubscribedAreDeclared` prove instead that the names agree for the fixed tables.
- A failed sink write is modelled as writing nothing. A partly written row is not modelled.
- EndToEnd.LocationAlert: the "only Columbia, Missouri" direction is proved only when the name, city, state and country contain no colon. With a colon, a field can itself spell out the pattern.
- EndToEnd.LocationDelivery: the "none otherwise" half rests on EndToEnd.LocationAlert, so it too is proved only when the name, city, state and country contain no colon. A name such as "x, city: columbia, state: missouri" raises the alert for any city.
- EndToEnd.TypeRow and EndToEnd.LocationRow: the column layout is proved only for comma-free fields. A comma inside a field splits it into further columns, as the source does.
- Producer.MainWork: the deletion of "01-location", while "02-location" is declared, is modelled as written. So a rerun does not purge "02-location".
