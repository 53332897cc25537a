/** The fixed queue names, sink files and callbacks shared by the producer and the consumer. */
module Topology {

  const TypeQueue: string := "01-type"
  const LocationQueue: string := "02-location"

  /** The second name the producer deletes; no component declares or consumes it. */
  const StaleLocationQueue: string := "01-location"

  /** The per-queue sink files the consumer appends to. */
  const TypeSink: string := "consumer1_type.csv"
  const LocationSink: string := "consumer2_location.csv"

  /** The consumer's two message handlers. */
  datatype Callback = TypeCallback | LocationCallback

  /** The consumer's `queues_and_callbacks` table, in list order. */
  const QueuesAndCallbacks: seq<(string, Callback)> :=
    [(TypeQueue, TypeCallback), (LocationQueue, LocationCallback)]

  /** The queue names of a callback table. */
  function QueueNames(table: seq<(string, Callback)>): (names: set<string>)
  {
    set k | 0 <= k < |table| :: table[k].0
  }

  /** The queue names and the sink names are pairwise distinct. */
  lemma DistinctNames()
    ensures TypeQueue != LocationQueue && TypeQueue != StaleLocationQueue && LocationQueue != StaleLocationQueue
    ensures TypeSink != LocationSink
  {
    assert |TypeQueue| == 7 && |LocationQueue| == 11 && |StaleLocationQueue| == 11;
    assert LocationQueue[1] != StaleLocationQueue[1];
    assert |TypeSink| == 18 && |LocationSink| == 22;
  }

  /** The table names each queue once and gives each its own callback. */
  lemma TableShape()
    ensures QueueNames(QueuesAndCallbacks) == {TypeQueue, LocationQueue}
    ensures TypeQueue != LocationQueue
    ensures QueuesAndCallbacks[0].1 != QueuesAndCallbacks[1].1
  {
    DistinctNames();
    assert QueuesAndCallbacks[0].0 == TypeQueue;
    assert QueuesAndCallbacks[1].0 == LocationQueue;
  }
}
