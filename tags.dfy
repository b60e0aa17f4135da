/** The record published for every tag the reader observes. */
module Tags {
  import opened Values

  const OutputTopic: string := "reader/output"

  /** What the driver reports about one tag read. */
  datatype Observation = Observation(epc: string, antenna: int, readCount: int, rssi: int)

  /** `int(t)` on a float: rounds toward zero. */
  function Truncate(t: real): (n: int)
    ensures 0.0 <= t ==> n as real <= t < n as real + 1.0
    ensures t < 0.0 ==> n as real - 1.0 < t <= n as real
  {
    if t >= 0.0 then t.Floor else -((-t).Floor)
  }

  /** The output record for `obs`, read at wall-clock time `now` (seconds
      since the epoch): exactly five keys, the time as whole seconds and the
      other four copied from the observation. */
  function TagRecord(obs: Observation, now: real): (rec: map<string, Json>)
    ensures rec.Keys == {"timestamp", "epc", "antenna", "read_count", "rssi"}
    ensures rec["timestamp"] == JInt(Truncate(now))
    ensures rec["epc"] == JStr(obs.epc) && rec["antenna"] == JInt(obs.antenna)
    ensures rec["read_count"] == JInt(obs.readCount) && rec["rssi"] == JInt(obs.rssi)
  {
    map["timestamp" := JInt(Truncate(now)), "epc" := JStr(obs.epc), "antenna" := JInt(obs.antenna),
        "read_count" := JInt(obs.readCount), "rssi" := JInt(obs.rssi)]
  }

  /** A message handed to the bus for publication. */
  datatype Publication = Publication(topic: string, body: map<string, Json>)

  /** The reader's tag callback with the intended record: the record of
      `obs`, on the output topic. */
  function ReadingCallback(obs: Observation, now: real): (m: Publication)
    ensures m.topic == "reader/output" && m.body.Keys == {"timestamp", "epc", "antenna", "read_count", "rssi"}
    ensures m.body == TagRecord(obs, now)
  {
    Publication(OutputTopic, TagRecord(obs, now))
  }

  /** The error the tag callback raises as written. */
  datatype TagError = UnboundLocal(name: string)

  /** The tag callback's record as written: the dictionary reads `antenna`,
      `read_count` and `rssi` from `tag`, the local variable it is about to
      be bound to, so building it raises before any record exists. */
  function TagRecordAsWritten(obs: Observation, now: real): (r: Result<map<string, Json>, TagError>)
    ensures r.Failure? && r.error.name == "tag"
  {
    Failure(UnboundLocal("tag"))
  }

  /** On the example observation, the code as written publishes nothing,
      while the intended mapping gives the documented record. */
  lemma TagRecordDiscrepancy()
    ensures TagRecordAsWritten(ExampleObservation, 1700000000.0).Failure?
    ensures TagRecord(ExampleObservation, 1700000000.0)
         == map["timestamp" := JInt(1700000000), "epc" := JStr("E200001B"), "antenna" := JInt(1),
                "read_count" := JInt(3), "rssi" := JInt(-42)]
  {
  }

  const ExampleObservation: Observation := Observation("E200001B", 1, 3, -42)

  /** A capture time at or after the epoch is published as its whole
      seconds, e.g. 1700000000.75 as 1700000000. */
  lemma TimestampWholeSeconds(obs: Observation, now: real)
    requires 0.0 <= now
    ensures TagRecord(obs, now)["timestamp"] == JInt(now.Floor)
    ensures TagRecord(obs, 1700000000.75)["timestamp"] == JInt(1700000000)
  {
  }
}
