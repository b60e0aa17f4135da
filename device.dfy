/** The RFID reader as the bridge sees it: an opaque device that records
    every call made on it and raises on the calls it rejects. */
module Device {
  import opened Values

  /** The protocol name passed to every read plan. */
  const Gen2: string := "GEN2"

  /** One call on the reader, with its arguments as the bridge passed them. */
  datatype ReaderCall =
    | StopReading
    | SetRegion(region: Json)
    | SetReadPlan(antennas: Json, protocol: string, power: Json, filter: Json, useTid: Json)
    | EnableExceptionHandler

  /** The reader handle. `trace` is every call issued so far, in order,
      including calls that raised; `rejects` are the calls on which the
      driver raises an exception instead of completing. */
  class Reader {
    var trace: seq<ReaderCall>
    const rejects: set<ReaderCall>

    constructor (rejects: set<ReaderCall>)
      ensures trace == [] && this.rejects == rejects
    {
      trace := [];
      this.rejects := rejects;
    }

    /** Issues `c`; `ok` is false when the driver raised. */
    method Issue(c: ReaderCall) returns (ok: bool)
      modifies this`trace
      ensures trace == old(trace) + [c]
      ensures ok <==> c !in rejects
    {
      trace := trace + [c];
      ok := c !in rejects;
    }

    method StopReading() returns (ok: bool)
      modifies this`trace
      ensures trace == old(trace) + [ReaderCall.StopReading]
      ensures ok <==> ReaderCall.StopReading !in rejects
    {
      ok := Issue(ReaderCall.StopReading);
    }

    method SetRegion(region: Json) returns (ok: bool)
      modifies this`trace
      ensures trace == old(trace) + [ReaderCall.SetRegion(region)]
      ensures ok <==> ReaderCall.SetRegion(region) !in rejects
    {
      ok := Issue(ReaderCall.SetRegion(region));
    }

    method SetReadPlan(antennas: Json, protocol: string, power: Json, filter: Json, useTid: Json) returns (ok: bool)
      modifies this`trace
      ensures trace == old(trace) + [ReaderCall.SetReadPlan(antennas, protocol, power, filter, useTid)]
      ensures ok <==> ReaderCall.SetReadPlan(antennas, protocol, power, filter, useTid) !in rejects
    {
      ok := Issue(ReaderCall.SetReadPlan(antennas, protocol, power, filter, useTid));
    }
  }
}
