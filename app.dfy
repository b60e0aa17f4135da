/** The bridge's mutable state: the global session flag and the reader
    handle, changed by the bus's message callback and the reader's
    exception handler. */
module App {
  import opened Values
  import opened Device
  import opened Commands
  import opened Handler

  class Bridge {
    /** Whether a read is believed to be running. */
    var readActive: bool
    const reader: Reader
    /** Every event handled so far, in order. */
    ghost var history: seq<Event>

    /** The flag and the reader's call trace are those of the events seen. */
    ghost predicate Valid()
      reads this, reader
    {
      var s := Run(reader.rejects, history);
      readActive == s.active && reader.trace == s.trace
    }

    /** Process start: the flag is false and a fresh reader handle, on which
        the driver rejects `rejects`, has seen no calls. */
    constructor (rejects: set<ReaderCall>)
      ensures Valid() && fresh(reader)
      ensures !readActive && reader.trace == [] && reader.rejects == rejects && history == []
    {
      readActive := false;
      reader := new Reader(rejects);
      history := [];
    }

    /** The bus's message callback. Every exception raised while handling a
        start is caught and only reported, as `reported`. */
    method OnMessage(topic: string, payload: Payload) returns (reported: Option<StartError>)
      requires Valid()
      modifies this, reader
      ensures Valid() && history == old(history) + [Message(topic, payload)]
      ensures var r := Handle(topic, payload, old(readActive), reader.rejects);
              reader.trace == old(reader.trace) + r.calls && readActive == r.active && reported == r.error
    {
      RunSnoc(reader.rejects, history, Message(topic, payload));
      history := history + [Message(topic, payload)];
      reported := None;
      if topic == StartTopic {
        var decoded := Decode(payload);
        if decoded.Failure? {
          reported := Some(decoded.error);
          return;
        }
        var p := ParamsOf(decoded.value);
        if readActive {
          var stopped := reader.StopReading();
          if !stopped {
            reported := Some(DriverRaised(ReaderCall.StopReading));
            return;
          }
          readActive := false;
        }
        var regionSet := reader.SetRegion(p.region);
        if !regionSet {
          reported := Some(DriverRaised(ReaderCall.SetRegion(p.region)));
          return;
        }
        var planSet := reader.SetReadPlan(p.antennas, Gen2, p.power, p.filter, p.tid);
        if !planSet {
          reported := Some(DriverRaised(ReaderCall.SetReadPlan(p.antennas, Gen2, p.power, p.filter, p.tid)));
          return;
        }
        // the callback argument names a global that is never defined
        reported := Some(NameNotDefined(ExceptionCallbackName));
      } else if topic == StopTopic {
        readActive := false;
      }
    }

    /** The handler meant for the reader's exceptions. */
    method ExceptionHandler()
      requires Valid()
      modifies this
      ensures Valid() && history == old(history) + [ReaderException]
      ensures !readActive
    {
      RunSnoc(reader.rejects, history, ReaderException);
      history := history + [ReaderException];
      readActive := false;
    }
  }

  /** Whatever sequence of messages and exceptions a bridge has handled, its
      flag is false. */
  lemma BridgeFlagFalse(b: Bridge)
    requires b.Valid()
    ensures !b.readActive
  {
    RunFlagFalse(b.reader.rejects, b.history);
  }

  /** Whatever a bridge has handled, it has never stopped the reader nor
      registered an exception handler on it. */
  lemma BridgeTrace(b: Bridge)
    requires b.Valid()
    ensures ReachableTrace(b.reader.trace)
    ensures StopReading !in b.reader.trace && EnableExceptionHandler !in b.reader.trace
  {
    RunTrace(b.reader.rejects, b.history);
  }
}
