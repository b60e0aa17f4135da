/** What one inbound message and one reader exception do to the session
    flag and to the reader, as pure functions of the flag before, and what
    sequences of such events can reach from the initial state. */
module Handler {
  import opened Values
  import opened Device
  import opened Commands

  const StartTopic: string := "reader/start"
  const StopTopic: string := "reader/stop"

  /** The global name the start command passes as the reader's exception
      callback; no definition of it exists. */
  const ExceptionCallbackName: string := "exception_callback"

  /** The effect of handling one message: the reader calls issued (in order,
      the last one included when it raised), the session flag afterwards and
      the error the handler caught and reported, if any. */
  datatype Outcome = Outcome(calls: seq<ReaderCall>, active: bool, error: Option<StartError>)

  /** The reader calls a start command intends to make, in order: stop the
      running read if the flag says one runs, set the region, set the read
      plan. */
  function Planned(p: ReadParams, active: bool): seq<ReaderCall>
  {
    (if active then [StopReading] else [])
    + [SetRegion(p.region), SetReadPlan(p.antennas, Gen2, p.power, p.filter, p.tid)]
  }

  /** The calls actually issued when `cs` is attempted in order and the
      first call that raises ends the attempt. */
  function CutAtRejection(cs: seq<ReaderCall>, rejects: set<ReaderCall>): (issued: seq<ReaderCall>)
    ensures issued <= cs
    ensures forall i :: 0 <= i < |issued| - 1 ==> issued[i] !in rejects
    ensures issued == cs || (issued != [] && issued[|issued| - 1] in rejects)
  {
    if cs == [] then []
    else if cs[0] in rejects then [cs[0]]
    else [cs[0]] + CutAtRejection(cs[1..], rejects)
  }

  /** The start branch once the payload has been decoded into `p`. */
  function Start(p: ReadParams, active: bool, rejects: set<ReaderCall>): (r: Outcome)
    ensures r.calls <= Planned(p, active) && r.calls != []
    ensures r.active <==> active && StopReading in rejects
    ensures r.error.Some?
  {
    var region := SetRegion(p.region);
    var plan := SetReadPlan(p.antennas, Gen2, p.power, p.filter, p.tid);
    if active && StopReading in rejects then
      Outcome([StopReading], true, Some(DriverRaised(StopReading)))
    else
      var stopped := if active then [StopReading] else [];
      if region in rejects then
        Outcome(stopped + [region], false, Some(DriverRaised(region)))
      else if plan in rejects then
        Outcome(stopped + [region, plan], false, Some(DriverRaised(plan)))
      else
        // registering the exception handler evaluates an undefined name
        Outcome(stopped + [region, plan], false, Some(NameNotDefined(ExceptionCallbackName)))
  }

  /** Handling of one message on `topic` when the session flag is `active`.
      The handler never sets the flag, and it touches the reader only for a
      start command. */
  function Handle(topic: string, payload: Payload, active: bool, rejects: set<ReaderCall>): (r: Outcome)
    ensures r.active ==> active
    ensures topic != StartTopic ==> r.calls == [] && r.error == None
    ensures |r.calls| <= 3
  {
    if topic == StartTopic then
      match Decode(payload)
      case Failure(e) => Outcome([], active, Some(e))
      case Success(fields) => Start(ParamsOf(fields), active, rejects)
    else if topic == StopTopic then
      Outcome([], false, None)
    else
      Outcome([], active, None)
  }

  /** The session as a whole: the flag and every reader call so far. */
  datatype Session = Session(active: bool, trace: seq<ReaderCall>)

  const Initial: Session := Session(false, [])

  /** Events that reach the bridge: a bus message, or the reader invoking the
      exception handler. */
  datatype Event = Message(topic: string, payload: Payload) | ReaderException

  /** The reader's exception handler: clear the flag, touch nothing else. */
  function OnReaderException(s: Session): (s': Session)
    ensures !s'.active && s'.trace == s.trace
  {
    s.(active := false)
  }

  /** One event applied to the session: the trace only grows, by at most
      three calls, and the flag is never set. */
  function Step(s: Session, e: Event, rejects: set<ReaderCall>): (s': Session)
    ensures s.trace <= s'.trace && |s'.trace| <= |s.trace| + 3
    ensures s'.active ==> s.active
  {
    match e
    case Message(topic, payload) =>
      var r := Handle(topic, payload, s.active, rejects);
      Session(r.active, s.trace + r.calls)
    case ReaderException => OnReaderException(s)
  }

  /** The session after `events`, in order, starting from the initial state. */
  function Run(rejects: set<ReaderCall>, events: seq<Event>): (s: Session)
    ensures |s.trace| <= 3 * |events|
  {
    if events == [] then Initial
    else Step(Run(rejects, events[..|events| - 1]), events[|events| - 1], rejects)
  }

  lemma RunSnoc(rejects: set<ReaderCall>, events: seq<Event>, e: Event)
    ensures Run(rejects, events + [e]) == Step(Run(rejects, events), e, rejects)
  {
  }

  // ----- the start command -----

  /** A decoded start issues its planned calls in order, up to and including
      the first one the driver raises on, and no others. */
  lemma StartFollowsPlan(p: ReadParams, active: bool, rejects: set<ReaderCall>)
    ensures Start(p, active, rejects).calls == CutAtRejection(Planned(p, active), rejects)
  {
  }

  /** A decoded start sets the region before the read plan, passes the
      payload's settings to them, and always names the GEN2 protocol. */
  lemma StartCallOrder(fields: map<string, Json>, active: bool, rejects: set<ReaderCall>)
    ensures var r := Handle(StartTopic, Decoded(JObject(fields)), active, rejects);
            var p := ParamsOf(fields);
            && (forall i :: 0 <= i < |r.calls| && r.calls[i].SetReadPlan? ==>
                  i > 0 && r.calls[i - 1] == SetRegion(p.region)
                  && r.calls[i] == SetReadPlan(p.antennas, "GEN2", p.power, p.filter, p.tid))
            && (!(active && StopReading in rejects) ==> SetRegion(p.region) in r.calls)
            && (SetRegion(p.region) !in rejects && !(active && StopReading in rejects) ==>
                  SetReadPlan(p.antennas, "GEN2", p.power, p.filter, p.tid) in r.calls)
  {
  }

  /** A start stops the reader first exactly when the flag says a read is
      running; the stop is the first call, and the flag is cleared unless
      the stop itself raised. */
  lemma StopBeforeReconfigure(fields: map<string, Json>, active: bool, rejects: set<ReaderCall>)
    ensures var r := Handle(StartTopic, Decoded(JObject(fields)), active, rejects);
            && (StopReading in r.calls <==> active)
            && (active ==> r.calls[0] == StopReading)
            && (r.active <==> active && StopReading in rejects)
  {
  }

  /** A payload that does not decode, or decodes to something other than an
      object, makes no reader call and leaves the flag as it was. */
  lemma MalformedPayload(payload: Payload, active: bool, rejects: set<ReaderCall>)
    requires !(payload.Decoded? && payload.doc.JObject?)
    ensures var r := Handle(StartTopic, payload, active, rejects);
            r.calls == [] && r.active == active
            && r.error == Some(if payload.Malformed? then JsonDecodeError else NoGetAttribute)
  {
  }

  /** When the driver raises, no later call of that start is made, every
      earlier call completed, and the error is caught and reported. */
  lemma DriverRejection(fields: map<string, Json>, active: bool, rejects: set<ReaderCall>)
    ensures var r := Handle(StartTopic, Decoded(JObject(fields)), active, rejects);
            && (forall i :: 0 <= i < |r.calls| - 1 ==> r.calls[i] !in rejects)
            && (forall c :: r.error == Some(DriverRaised(c)) <==>
                  r.calls != [] && c == r.calls[|r.calls| - 1] && c in rejects)
  {
  }

  /** As written, no start completes: if every reader call succeeds, the
      handler still raises on the undefined callback name, so every start
      message ends in a reported error and the exception handler is never
      registered. */
  lemma StartAlwaysReportsError(payload: Payload, active: bool, rejects: set<ReaderCall>)
    ensures var r := Handle(StartTopic, payload, active, rejects);
            r.error.Some? && EnableExceptionHandler !in r.calls
  {
  }

  /** A stop command clears the flag, makes no reader call and ignores its
      payload; a message on any other topic changes nothing. */
  lemma StopAndOtherTopics(topic: string, payload: Payload, active: bool, rejects: set<ReaderCall>)
    requires topic != StartTopic
    ensures Handle(topic, payload, active, rejects)
         == if topic == StopTopic then Outcome([], false, None) else Outcome([], active, None)
  {
  }

  /** The exception handler clears the flag whatever it was; a second call
      changes nothing. */
  lemma ExceptionHandlerIdempotent(s: Session)
    ensures !OnReaderException(s).active
    ensures OnReaderException(OnReaderException(s)) == OnReaderException(s)
  {
  }

  /** The example start `{"power":20,"region":"EU3","antennas":[1,2]}` on a
      driver that accepts everything, with no read running. */
  lemma StartScenario()
    ensures Handle(StartTopic, Decoded(JObject(ScenarioFields)), false, {})
         == Outcome([SetRegion(JStr("EU3")),
                     SetReadPlan(JArray([JInt(1), JInt(2)]), "GEN2", JInt(20), JNull, JBool(false))],
                    false, Some(NameNotDefined("exception_callback")))
  {
  }

  const ScenarioFields: map<string, Json> :=
    map["power" := JInt(20), "region" := JStr("EU3"), "antennas" := JArray([JInt(1), JInt(2)])]

  // ----- the start command as evidently intended -----

  /** The start branch with the exception handler registered as its last
      call (the defined `exception_handler` in place of the undefined name):
      the planned calls and the registration, cut at the first rejection. */
  function StartIntended(p: ReadParams, active: bool, rejects: set<ReaderCall>): (r: Outcome)
    ensures r.calls <= Planned(p, active) + [EnableExceptionHandler] && r.calls != []
    ensures r.error.None? <==> r.calls == Planned(p, active) + [EnableExceptionHandler] && EnableExceptionHandler !in rejects
  {
    var calls := CutAtRejection(Planned(p, active) + [EnableExceptionHandler], rejects);
    var last := calls[|calls| - 1];
    if last in rejects then Outcome(calls, last == StopReading, Some(DriverRaised(last)))
    else Outcome(calls, false, None)
  }

  /** Attempting `cs` then `ds` is attempting `cs` alone, unless every call of
      `cs` completes, in which case `ds` is attempted after it. */
  lemma {:induction false} CutAppend(cs: seq<ReaderCall>, ds: seq<ReaderCall>, rejects: set<ReaderCall>)
    ensures CutAtRejection(cs + ds, rejects)
         == if forall c :: c in cs ==> c !in rejects then cs + CutAtRejection(ds, rejects)
            else CutAtRejection(cs, rejects)
  {
    if cs == [] {
      assert cs + ds == ds;
    } else {
      assert (cs + ds)[0] == cs[0];
      assert (cs + ds)[1..] == cs[1..] + ds;
      CutAppend(cs[1..], ds, rejects);
      if cs[0] !in rejects {
        assert (forall c :: c in cs ==> c !in rejects) <==> (forall c :: c in cs[1..] ==> c !in rejects);
      }
    }
  }

  /** The start as written and as intended agree up to the read plan. Where
      the written one then fails on the undefined name, the intended one
      goes on to register the exception handler, and on a driver that
      accepts it reports no error. */
  lemma IntendedStartRegistersHandler(p: ReadParams, active: bool, rejects: set<ReaderCall>)
    ensures var w := Start(p, active, rejects);
            var i := StartIntended(p, active, rejects);
            && (w.error == Some(NameNotDefined(ExceptionCallbackName)) ==>
                  && i.calls == w.calls + [EnableExceptionHandler]
                  && !i.active
                  && i.error == (if EnableExceptionHandler in rejects then Some(DriverRaised(EnableExceptionHandler)) else None))
            && (w.error != Some(NameNotDefined(ExceptionCallbackName)) ==> i == w)
  {
    var plan := Planned(p, active);
    var w := Start(p, active, rejects);
    StartFollowsPlan(p, active, rejects);
    CutAppend(plan, [EnableExceptionHandler], rejects);
    var accepted := forall c :: c in plan ==> c !in rejects;
    assert accepted <==> w.error == Some(NameNotDefined(ExceptionCallbackName));
    if accepted {
      assert CutAtRejection([EnableExceptionHandler], rejects) == [EnableExceptionHandler];
    } else {
      assert CutAtRejection(plan + [EnableExceptionHandler], rejects) == w.calls;
    }
  }

  /** On a driver that rejects nothing, the intended start ends by
      registering the exception handler and reports no error, while the
      written one reports the undefined name. */
  lemma IntendedStartCompletes(p: ReadParams, active: bool)
    ensures StartIntended(p, active, {}).error == None
    ensures StartIntended(p, active, {}).calls == Planned(p, active) + [EnableExceptionHandler]
    ensures Start(p, active, {}).error == Some(NameNotDefined("exception_callback"))
  {
    IntendedStartRegistersHandler(p, active, {});
  }

  // ----- reachable states -----

  /** No event sets the flag, so it is false in every state reachable from
      the initial one. */
  lemma {:induction false} RunFlagFalse(rejects: set<ReaderCall>, events: seq<Event>)
    ensures !Run(rejects, events).active
  {
    if events != [] {
      RunFlagFalse(rejects, events[..|events| - 1]);
    }
  }

  /** The calls a reachable session can have made: region and read-plan
      settings only, each read plan directly after a region setting and
      naming GEN2. In particular the reader is never stopped (the stop branch
      of a start is unreachable) and its exception handler never registered. */
  ghost predicate ReachableTrace(t: seq<ReaderCall>)
  {
    && (forall i :: 0 <= i < |t| ==> t[i].SetRegion? || (t[i].SetReadPlan? && t[i].protocol == Gen2))
    && (forall i :: 0 <= i < |t| && t[i].SetReadPlan? ==> i > 0 && t[i - 1].SetRegion?)
  }

  lemma {:induction false} RunTrace(rejects: set<ReaderCall>, events: seq<Event>)
    ensures ReachableTrace(Run(rejects, events).trace)
    ensures StopReading !in Run(rejects, events).trace
    ensures EnableExceptionHandler !in Run(rejects, events).trace
  {
    if events != [] {
      var before := events[..|events| - 1];
      RunTrace(rejects, before);
      RunFlagFalse(rejects, before);
      var s := Run(rejects, before);
      match events[|events| - 1]
      case ReaderException =>
      case Message(topic, payload) =>
        var r := Handle(topic, payload, s.active, rejects);
        assert ReachableTrace(r.calls);
        ReachableTraceAppend(s.trace, r.calls);
    }
  }

  lemma ReachableTraceAppend(t: seq<ReaderCall>, u: seq<ReaderCall>)
    requires ReachableTrace(t) && ReachableTrace(u)
    ensures ReachableTrace(t + u)
  {
  }
}
