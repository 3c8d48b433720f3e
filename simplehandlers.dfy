/**
 * The single-shot handlers around the workflows: the test handler, the
 * follow-me bridge and the ring-group bridge. Each answers an exiting
 * channel with "Ok" before reading anything.
 */
module SimpleHandlers {
  import opened HttApi

  const STAY_ON_LINE_PROMPT :=
    "/usr/share/freeswitch/sounds/en/us/callie/ivr/8000/ivr-stay_on_line_call_answered_momentarily.wav"

  /** The test call: answer, log "Hello World", play a prompt and hang up. */
  const TEST_WORK: seq<Instr> :=
    [Execute("answer", None), Log("NOTICE", "Hello World"), Playback(STAY_ON_LINE_PROMPT), Hangup(None)]

  /** `TestHandler.get_data`. */
  method TestGetData(ev: Event) returns (resp: Response)
    ensures ev.exiting ==> resp == Text(OK_TEXT)
    ensures !ev.exiting ==> resp.Document? && resp.work == TEST_WORK
    ensures !ev.exiting ==> EndsInHangup(resp) && resp.work[0] == Execute("answer", None)
  {
    if ev.exiting {
      return Text(OK_TEXT);
    }
    var work: seq<Instr> := [];
    work := work + [Execute("answer", None)];
    work := work + [Log("NOTICE", "Hello World")];
    work := work + [Playback(STAY_ON_LINE_PROMPT)];
    work := work + [Hangup(None)];
    resp := Document(work);
  }

  /**
   * `FollowMeHandler.get_data`, given the bridge string the extension
   * functions would build for the event's extension. Without an extension
   * the bridge helper is never bound and the handler fails.
   */
  method FollowMeGetData(ev: Event, bridge: string) returns (resp: Response)
    ensures ev.exiting ==> resp == Text(OK_TEXT)
    ensures !ev.exiting && !Truthy(Var(ev, "extension_uuid")) ==> resp == Fault(UnboundLocalError("extf"))
    ensures !ev.exiting && Truthy(Var(ev, "extension_uuid")) ==>
      resp == Document([Exec("set", "hangup_after_bridge=true"), Exec("bridge", bridge)])
  {
    if ev.exiting {
      return Text(OK_TEXT);
    }
    var extensionUuid := Var(ev, "extension_uuid");
    if !Truthy(extensionUuid) {
      return Fault(UnboundLocalError("extf"));
    }
    var work: seq<Instr> := [];
    work := work + [Exec("set", "hangup_after_bridge=true")];
    work := work + [Exec("bridge", bridge)];
    resp := Document(work);
  }

  /** What the ring-group functions build: the bridge string and the timeout action. */
  datatype RingPlan = RingPlan(bridge: string, timeoutApp: string, timeoutData: string)

  /** The instruction for a timeout action: the hangup element itself, or an execute. */
  function TimeoutInstr(app: string, data: string): (i: Instr)
    ensures i.Hangup? <==> app == "hangup"
    ensures !i.Hangup? ==> i == Exec(app, data)
  {
    if app == "hangup" then Hangup(None) else Exec(app, data)
  }

  /**
   * `RingGroupHandler.get_data`, given what the ring-group functions build
   * for the event's ring group, or None when they raise: bridge to the
   * group, then run its timeout action.
   */
  method RingGroupGetData(ev: Event, plan: Option<RingPlan>) returns (resp: Response)
    ensures ev.exiting ==> resp == Text(OK_TEXT)
    ensures !ev.exiting && plan.None? ==> resp == ErrorHangup("R1001")
    ensures !ev.exiting && plan.Some? ==>
      && resp.Document? && |resp.work| == 2
      && resp.work[0] == Exec("bridge", plan.value.bridge)
      && (EndsInHangup(resp) <==> plan.value.timeoutApp == "hangup")
      && (plan.value.timeoutApp != "hangup" ==> resp.work[1] == Exec(plan.value.timeoutApp, plan.value.timeoutData))
  {
    if ev.exiting {
      return Text(OK_TEXT);
    }
    if plan.None? {
      return ErrorHangup("R1001");
    }
    var rgf := plan.value;
    var work: seq<Instr> := [];
    work := work + [Exec("bridge", rgf.bridge)];
    work := work + [TimeoutInstr(rgf.timeoutApp, rgf.timeoutData)];
    resp := Document(work);
  }
}
