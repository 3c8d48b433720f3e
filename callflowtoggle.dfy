/**
 * The call-flow toggle handler: after the caller enters the call flow's PIN,
 * flip its day/night status, regenerate its dialplan, drop the domain's
 * cached dialplan, announce the new status and hang up.
 */
module CallFlowToggle {
  import opened HttApi
  import opened Config

  const NIGHT_PROMPT := "ivr/ivr-night_mode.wav"
  const DAY_PROMPT := "ivr/ivr-day_mode.wav"
  const GOODBYE_PROMPT := "voicemail/vm-goodbye.wav"

  /** The cache entry holding a domain's generated dialplan. */
  function DialplanKey(domain: string): string {
    "dialplan:" + domain
  }

  /** What one event does: the dictionary, the call-flow rows, the external calls, the answer. */
  datatype FlowOutcome = FlowOutcome(
    state: HState, flows: map<string, CallFlow>, effects: seq<Effect>, resp: Response)

  /** The answer to a correct PIN for a call flow whose status was `status`. */
  function ToggleWork(status: string): seq<Instr> {
    [ Pause(1000), Playback(if status == "true" then NIGHT_PROMPT else DAY_PROMPT),
      Pause(1000), Playback(GOODBYE_PROMPT), Hangup(None) ]
  }

  /** One event of `CallFlowToggleHandler.get_data`. */
  function Step(s: HState, flows: map<string, CallFlow>, ev: Event, env: Env): FlowOutcome {
    if ev.exiting then FlowOutcome(s, flows, [], Text(OK_TEXT))
    else
      var id := Var(ev, "callflow_uuid");
      if id.None? || id.value !in flows then FlowOutcome(s, flows, [], ErrorHangup("D1001"))
      else if NEXT_ACTION in s then
        if s[NEXT_ACTION] == JStr(CHK_PIN) then
          if "pin_number" !in s then FlowOutcome(s, flows, [], Fault(KeyError("pin_number")))
          else if s["pin_number"] == JStr(VarOr(ev, "pb_input", "")) then
            var q := flows[id.value];
            var status := Toggled(q.status);
            FlowOutcome(
              s, flows[id.value := q.(status := status)],
              [ GenerateDialplan(id.value), CacheDelete(DialplanKey(env.domainName)),
                PresenceIn(id.value, status, q.featureCode, env.domainName) ],
              Document(ToggleWork(q.status)))
          else FlowOutcome(s, flows, [], Document([Playback(FAIL_AUTH_PROMPT), Hangup(None)]))
        else FlowOutcome(s, flows, [], Document([]))
      else
        var pin := Var(ev, "callflow_pin");
        if !Truthy(pin) then FlowOutcome(s, flows, [], ErrorHangup("R2001"))
        else FlowOutcome(s["pin_number" := JStr(pin.value)][NEXT_ACTION := JStr(CHK_PIN)], flows, [],
                         Document([PlayAndGetDigits(ENTER_PASS_PROMPT, None, None)]))
  }

  /** The shape of every dictionary the handler produces: at chk-pin the PIN is a stored string. */
  predicate Inv(s: HState) {
    At(s, CHK_PIN) ==> GetStr(s, "pin_number").Some?
  }

  /** On every dictionary the handler produces, an event keeps that shape and raises nothing. */
  lemma StepKeepsInv(s: HState, flows: map<string, CallFlow>, ev: Event, env: Env)
    requires Inv(s)
    ensures Inv(Step(s, flows, ev, env).state) && !Step(s, flows, ev, env).resp.Fault?
  {
  }

  /** A channel that is exiting gets "Ok"; nothing is read or changed. */
  lemma ExitingIsOk(s: HState, flows: map<string, CallFlow>, ev: Event, env: Env)
    requires ev.exiting
    ensures Step(s, flows, ev, env) == FlowOutcome(s, flows, [], Text(OK_TEXT))
  {
  }

  /**
   * Starting on a known call flow: without a (non-empty) `callflow_pin` the
   * answer is error R2001 and nothing changes; with one, the PIN is stored,
   * the workflow waits at chk-pin and the caller is asked for it.
   */
  lemma StartStoresPin(s: HState, flows: map<string, CallFlow>, ev: Event, env: Env)
    requires !ev.exiting && NEXT_ACTION !in s
    requires Var(ev, "callflow_uuid").Some? && ev.vars["callflow_uuid"] in flows
    ensures var r := Step(s, flows, ev, env);
      if Truthy(Var(ev, "callflow_pin")) then
        && r.state == s["pin_number" := JStr(ev.vars["callflow_pin"])][NEXT_ACTION := JStr(CHK_PIN)]
        && r.flows == flows && r.effects == []
        && r.resp == Document([PlayAndGetDigits(ENTER_PASS_PROMPT, None, None)])
      else r == FlowOutcome(s, flows, [], ErrorHangup("R2001"))
  {
  }

  /** An unknown call flow is error D1001 in every state, with nothing changed. */
  lemma UnknownCallFlow(s: HState, flows: map<string, CallFlow>, ev: Event, env: Env)
    requires !ev.exiting && ("callflow_uuid" !in ev.vars || ev.vars["callflow_uuid"] !in flows)
    ensures Step(s, flows, ev, env) == FlowOutcome(s, flows, [], ErrorHangup("D1001"))
  {
  }

  /**
   * With the stored PIN, the call flow's status flips, the other call flows
   * are untouched, the domain's dialplan cache entry is deleted, the prompt
   * names the new mode and the call hangs up; the workflow stays at chk-pin.
   */
  lemma MatchingPinToggles(s: HState, flows: map<string, CallFlow>, ev: Event, env: Env, id: string)
    requires !ev.exiting && Var(ev, "callflow_uuid") == Some(id) && id in flows
    requires At(s, CHK_PIN) && "pin_number" in s && s["pin_number"] == JStr(VarOr(ev, "pb_input", ""))
    ensures var r := Step(s, flows, ev, env);
      && r.state == s
      && r.flows.Keys == flows.Keys
      && r.flows[id].status == (if flows[id].status == "true" then "false" else "true")
      && r.flows[id].featureCode == flows[id].featureCode
      && (forall other :: other in flows && other != id ==> r.flows[other] == flows[other])
      && r.effects == [ GenerateDialplan(id), CacheDelete("dialplan:" + env.domainName),
                        PresenceIn(id, r.flows[id].status, flows[id].featureCode, env.domainName) ]
      && EndsInHangup(r.resp)
      && HasInstr(r.resp, Playback(NIGHT_PROMPT)) == (flows[id].status == "true")
      && HasInstr(r.resp, Playback(DAY_PROMPT)) == (flows[id].status != "true")
  {
  }

  /** A wrong PIN plays the failed-authentication prompt and hangs up; nothing changes. */
  lemma WrongPinChangesNothing(s: HState, flows: map<string, CallFlow>, ev: Event, env: Env)
    requires !ev.exiting && Var(ev, "callflow_uuid").Some? && ev.vars["callflow_uuid"] in flows
    requires At(s, CHK_PIN) && "pin_number" in s && s["pin_number"] != JStr(VarOr(ev, "pb_input", ""))
    ensures Step(s, flows, ev, env)
         == FlowOutcome(s, flows, [], Document([Playback(FAIL_AUTH_PROMPT), Hangup(None)]))
  {
  }

  /**
   * The workflow stays at chk-pin after a toggle, so a second event with the
   * PIN toggles back: a 'true'/'false' status is restored, and both answers
   * hang up.
   */
  lemma {:induction false} SecondPinTogglesBack(
    s: HState, flows: map<string, CallFlow>, ev1: Event, ev2: Event, env: Env, id: string)
    requires !ev1.exiting && !ev2.exiting && Var(ev1, "callflow_uuid") == Some(id) && Var(ev2, "callflow_uuid") == Some(id)
    requires id in flows && (flows[id].status == "true" || flows[id].status == "false")
    requires At(s, CHK_PIN) && "pin_number" in s
    requires s["pin_number"] == JStr(VarOr(ev1, "pb_input", "")) && s["pin_number"] == JStr(VarOr(ev2, "pb_input", ""))
    ensures var r1 := Step(s, flows, ev1, env);
      var r2 := Step(r1.state, r1.flows, ev2, env);
      && r2.flows == flows && EndsInHangup(r1.resp) && EndsInHangup(r2.resp)
  {
    var r1 := Step(s, flows, ev1, env);
    MatchingPinToggles(s, flows, ev1, env, id);
    MatchingPinToggles(r1.state, r1.flows, ev2, env, id);
    var r2 := Step(r1.state, r1.flows, ev2, env);
    assert r2.flows[id] == flows[id];
  }

  /**
   * A fresh session: an event naming the call flow and its PIN stores the
   * PIN and prompts for it; the next event with that PIN, for a call flow in
   * day mode, switches it to night mode, deletes `dialplan:<domain>` from the
   * cache, plays the night-mode prompt and hangs up.
   */
  lemma DayToNight(flows: map<string, CallFlow>, id: string, pin: string, env: Env)
    requires id in flows && flows[id].status == "true" && pin != ""
    ensures var r1 := Step(map[], flows, Event(false, map["callflow_uuid" := id, "callflow_pin" := pin], None), env);
      var r2 := Step(r1.state, r1.flows, Event(false, map["callflow_uuid" := id, "pb_input" := pin], None), env);
      && r1.resp == Document([PlayAndGetDigits(ENTER_PASS_PROMPT, None, None)])
      && r1.state == map[NEXT_ACTION := JStr(CHK_PIN), "pin_number" := JStr(pin)]
      && r2.flows[id].status == "false"
      && CacheDelete("dialplan:" + env.domainName) in r2.effects
      && HasInstr(r2.resp, Playback(NIGHT_PROMPT)) && EndsInHangup(r2.resp)
  {
    var ev1 := Event(false, map["callflow_uuid" := id, "callflow_pin" := pin], None);
    var ev2 := Event(false, map["callflow_uuid" := id, "pb_input" := pin], None);
    var r1 := Step(map[], flows, ev1, env);
    assert r1.state == map[NEXT_ACTION := JStr(CHK_PIN), "pin_number" := JStr(pin)];
    MatchingPinToggles(r1.state, r1.flows, ev2, env, id);
  }

  /** `CallFlowToggleHandler`: the session dictionary, over the shared store. */
  class CallFlowToggleHandler {
    var state: HState
    const store: Store

    constructor (store: Store)
      ensures this.store == store && state == map[]
    {
      this.store := store;
      state := map[];
    }

    /** `get_data` for one event. */
    method GetData(ev: Event, env: Env) returns (resp: Response)
      modifies this, store`callFlows, store`effects
      ensures var r := Step(old(state), old(store.callFlows), ev, env);
        && state == r.state && store.callFlows == r.flows
        && store.effects == old(store.effects) + r.effects && resp == r.resp
      ensures Inv(old(state)) ==> Inv(state) && !resp.Fault?
    {
      if Inv(state) {
        StepKeepsInv(state, store.callFlows, ev, env);
      }
      if ev.exiting {
        return Text(OK_TEXT);
      }
      var callFlowUuid := Var(ev, "callflow_uuid");
      if callFlowUuid.None? || callFlowUuid.value !in store.callFlows {
        return ErrorHangup("D1001");
      }
      var id := callFlowUuid.value;
      var q := store.callFlows[id];
      var work: seq<Instr> := [];
      if NEXT_ACTION in state {
        if state[NEXT_ACTION] == JStr(CHK_PIN) {
          if "pin_number" !in state {
            return Fault(KeyError("pin_number"));
          }
          if state["pin_number"] == JStr(VarOr(ev, "pb_input", "")) {
            work := work + [Pause(1000)];
            if q.status == "true" {
              work := work + [Playback(NIGHT_PROMPT)];
              q := q.(status := "false");
            } else {
              work := work + [Playback(DAY_PROMPT)];
              q := q.(status := "true");
            }
            store.callFlows := store.callFlows[id := q];
            store.effects := store.effects + [GenerateDialplan(id)];
            work := work + [Pause(1000)];
            work := work + [Playback(GOODBYE_PROMPT)];
            work := work + [Hangup(None)];
            store.effects := store.effects + [CacheDelete(DialplanKey(env.domainName))];
            store.effects := store.effects + [PresenceIn(id, q.status, q.featureCode, env.domainName)];
          } else {
            work := work + [Playback(FAIL_AUTH_PROMPT)];
            work := work + [Hangup(None)];
          }
        }
      } else {
        var pinNumber := Var(ev, "callflow_pin");
        if !Truthy(pinNumber) {
          return ErrorHangup("R2001");
        }
        state := state["pin_number" := JStr(pinNumber.value)];
        state := state[NEXT_ACTION := JStr(CHK_PIN)];
        work := work + [PlayAndGetDigits(ENTER_PASS_PROMPT, None, None)];
      }
      resp := Document(work);
    }
  }
}
