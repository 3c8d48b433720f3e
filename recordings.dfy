/**
 * The recordings handler: a PIN-gated record, review and re-record loop.
 * The workflow waits in `next_action`: none -> chk-pin -> record -> review
 * -> rerecord, and from rerecord back to record on digit 1.
 */
module Recordings {
  import opened HttApi
  import opened Config

  const RECORD := "record"
  const REVIEW := "review"
  const RERECORD := "rerecord"

  /** The prefix of a recording's name when the event gives none. */
  const DEFAULT_PREFIX := "recording"

  /** The prompts of the workflow. */
  const ID_NUMBER_PROMPT := "ivr/ivr-id_number.wav"
  const RECORDING_STARTED_PROMPT := "ivr/ivr-recording_started.wav"
  const RECORDING_SAVED_PROMPT := "ivr/ivr-recording_saved.wav"
  const PRESS_PROMPT := "voicemail/vm-press.wav"
  const DIGIT_ONE_PROMPT := "digits/1.wav"
  const RERECORD_PROMPT := "voicemail/vm-rerecord.wav"

  /** The name handed to the record element: `<prefix><entered number>.wav`. */
  function RecFileName(ev: Event): string {
    VarOr(ev, "recording_prefix", DEFAULT_PREFIX) + VarOr(ev, "pb_input", "") + ".wav"
  }

  /** The path kept as `rec_file`: `<recordings dir>/<domain>/<prefix><number>.wav`. */
  function RecFilePath(ev: Event, env: Env): string {
    env.recordingsDir + "/" + env.domainName + "/" + RecFileName(ev)
  }

  /** Play the new recording back, then ask "press 1 to re-record". */
  function ReviewWork(recFile: string): seq<Instr> {
    [ Pause(1000), Playback(recFile), Pause(500),
      Playback(PRESS_PROMPT), Playback(DIGIT_ONE_PROMPT),
      PlayAndGetDigits(RERECORD_PROMPT, Some("pb_input"), Some("~\\d{1}")) ]
  }

  /** One event of `RecordingsHandler.get_data` after any upload has been stored. */
  function Step(s: HState, ev: Event, env: Env): Outcome {
    if ev.exiting then Outcome(s, Text(OK_TEXT))
    else if NEXT_ACTION in s then
      var next := s[NEXT_ACTION];
      if next == JStr(CHK_PIN) then
        if "pin_number" !in s then Outcome(s, Fault(KeyError("pin_number")))
        else if s["pin_number"] == JStr(VarOr(ev, "pb_input", "")) then
          Outcome(s[NEXT_ACTION := JStr(RECORD)],
                  Document([PlayAndGetDigits(ID_NUMBER_PROMPT, None, None)]))
        else Outcome(s, Document([Playback(FAIL_AUTH_PROMPT), Hangup(None)]))
      else if next == JStr(RECORD) then
        Outcome(s["rec_file" := JStr(RecFilePath(ev, env))][NEXT_ACTION := JStr(REVIEW)],
                Document([Playback(RECORDING_STARTED_PROMPT), RecordAndGetDigits(RecFileName(ev))]))
      else if next == JStr(REVIEW) then
        if "rec_file" !in s then Outcome(s, Fault(KeyError("rec_file")))
        else if !s["rec_file"].JStr? then Outcome(s[NEXT_ACTION := JStr(RERECORD)], Fault(TypeError("rec_file")))
        else Outcome(s[NEXT_ACTION := JStr(RERECORD)], Document(ReviewWork(s["rec_file"].s)))
      else if next == JStr(RERECORD) then
        if VarOr(ev, "pb_input", "") == "1" then
          if "rec_file" !in s then Outcome(s, Fault(KeyError("rec_file")))
          else Outcome(s[NEXT_ACTION := JStr(RECORD)], Document([Continue]))
        else Outcome(s, Document([Playback(RECORDING_SAVED_PROMPT), Hangup(None)]))
      else Outcome(s, Document([]))
    else
      var pin := Var(ev, "pin_number");
      if !Truthy(pin) then Outcome(s, ErrorHangup("R2001"))
      else Outcome(s["pin_number" := JStr(pin.value)][NEXT_ACTION := JStr(CHK_PIN)],
                   Document([PlayAndGetDigits(ENTER_PASS_PROMPT, None, None)]))
  }

  /** The shape of every dictionary the handler itself produces. */
  predicate Inv(s: HState) {
    && (At(s, CHK_PIN) ==> GetStr(s, "pin_number").Some?)
    && (At(s, REVIEW) || At(s, RERECORD) ==> GetStr(s, "rec_file").Some?)
  }

  /**
   * The workflow as a typed state machine: waiting for the PIN it stored,
   * for the recording's number, for the recording to be reviewed, for the
   * re-record choice, or stuck on a `next_action` it does not know.
   */
  datatype Phase = Start | ChkPin(pin: string) | AwaitNumber | Review(recFile: string)
                 | Rerecord(recFile: string) | Stalled

  function PhaseOf(s: HState): Phase
    requires Inv(s)
  {
    if NEXT_ACTION !in s then Start
    else if At(s, CHK_PIN) then ChkPin(GetStr(s, "pin_number").value)
    else if At(s, RECORD) then AwaitNumber
    else if At(s, REVIEW) then Review(GetStr(s, "rec_file").value)
    else if At(s, RERECORD) then Rerecord(GetStr(s, "rec_file").value)
    else Stalled
  }

  /** The transitions of the workflow, one per event. */
  function Next(p: Phase, ev: Event, env: Env): Phase {
    var digits := VarOr(ev, "pb_input", "");
    match p
    case Start => var pin := Var(ev, "pin_number"); if Truthy(pin) then ChkPin(pin.value) else Start
    case ChkPin(pin) => if digits == pin then AwaitNumber else p
    case AwaitNumber => Review(RecFilePath(ev, env))
    case Review(f) => Rerecord(f)
    case Rerecord(f) => if digits == "1" then AwaitNumber else p
    case Stalled => Stalled
  }

  /** The events that end the call: no PIN configured, a wrong PIN, and "saved". */
  predicate Ends(p: Phase, ev: Event) {
    match p
    case Start => !Truthy(Var(ev, "pin_number"))
    case ChkPin(pin) => VarOr(ev, "pb_input", "") != pin
    case Rerecord(_) => VarOr(ev, "pb_input", "") != "1"
    case _ => false
  }

  lemma StepKeepsInv(s: HState, ev: Event, env: Env)
    ensures Inv(s) ==> Inv(Step(s, ev, env).state) && !Step(s, ev, env).resp.Fault?
  {
  }

  /**
   * On every dictionary the handler produces, one event moves the workflow
   * exactly as the typed machine does, never faults, and hangs up exactly on
   * the events `Ends` names.
   */
  lemma StepRefinesPhases(s: HState, ev: Event, env: Env)
    requires Inv(s) && !ev.exiting
    ensures var r := Step(s, ev, env);
      && Inv(r.state)
      && PhaseOf(r.state) == Next(PhaseOf(s), ev, env)
      && (r.resp.Document? || r.resp.ErrorHangup?)
      && ((HangsUp(r.resp) || r.resp.ErrorHangup?) <==> Ends(PhaseOf(s), ev))
  {
    var r := Step(s, ev, env);
    var digits := VarOr(ev, "pb_input", "");
    if NEXT_ACTION !in s {
    } else if At(s, CHK_PIN) {
      if s["pin_number"] != JStr(digits) {
        assert r.resp.work[1].Hangup?;
      }
    } else if At(s, RECORD) {
    } else if At(s, REVIEW) {
    } else if At(s, RERECORD) {
      if digits != "1" {
        assert r.resp.work[1].Hangup?;
      }
    }
  }

  /** A channel that is exiting gets "Ok" and the dictionary is left alone. */
  lemma ExitingIsOk(s: HState, ev: Event, env: Env)
    requires ev.exiting
    ensures Step(s, ev, env) == Outcome(s, Text(OK_TEXT))
  {
  }

  /**
   * Starting: without a (non-empty) `pin_number` the answer is error R2001
   * and nothing is stored; with one, the PIN is stored and the workflow
   * waits at chk-pin.
   */
  lemma StartStoresPin(s: HState, ev: Event, env: Env)
    requires NEXT_ACTION !in s && !ev.exiting
    ensures var r := Step(s, ev, env);
      if Truthy(Var(ev, "pin_number")) then
        && r.state == s["pin_number" := JStr(ev.vars["pin_number"])][NEXT_ACTION := JStr(CHK_PIN)]
        && r.resp == Document([PlayAndGetDigits(ENTER_PASS_PROMPT, None, None)])
      else r == Outcome(s, ErrorHangup("R2001"))
  {
  }

  /**
   * At chk-pin only the stored PIN moves on to record, asking for the
   * recording's number and changing nothing else; any other input plays
   * the failed-authentication prompt, hangs up and leaves chk-pin in place.
   */
  lemma PinGate(s: HState, ev: Event, env: Env)
    requires At(s, CHK_PIN) && "pin_number" in s && !ev.exiting
    ensures var r := Step(s, ev, env);
      && (At(r.state, RECORD) <==> s["pin_number"] == JStr(VarOr(ev, "pb_input", "")))
      && (At(r.state, RECORD) ==>
            r == Outcome(s[NEXT_ACTION := JStr(RECORD)], Document([PlayAndGetDigits(ID_NUMBER_PROMPT, None, None)])))
      && (!At(r.state, RECORD) ==>
            r == Outcome(s, Document([Playback(FAIL_AUTH_PROMPT), Hangup(None)])))
  {
  }

  /** The record step keeps the full path and hands the short name to the recorder. */
  lemma RecordStoresPath(s: HState, ev: Event, env: Env)
    requires At(s, RECORD) && !ev.exiting
    ensures var r := Step(s, ev, env);
      && At(r.state, REVIEW)
      && r.state["rec_file"] == JStr(env.recordingsDir + "/" + env.domainName + "/"
           + VarOr(ev, "recording_prefix", "recording") + VarOr(ev, "pb_input", "") + ".wav")
      && r.resp.Document? && r.resp.work[|r.resp.work| - 1] == RecordAndGetDigits(RecFileName(ev))
      && !HangsUp(r.resp)
  {
  }

  /**
   * At rerecord, digit 1 goes back to record with exactly one `continue` and
   * no hangup; anything else says "saved", hangs up and changes nothing.
   */
  lemma RerecordChoice(s: HState, ev: Event, env: Env)
    requires At(s, RERECORD) && "rec_file" in s && !ev.exiting
    ensures var r := Step(s, ev, env);
      if VarOr(ev, "pb_input", "") == "1" then
        At(r.state, RECORD) && r.resp == Document([Continue])
      else
        r == Outcome(s, Document([Playback(RECORDING_SAVED_PROMPT), Hangup(None)]))
  {
  }

  /** The responses to a sequence of events, threading the dictionary through. */
  datatype Trace = Trace(state: HState, resps: seq<Response>)

  function Run(s: HState, evs: seq<Event>, env: Env): (t: Trace)
    ensures |t.resps| == |evs|
    decreases |evs|
  {
    if |evs| == 0 then Trace(s, [])
    else
      var o := Step(s, evs[0], env);
      var rest := Run(o.state, evs[1..], env);
      Trace(rest.state, [o.resp] + rest.resps)
  }

  /** Running a first event, then the rest. */
  lemma RunCons(s: HState, ev: Event, rest: seq<Event>, env: Env) returns (t: Trace)
    ensures t == Run(Step(s, ev, env).state, rest, env)
    ensures Run(s, [ev] + rest, env) == Trace(t.state, [Step(s, ev, env).resp] + t.resps)
  {
    t := Run(Step(s, ev, env).state, rest, env);
    assert ([ev] + rest)[1..] == rest;
  }

  /**
   * Rounds of (record, review, rerecord) events in which every re-record
   * choice is digit 1.
   */
  predicate RerecordRounds(evs: seq<Event>) {
    && |evs| % 3 == 0
    && (forall i :: 0 <= i < |evs| ==> !evs[i].exiting)
    && (forall i :: 0 <= i < |evs| && i % 3 == 2 ==> VarOr(evs[i], "pb_input", "") == "1")
  }

  lemma RoundsTail(evs: seq<Event>)
    requires RerecordRounds(evs) && |evs| > 0
    ensures RerecordRounds(evs[3..])
  {
    var t := evs[3..];
    forall i | 0 <= i < |t| && i % 3 == 2
      ensures VarOr(t[i], "pb_input", "") == "1"
    {
      assert t[i] == evs[i + 3] && (i + 3) % 3 == 2;
    }
  }

  /**
   * Any number of rounds that answer 1 at rerecord come back to record and
   * never hang up or fault: the loop only ends on another digit.
   */
  lemma {:induction false} RerecordLoops(s: HState, evs: seq<Event>, env: Env)
    requires At(s, RECORD) && RerecordRounds(evs)
    ensures At(Run(s, evs, env).state, RECORD)
    ensures forall i :: 0 <= i < |evs| ==>
      Run(s, evs, env).resps[i].Document? && !HangsUp(Run(s, evs, env).resps[i])
    decreases |evs|
  {
    if |evs| > 0 {
      assert |evs| >= 3;
      var o1 := Step(s, evs[0], env);
      var o2 := Step(o1.state, evs[1], env);
      var o3 := Step(o2.state, evs[2], env);
      assert VarOr(evs[2], "pb_input", "") == "1";
      RecordStoresPath(s, evs[0], env);
      assert At(o2.state, RERECORD);
      RerecordChoice(o2.state, evs[2], env);
      assert !HangsUp(o2.resp) by {
        assert o2.resp.work == ReviewWork(o1.state["rec_file"].s);
      }
      RoundsTail(evs);
      RerecordLoops(o3.state, evs[3..], env);
      var r1 := Run(o1.state, evs[1..], env);
      var r2 := Run(o2.state, evs[2..], env);
      var r3 := Run(o3.state, evs[3..], env);
      assert evs[1..][1..] == evs[2..] && evs[2..][1..] == evs[3..];
      assert r2 == Trace(r3.state, [o3.resp] + r3.resps);
      assert r1 == Trace(r3.state, [o2.resp, o3.resp] + r3.resps);
      assert Run(s, evs, env) == Trace(r3.state, [o1.resp, o2.resp, o3.resp] + r3.resps);
    }
  }

  /** The events of one caller's session: PIN, number, review, keep. */
  function SessionEvents(pin: string, number: string, keep: string): seq<Event> {
    [ Event(false, map["pin_number" := pin], None),
      Event(false, map["pb_input" := pin], None),
      Event(false, map["pb_input" := number], None),
      Event(false, map[], None),
      Event(false, map["pb_input" := keep], None) ]
  }

  /** The dictionaries the happy path passes through. */
  function HappyStates(pin: string, path: string): seq<HState> {
    var s0 := map["pin_number" := JStr(pin)][NEXT_ACTION := JStr(CHK_PIN)];
    var s1 := s0[NEXT_ACTION := JStr(RECORD)];
    var s2 := s1["rec_file" := JStr(path)][NEXT_ACTION := JStr(REVIEW)];
    [s0, s1, s2, s2[NEXT_ACTION := JStr(RERECORD)]]
  }

  /** The PIN is stored, then accepted. */
  lemma HappyPin(pin: string, number: string, keep: string, env: Env)
    requires pin != ""
    ensures var evs := SessionEvents(pin, number, keep);
      var st := HappyStates(pin, RecFilePath(evs[2], env));
      && Step(map[], evs[0], env) == Outcome(st[0], Document([PlayAndGetDigits(ENTER_PASS_PROMPT, None, None)]))
      && Step(st[0], evs[1], env) == Outcome(st[1], Document([PlayAndGetDigits(ID_NUMBER_PROMPT, None, None)]))
  {
  }

  /** The number starts the recording, the review plays it back, a digit other than 1 keeps it. */
  lemma HappyRecord(pin: string, number: string, keep: string, env: Env)
    requires keep != "1"
    ensures var evs := SessionEvents(pin, number, keep);
      var path := RecFilePath(evs[2], env);
      var st := HappyStates(pin, path);
      && Step(st[1], evs[2], env)
         == Outcome(st[2], Document([Playback(RECORDING_STARTED_PROMPT), RecordAndGetDigits(RecFileName(evs[2]))]))
      && Step(st[2], evs[3], env) == Outcome(st[3], Document(ReviewWork(path)))
      && Step(st[3], evs[4], env) == Outcome(st[3], Document([Playback(RECORDING_SAVED_PROMPT), Hangup(None)]))
  {
  }

  /** The responses along the happy path, for the recording's path and name. */
  function HappyResps(path: string, name: string): seq<Response> {
    [ Document([PlayAndGetDigits(ENTER_PASS_PROMPT, None, None)]),
      Document([PlayAndGetDigits(ID_NUMBER_PROMPT, None, None)]),
      Document([Playback(RECORDING_STARTED_PROMPT), RecordAndGetDigits(name)]),
      Document(ReviewWork(path)),
      Document([Playback(RECORDING_SAVED_PROMPT), Hangup(None)]) ]
  }

  /** The happy path, event by event. */
  lemma HappyRun(pin: string, number: string, keep: string, env: Env)
    requires pin != "" && keep != "1"
    ensures var evs := SessionEvents(pin, number, keep);
      var path := RecFilePath(evs[2], env);
      Run(map[], evs, env) == Trace(HappyStates(pin, path)[3], HappyResps(path, RecFileName(evs[2])))
  {
    var evs := SessionEvents(pin, number, keep);
    var st := HappyStates(pin, RecFilePath(evs[2], env));
    HappyPin(pin, number, keep, env);
    HappyRecord(pin, number, keep, env);
    var t4 := RunCons(st[3], evs[4], [], env);
    var t3 := RunCons(st[2], evs[3], [evs[4]], env);
    var t2 := RunCons(st[1], evs[2], [evs[3], evs[4]], env);
    var t1 := RunCons(st[0], evs[1], [evs[2], evs[3], evs[4]], env);
    var t0 := RunCons(map[], evs[0], [evs[1], evs[2], evs[3], evs[4]], env);
    assert [evs[0], evs[1], evs[2], evs[3], evs[4]] == evs;
  }

  /**
   * The whole workflow for one caller: the PIN, the right PIN, a number,
   * the review and a digit other than 1. Only the last response hangs up,
   * and the recording is kept under the default prefix and that number.
   */
  lemma HappyPath(pin: string, number: string, keep: string, env: Env)
    requires pin != "" && keep != "1"
    ensures var t := Run(map[], SessionEvents(pin, number, keep), env);
      var name := DEFAULT_PREFIX + number + ".wav";
      && GetStr(t.state, "rec_file") == Some(env.recordingsDir + "/" + env.domainName + "/" + name)
      && t.resps[2] == Document([Playback(RECORDING_STARTED_PROMPT), RecordAndGetDigits(name)])
      && (forall i :: 0 <= i < 4 ==> !HangsUp(t.resps[i]))
      && t.resps[4] == Document([Playback(RECORDING_SAVED_PROMPT), Hangup(None)])
  {
    var evs := SessionEvents(pin, number, keep);
    HappyRun(pin, number, keep, env);
    assert RecFileName(evs[2]) == DEFAULT_PREFIX + number + ".wav";
  }

  /** The known part of an uploaded recording's name, after the switch's UUID. */
  const NAME_MARKER := "recording"

  /** `m` occurs in `s` at position `j`. */
  predicate OccursAt(s: string, m: string, j: int) {
    0 <= j && j + |m| <= |s| && s[j..j + |m|] == m
  }

  /** The last position below `i` where `m` occurs in `s`, if any. */
  function LastBelow(s: string, m: string, i: nat): (r: Option<nat>)
    ensures r.Some? ==> r.value < i && OccursAt(s, m, r.value)
    ensures r.Some? ==> forall j :: r.value < j < i ==> !OccursAt(s, m, j)
    ensures r.None? ==> forall j :: 0 <= j < i ==> !OccursAt(s, m, j)
    decreases i
  {
    if i == 0 then None
    else if OccursAt(s, m, i - 1) then Some(i - 1)
    else LastBelow(s, m, i - 1)
  }

  /**
   * `'recording%s' % name.rsplit('recording', 1)[1]`: the marker and what
   * follows its last occurrence; None where the split has no second part and
   * Python raises IndexError.
   */
  function ReceivedName(name: string): Option<string> {
    match LastBelow(name, NAME_MARKER, |name| + 1)
    case None => None
    case Some(j) => Some(NAME_MARKER + name[j + |NAME_MARKER|..])
  }

  /** The recordings table after an upload, or the exception that stops it. */
  datatype Saved = Saved(recordings: map<string, string>) | SaveFault(exc: Exception)

  /**
   * Storing an upload: the name is cut at the marker; an existing recording
   * of that name gets the new file, and a new one is created in the caller's
   * domain, whose `Domain` row must exist.
   */
  function SaveUpload(recordings: map<string, string>, domains: set<string>, up: Upload, env: Env): Saved {
    match ReceivedName(up.name)
    case None => SaveFault(IndexError)
    case Some(name) =>
      if name !in recordings && env.domainUuid !in domains then SaveFault(DoesNotExist("Domain"))
      else Saved(recordings[name := up.content])
  }

  /** What one event leaves behind: the dictionary, the recordings table and the answer. */
  datatype RecOutcome = RecOutcome(state: HState, recordings: map<string, string>, resp: Response)

  /** The whole of `get_data`: any upload is stored first, even on an exiting channel. */
  function Handle(s: HState, recordings: map<string, string>, domains: set<string>, ev: Event, env: Env): RecOutcome {
    var saved := if ev.upload.Some? then SaveUpload(recordings, domains, ev.upload.value, env) else Saved(recordings);
    match saved
    case SaveFault(exc) => RecOutcome(s, recordings, Fault(exc))
    case Saved(recs) => var o := Step(s, ev, env); RecOutcome(o.state, recs, o.resp)
  }

  /**
   * An upload whose name contains the marker is stored under the marker and
   * its tail, replacing any earlier file of that name, unless the recording
   * is new and the domain row is missing; then the dictionary moves as
   * `Step` says. A name without the marker raises IndexError, and a missing
   * domain DoesNotExist, with nothing changed, even when the channel exits.
   */
  lemma UploadComesFirst(s: HState, recordings: map<string, string>, domains: set<string>, ev: Event, env: Env)
    requires ev.upload.Some?
    ensures var r := Handle(s, recordings, domains, ev, env);
      var up := ev.upload.value;
      match ReceivedName(up.name)
      case None =>
        && r == RecOutcome(s, recordings, Fault(IndexError))
        && forall j :: 0 <= j <= |up.name| ==> !OccursAt(up.name, NAME_MARKER, j)
      case Some(name) =>
        if name !in recordings && env.domainUuid !in domains then
          r == RecOutcome(s, recordings, Fault(DoesNotExist("Domain")))
        else
          && r.recordings == recordings[name := up.content]
          && r.recordings[name] == up.content
          && (forall n :: n in recordings && n != name ==> r.recordings[n] == recordings[n])
          && (r.state, r.resp) == (Step(s, ev, env).state, Step(s, ev, env).resp)
  {
  }

  /** Without an upload the table is unchanged and the event is just `Step`. */
  lemma NoUploadIsStep(s: HState, recordings: map<string, string>, domains: set<string>, ev: Event, env: Env)
    requires ev.upload.None?
    ensures Handle(s, recordings, domains, ev, env)
      == RecOutcome(Step(s, ev, env).state, recordings, Step(s, ev, env).resp)
  {
  }

  /**
   * The file the record step asks for, under the default prefix, comes back
   * with the switch's UUID in front of it; cutting at the marker recovers the
   * name exactly, whatever the UUID.
   */
  lemma ReceivedNameRecovers(uuid: string, number: string)
    requires AllDigits(number)
    ensures ReceivedName(uuid + DEFAULT_PREFIX + number + ".wav") == Some(DEFAULT_PREFIX + number + ".wav")
  {
    var name := uuid + DEFAULT_PREFIX + number + ".wav";
    var k := |uuid|;
    var m := NAME_MARKER;
    assert name[k..k + |m|] == m;
    forall j | k < j < |name|
      ensures name[j] != 'r' || (j + 1 < |name| && name[j + 1] != 'e')
    {
      if j - k == 4 {
        assert name[j + 1] == m[5];
      } else if j - k < |m| {
        assert name[j] == m[j - k];
      } else if j - k - |m| < |number| {
        assert name[j] == number[j - k - |m|];
      } else {
        assert name[j] == ".wav"[j - k - |m| - |number|];
      }
    }
    forall j | k < j <= |name|
      ensures !OccursAt(name, m, j)
    {
      if j + |m| <= |name| {
        assert name[j..j + |m|][0] == name[j] && name[j..j + |m|][1] == name[j + 1];
      }
    }
    var r := LastBelow(name, m, |name| + 1);
    assert OccursAt(name, m, k);
    assert r.Some? && r.value == k;
    assert name[k + |m|..] == number + ".wav";
    assert ReceivedName(name) == Some(m + name[k + |m|..]);
    assert m + (number + ".wav") == DEFAULT_PREFIX + number + ".wav";
  }

  /** `RecordingsHandler`: the handler's session dictionary between events. */
  class RecordingsHandler {
    var state: HState
    const store: Store

    constructor (store: Store)
      ensures state == map[] && this.store == store
    {
      state := map[];
      this.store := store;
    }

    /**
     * `get_data` for one event: store any upload in the recordings table,
     * then answer.
     */
    method GetData(ev: Event, env: Env) returns (resp: Response)
      modifies this, store`recordings
      ensures var r := Handle(old(state), old(store.recordings), store.domains, ev, env);
        state == r.state && store.recordings == r.recordings && resp == r.resp
    {
      if ev.upload.Some? {
        var receivedFileName := ReceivedName(ev.upload.value.name);
        if receivedFileName.None? {
          return Fault(IndexError);
        }
        var name := receivedFileName.value;
        if name !in store.recordings && env.domainUuid !in store.domains {
          return Fault(DoesNotExist("Domain"));
        }
        store.recordings := store.recordings[name := ev.upload.value.content];
      }
      resp := Respond(ev, env);
    }

    /** The rest of `get_data`: update the dictionary and build the work block. */
    method Respond(ev: Event, env: Env) returns (resp: Response)
      modifies this
      ensures state == Step(old(state), ev, env).state
      ensures resp == Step(old(state), ev, env).resp
      ensures Inv(old(state)) ==> Inv(state) && !resp.Fault?
    {
      StepKeepsInv(state, ev, env);
      if ev.exiting {
        return Text(OK_TEXT);
      }
      var work: seq<Instr> := [];
      if NEXT_ACTION in state {
        var nextAction := state[NEXT_ACTION];
        if nextAction == JStr(CHK_PIN) {
          if "pin_number" !in state {
            return Fault(KeyError("pin_number"));
          }
          if state["pin_number"] == JStr(VarOr(ev, "pb_input", "")) {
            state := state[NEXT_ACTION := JStr(RECORD)];
            work := work + [PlayAndGetDigits(ID_NUMBER_PROMPT, None, None)];
          } else {
            work := work + [Playback(FAIL_AUTH_PROMPT)];
            work := work + [Hangup(None)];
          }
        } else if nextAction == JStr(RECORD) {
          var recFile := RecFileName(ev);
          state := state["rec_file" := JStr(env.recordingsDir + "/" + env.domainName + "/" + recFile)];
          state := state[NEXT_ACTION := JStr(REVIEW)];
          work := work + [Playback(RECORDING_STARTED_PROMPT)];
          work := work + [RecordAndGetDigits(recFile)];
        } else if nextAction == JStr(REVIEW) {
          if "rec_file" !in state {
            return Fault(KeyError("rec_file"));
          }
          var recFile := state["rec_file"];
          state := state[NEXT_ACTION := JStr(RERECORD)];
          if !recFile.JStr? {
            return Fault(TypeError("rec_file"));
          }
          work := work + [Pause(1000)];
          work := work + [Playback(recFile.s)];
          work := work + [Pause(500)];
          work := work + [Playback(PRESS_PROMPT)];
          work := work + [Playback(DIGIT_ONE_PROMPT)];
          work := work + [PlayAndGetDigits(RERECORD_PROMPT, Some("pb_input"), Some("~\\d{1}"))];
        } else if nextAction == JStr(RERECORD) {
          if VarOr(ev, "pb_input", "") == "1" {
            if "rec_file" !in state {
              return Fault(KeyError("rec_file"));
            }
            state := state[NEXT_ACTION := JStr(RECORD)];
            work := work + [Continue];
          } else {
            work := work + [Playback(RECORDING_SAVED_PROMPT)];
            work := work + [Hangup(None)];
          }
        }
      } else {
        var pinNumber := Var(ev, "pin_number");
        if !Truthy(pinNumber) {
          return ErrorHangup("R2001");
        }
        state := state["pin_number" := JStr(pinNumber.value)];
        state := state[NEXT_ACTION := JStr(CHK_PIN)];
        work := work + [PlayAndGetDigits(ENTER_PASS_PROMPT, None, None)];
      }
      resp := Document(work);
    }
  }
}
