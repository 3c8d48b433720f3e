/**
 * The conference handler: ask for a room PIN, look it up among the enabled
 * rooms of the conference centre (counting bad PINs), derive the member's
 * flags, schedule the conference recording once per conference through a
 * marker file, announce the caller's recorded name, and join the conference.
 * On exit the caller's conference session is marked not live and the marker
 * and name clip are removed.
 */
module Conference {
  import opened HttApi
  import opened Config

  const JOIN_CONF := "join-conf"
  const ENTER_CONF_PIN_PROMPT := "conference/conf-enter_conf_pin.wav"
  const BAD_PIN_PROMPT := "conference/conf-bad-pin.wav"
  const SAY_NAME_PROMPT := "ivr/ivr-say_name.wav"
  const RECORDING_STARTED_PROMPT := "ivr/ivr-recording_started.wav"

  /** Bad PINs are answered with the bad-pin prompt while the count stays below this. */
  const MAX_PIN_RETRIES := 4

  /** The profile and `live` value of a session row created by `get_conf_session`. */
  const DEFAULT_PROFILE := "default"
  const NEW_SESSION_LIVE := "true"

  /** The pieces of the file paths and scheduled switch commands the handler builds. */
  const CLIP_PREFIX := "/tmp/conference-"
  const TMP_DIR := "/tmp/"
  const MARKER_SUFFIX := "-recording"
  const ARCHIVE_DIR := "/archive/"
  const WAV_SUFFIX := ".wav"
  const RECORD_CMD_PREFIX := "res=${sched_api +6 none conference "
  const RECORD_CMD_INFIX := " record "
  const ANNOUNCE_CMD_PREFIX := "res=${sched_api +1 none conference "
  const ANNOUNCE_CMD_INFIX := " play file_string://"
  const ANNOUNCE_CMD_SUFFIX := "!conference/conf-has_joined.wav}"

  /**
   * What the handler reads from outside the event: the switch's recordings
   * directory setting, today's date as `%Y`, `%b` and `%d`, and the primary
   * key the database gives a session row created during this event.
   */
  datatype ConfEnv = ConfEnv(
    switchRecordingsDir: string, year: string, month: string, day: string, newSessionId: string)

  /** The shared state the handler changes: the `ConferenceSessions` rows and /tmp's files. */
  datatype World = World(sessions: map<string, ConfSession>, files: map<string, string>)

  /** What one event does: the dictionary, the shared state and the answer. */
  datatype ConfOutcome = ConfOutcome(state: HState, world: World, resp: Response)

  /** Python's `'%s' % v` for a value of the dictionary. */
  function Show(v: JVal): (r: string)
    ensures v.JStr? ==> r == v.s
  {
    match v
    case JStr(s) => s
    case JInt(i) => IntToDecimal(i)
    case JBool(b) => if b then "True" else "False"
  }

  /** A new `ConferenceSessions` row. */
  function NewSession(profile: string, room: Option<string>): ConfSession {
    ConfSession(room, profile, NEW_SESSION_LIVE, "", "", "")
  }

  /** The session `get_conf_session` settles on, and the rows after it. */
  datatype SessionPick = SessionPick(id: string, sessions: map<string, ConfSession>)

  /** The dictionary names a session row that exists. */
  predicate Resumes(s: HState, sessions: map<string, ConfSession>) {
    "sess_uuid" in s && Show(s["sess_uuid"]) in sessions
  }

  /**
   * `get_conf_session`: the row named by `sess_uuid` when it exists,
   * otherwise a new row for `room` and `profile` under the fresh key.
   */
  function ConfSessionFor(
    s: HState, sessions: map<string, ConfSession>, profile: string, room: Option<string>, newId: string)
    : (p: SessionPick)
    ensures p.id in p.sessions
    ensures p.sessions.Keys == sessions.Keys + {p.id}
    ensures forall k :: k in sessions && k != p.id ==> p.sessions[k] == sessions[k]
    ensures Resumes(s, sessions) ==> p.id == Show(s["sess_uuid"]) && p.sessions == sessions
    ensures !Resumes(s, sessions) ==> p.id == newId && p.sessions[p.id] == NewSession(profile, room)
  {
    if Resumes(s, sessions) then SessionPick(Show(s["sess_uuid"]), sessions)
    else SessionPick(newId, sessions[newId := NewSession(profile, room)])
  }

  /** The keys of the live session rows of `room` (no room matches the rows without one). */
  function LiveSessions(sessions: map<string, ConfSession>, room: Option<string>): set<string> {
    set k | k in sessions && sessions[k].room == room && sessions[k].live == "true"
  }

  /** `get_live_session_count`. */
  function LiveCount(sessions: map<string, ConfSession>, room: Option<string>): nat {
    |LiveSessions(sessions, room)|
  }

  /** Where an uploaded name clip is written. */
  function ClipPath(name: string): string {
    CLIP_PREFIX + name
  }

  /** The marker file that holds the recording path of a conference being recorded. */
  function MarkerPath(confId: string): string {
    TMP_DIR + confId + MARKER_SUFFIX
  }

  /** `<recordings dir>/<domain>/archive/<year>/<month>/<day>/<session>.wav`. */
  function ArchivePath(env: Env, cenv: ConfEnv, sessId: string): string {
    cenv.switchRecordingsDir + "/" + env.domainName + ARCHIVE_DIR + cenv.year + "/" + cenv.month + "/"
      + cenv.day + "/" + sessId + WAV_SUFFIX
  }

  /** The switch command that starts recording the conference six seconds later. */
  function RecordCommand(confId: string, path: string): string {
    RECORD_CMD_PREFIX + confId + RECORD_CMD_INFIX + path + "}"
  }

  /** The switch command that plays the caller's name and "has joined" one second later. */
  function AnnounceCommand(confId: string, clip: string): string {
    ANNOUNCE_CMD_PREFIX + confId + ANNOUNCE_CMD_INFIX + clip + ANNOUNCE_CMD_SUFFIX
  }

  /** A posted file is stored under /tmp and remembered as `name_recording`. */
  function Received(s: HState, w: World, ev: Event): (HState, World) {
    match ev.upload
    case None => (s, w)
    case Some(u) =>
      (s["name_recording" := JStr(ClipPath(u.name))], w.(files := w.files[ClipPath(u.name) := u.content]))
  }

  /** The marker is removed on exit: one is remembered and no session of the room is live. */
  predicate DropsMarker(s: HState, sessions: map<string, ConfSession>, room: Option<string>) {
    "rec_tmp_flag_file" in s && LiveCount(sessions, room) < 1
  }

  /** The exiting branch: end the session, then remove the marker and the name clip. */
  function ExitStep(s: HState, w: World, cenv: ConfEnv): ConfOutcome {
    var p := ConfSessionFor(s, w.sessions, DEFAULT_PROFILE, None, cenv.newSessionId);
    var row := p.sessions[p.id].(live := "false");
    var sessions := p.sessions[p.id := row];
    var dropMarker := DropsMarker(s, sessions, row.room);
    if dropMarker && !s["rec_tmp_flag_file"].JStr? then
      ConfOutcome(s, World(sessions, w.files), Fault(TypeError("rec_tmp_flag_file")))
    else
      var files := if dropMarker then w.files - {s["rec_tmp_flag_file"].s} else w.files;
      if "name_recording" in s && !s["name_recording"].JStr? then
        ConfOutcome(s, World(sessions, files), Fault(TypeError("name_recording")))
      else
        var files' := if "name_recording" in s then files - {s["name_recording"].s} else files;
        ConfOutcome(s, World(sessions, files'), Text(OK_TEXT))
  }

  /** The room filter: enabled, and the entered PIN is its participant or moderator PIN. */
  predicate Matches(r: Room, pin: Option<string>) {
    pin.Some? && (r.participantPin == pin.value || r.moderatorPin == pin.value) && r.enabled == "true"
  }

  /** 0 for a participant, 1 for a moderator; the participant PIN is tried first. */
  function MemberType(room: Room, pin: string): nat {
    if pin == room.participantPin then 0 else 1
  }

  /** The member flags, in order: wait-mod and mute for participants, moderator for moderators. */
  function FlagList(room: Room, memberType: nat): seq<string> {
    (if room.waitMod == "true" && memberType == 0 then ["wait-mod"] else [])
    + (if room.mute == "true" && memberType == 0 then ["mute"] else [])
    + (if memberType == 1 then ["moderator"] else [])
  }

  function Flags(room: Room, memberType: nat): string {
    Join(FlagList(room, memberType), "|")
  }

  /**
   * The dictionary once the caller is admitted to `room`, given the room's
   * member limit as text and the caller's flags.
   */
  function Admitted(s: HState, room: Room, sessId: string, maxMembers: string, flags: string, memberType: nat): HState {
    s["conf_uuid" := JStr(room.id)]["sess_uuid" := JStr(sessId)]["name" := JStr(room.name)]
     ["profile" := JStr(room.profile)]["max_members" := JStr(maxMembers)]
     ["record" := JStr(room.record)]["wait_mod" := JStr(room.waitMod)]["announce" := JStr(room.announce)]
     ["sounds" := JStr(room.sounds)]["mute" := JStr(room.mute)]["flags" := JStr(flags)]
     ["member_type" := JInt(memberType)][NEXT_ACTION := JStr(JOIN_CONF)]
  }

  /** Ask for the name clip when the room announces, say "recording started" when it records. */
  function AdmitWork(room: Room, env: Env): seq<Instr> {
    (if room.announce == "true" then [Playback(SAY_NAME_PROMPT), RecordAndGetDigits(env.sessionId + ".wav")] else [])
    + (if room.record == "true" then [Pause(500), Playback(RECORDING_STARTED_PROMPT)] else [])
  }

  /** A retry count as Python adds to it: a boolean counts as 0 or 1. */
  function RetryValue(v: JVal): int
    requires !v.JStr?
  {
    if v.JInt? then v.i else if v.b then 1 else 0
  }

  /** No enabled room has the PIN: forget `next_action` and count the attempt. */
  function BadPin(s: HState, w: World): ConfOutcome {
    var s1 := s - {NEXT_ACTION};
    if "pin_retries" in s1 && s1["pin_retries"].JStr? then ConfOutcome(s, w, Fault(TypeError("pin_retries")))
    else
      var n := if "pin_retries" in s1 then RetryValue(s1["pin_retries"]) + 1 else 1;
      ConfOutcome(s1["pin_retries" := JInt(n)], w,
                  Document(if n < MAX_PIN_RETRIES then [Playback(BAD_PIN_PROMPT)]
                           else [Playback(FAIL_AUTH_PROMPT), Hangup(None)]))
  }

  /** The chk-pin branch over the rooms of the centre, in queryset order. */
  function CheckPinStep(s: HState, w: World, rooms: seq<Room>, ev: Event, env: Env, cenv: ConfEnv): ConfOutcome {
    var pin := Var(ev, "pb_input");
    var i := FindFirst(rooms, (r: Room) => Matches(r, pin));
    if i.None? then BadPin(s, w)
    else
      var room := rooms[i.value];
      var p := ConfSessionFor(s, w.sessions, room.profile, Some(room.id), cenv.newSessionId);
      var memberType := MemberType(room, pin.value);
      ConfOutcome(Admitted(s, room, p.id, IntToDecimal(room.maxMembers), Flags(room, memberType), memberType),
                  World(p.sessions, w.files), Document(AdmitWork(room, env)))
  }

  /** A join-conf event part way through: the dictionary, the shared state and the work so far. */
  datatype Partial = Partial(state: HState, world: World, work: seq<Instr>)

  /**
   * Recording on join: reuse the path in the conference's marker file, or
   * write the marker and schedule the recording; remember the marker and
   * store the path and the caller's identity on the session row.
   */
  function RecordPart(s: HState, p: SessionPick, files: map<string, string>, ev: Event, env: Env, cenv: ConfEnv): Partial
    requires "conf_uuid" in s && "sess_uuid" in s && p.id in p.sessions
  {
    var confId := Show(s["conf_uuid"]);
    var marker := MarkerPath(confId);
    var newPath := ArchivePath(env, cenv, Show(s["sess_uuid"]));
    var path := if marker in files then files[marker] else newPath;
    var row := p.sessions[p.id].(recording := path,
                                  callerIdName := VarOr(ev, "Caller-Orig-Caller-ID-Name", "None"),
                                  callerIdNumber := VarOr(ev, "Caller-Orig-Caller-ID-Number", "None"));
    Partial(s["rec_tmp_flag_file" := JStr(marker)],
            World(p.sessions[p.id := row], if marker in files then files else files[marker := newPath]),
            if marker in files then [] else [Exec("set", RecordCommand(confId, newPath))])
  }

  /** The rest of a join: announce the caller (the only case the code handles) and join. */
  function AnnouncePart(part: Partial): ConfOutcome {
    var s := part.state;
    if "announce" !in s then ConfOutcome(s, part.world, Fault(KeyError("announce")))
    else if s["announce"] != JStr("true") then ConfOutcome(s, part.world, Fault(UnboundLocalError("announce_data")))
    else if "conf_uuid" !in s then ConfOutcome(s, part.world, Fault(KeyError("conf_uuid")))
    else if "name_recording" !in s then ConfOutcome(s, part.world, Fault(KeyError("name_recording")))
    else if "profile" !in s then ConfOutcome(s, part.world, Fault(KeyError("profile")))
    else if "flags" !in s then ConfOutcome(s, part.world, Fault(KeyError("flags")))
    else if !(s["profile"].JStr? && s["flags"].JStr? && s["conf_uuid"].JStr?) then
      ConfOutcome(s, part.world, Fault(TypeError("conference")))
    else
      var confId := s["conf_uuid"].s;
      ConfOutcome(s, part.world, Document(
        part.work + [Exec("set", AnnounceCommand(confId, Show(s["name_recording"]))),
                     Conference(s["profile"].s, s["flags"].s, confId)]))
  }

  /** The join-conf branch. */
  function JoinStep(s: HState, w: World, ev: Event, env: Env, cenv: ConfEnv): ConfOutcome {
    var p := ConfSessionFor(s, w.sessions, DEFAULT_PROFILE, None, cenv.newSessionId);
    if "record" !in s then ConfOutcome(s, World(p.sessions, w.files), Fault(KeyError("record")))
    else if s["record"] != JStr("true") then AnnouncePart(Partial(s, World(p.sessions, w.files), []))
    else if "sess_uuid" !in s then ConfOutcome(s, World(p.sessions, w.files), Fault(KeyError("sess_uuid")))
    else if "conf_uuid" !in s then ConfOutcome(s, World(p.sessions, w.files), Fault(KeyError("conf_uuid")))
    else AnnouncePart(RecordPart(s, p, w.files, ev, env, cenv))
  }

  /** The centre lookup fails: no `conf_uuid` yet and the event names no known centre. */
  predicate UnknownCentre(s: HState, centres: map<string, Centre>, ev: Event) {
    "conf_uuid" !in s && ("conference_uuid" !in ev.vars || ev.vars["conference_uuid"] !in centres)
  }

  /** The body of `get_data` after any upload has been stored. */
  function Body(s: HState, w: World, centres: map<string, Centre>, ev: Event, env: Env, cenv: ConfEnv): ConfOutcome {
    if ev.exiting then ExitStep(s, w, cenv)
    else if UnknownCentre(s, centres, ev) then ConfOutcome(s, w, ErrorHangup("C0001"))
    else if NEXT_ACTION in s then
      if s[NEXT_ACTION] == JStr(CHK_PIN) then
        if "conf_uuid" in s then ConfOutcome(s, w, Fault(UnboundLocalError("cnf")))
        else CheckPinStep(s, w, centres[ev.vars["conference_uuid"]].rooms, ev, env, cenv)
      else if s[NEXT_ACTION] == JStr(JOIN_CONF) then JoinStep(s, w, ev, env, cenv)
      else ConfOutcome(s, w, Document([]))
    else
      ConfOutcome(s[NEXT_ACTION := JStr(CHK_PIN)], w,
                  Document([PlayAndGetDigits(ENTER_CONF_PIN_PROMPT, None, None)]))
  }

  /** One event of `ConferenceHandler.get_data`. */
  function Step(s: HState, w: World, centres: map<string, Centre>, ev: Event, env: Env, cenv: ConfEnv): ConfOutcome {
    var r := Received(s, w, ev);
    Body(r.0, r.1, centres, ev, env, cenv)
  }

  /** The shape of every dictionary the handler produces. */
  predicate Inv(s: HState) {
    && ("pin_retries" in s ==> s["pin_retries"].JInt?)
    && ("conf_uuid" in s ==> At(s, JOIN_CONF))
    && (At(s, JOIN_CONF) ==>
          && GetStr(s, "conf_uuid").Some? && GetStr(s, "sess_uuid").Some?
          && GetStr(s, "profile").Some? && GetStr(s, "flags").Some?
          && GetStr(s, "record").Some? && GetStr(s, "announce").Some?)
    && ("rec_tmp_flag_file" in s ==> s["rec_tmp_flag_file"].JStr?)
    && ("name_recording" in s ==> s["name_recording"].JStr?)
  }

  /** The dictionary keys of the same length are different keys. */
  lemma KeysDistinct()
    ensures && NEXT_ACTION != "max_members" && NEXT_ACTION != "member_type" && NEXT_ACTION != "pin_retries"
            && "max_members" != "member_type" && "max_members" != "pin_retries" && "member_type" != "pin_retries"
            && "conf_uuid" != "sess_uuid" && "wait_mod" != "announce" && "record" != "sounds" && "name" != "mute"
  {
    assert NEXT_ACTION[0] != "max_members"[0] && NEXT_ACTION[0] != "member_type"[0] && NEXT_ACTION[0] != "pin_retries"[0];
    assert "max_members"[1] != "member_type"[1] && "max_members"[0] != "pin_retries"[0] && "member_type"[0] != "pin_retries"[0];
    assert "conf_uuid"[0] != "sess_uuid"[0] && "wait_mod"[0] != "announce"[0] && "record"[0] != "sounds"[0];
    assert "name"[0] != "mute"[0];
  }

  lemma AdmittedInv(s: HState, room: Room, sessId: string, maxMembers: string, flags: string, memberType: nat)
    requires Inv(s) && "conf_uuid" !in s
    ensures Inv(Admitted(s, room, sessId, maxMembers, flags, memberType))
  {
    KeysDistinct();
    AdmittedFields(s, room, sessId, maxMembers, flags, memberType);
  }

  lemma AdmittedFields(s: HState, room: Room, sessId: string, maxMembers: string, flags: string, memberType: nat)
    ensures var a := Admitted(s, room, sessId, maxMembers, flags, memberType);
      && At(a, JOIN_CONF) && a["conf_uuid"] == JStr(room.id) && a["sess_uuid"] == JStr(sessId)
      && a["member_type"] == JInt(memberType) && a["flags"] == JStr(flags)
      && a["profile"] == JStr(room.profile) && a["record"] == JStr(room.record)
      && a["announce"] == JStr(room.announce)
  {
  }

  lemma BadPinKeepsInv(s: HState, w: World)
    requires Inv(s) && "conf_uuid" !in s
    ensures Inv(BadPin(s, w).state) && !BadPin(s, w).resp.Fault?
  {
  }

  lemma CheckPinKeepsInv(s: HState, w: World, rooms: seq<Room>, ev: Event, env: Env, cenv: ConfEnv)
    requires Inv(s) && "conf_uuid" !in s
    ensures Inv(CheckPinStep(s, w, rooms, ev, env, cenv).state) && !CheckPinStep(s, w, rooms, ev, env, cenv).resp.Fault?
  {
    var pin := Var(ev, "pb_input");
    var i := FindFirst(rooms, (r: Room) => Matches(r, pin));
    if i.Some? {
      var room := rooms[i.value];
      var p := ConfSessionFor(s, w.sessions, room.profile, Some(room.id), cenv.newSessionId);
      AdmittedInv(s, room, p.id, IntToDecimal(room.maxMembers), Flags(room, MemberType(room, pin.value)),
                  MemberType(room, pin.value));
    } else {
      BadPinKeepsInv(s, w);
    }
  }

  /** The recording part of a join only remembers the marker in the dictionary. */
  lemma RecordPartState(s: HState, p: SessionPick, files: map<string, string>, ev: Event, env: Env, cenv: ConfEnv)
    requires "conf_uuid" in s && "sess_uuid" in s && p.id in p.sessions
    ensures RecordPart(s, p, files, ev, env, cenv).state
         == s["rec_tmp_flag_file" := JStr(MarkerPath(Show(s["conf_uuid"])))]
  {
  }

  /** The announcement part leaves the dictionary as it is. */
  lemma AnnouncePartState(part: Partial)
    ensures AnnouncePart(part).state == part.state
  {
  }

  /** The announcement part leaves the dictionary and the shared state as they are. */
  lemma AnnouncePartKeeps(part: Partial)
    ensures AnnouncePart(part).state == part.state && AnnouncePart(part).world == part.world
  {
  }

  /** A recording join is the recording part followed by the announcement part. */
  lemma JoinRecordedBranch(s: HState, w: World, ev: Event, env: Env, cenv: ConfEnv)
    requires "record" in s && s["record"] == JStr("true") && "sess_uuid" in s && "conf_uuid" in s
    ensures var p := ConfSessionFor(s, w.sessions, DEFAULT_PROFILE, None, cenv.newSessionId);
      p.id in p.sessions && JoinStep(s, w, ev, env, cenv) == AnnouncePart(RecordPart(s, p, w.files, ev, env, cenv))
  {
  }

  /** A join without recording is the announcement part alone, with the session row ensured. */
  lemma JoinUnrecordedBranch(s: HState, w: World, ev: Event, env: Env, cenv: ConfEnv)
    requires "record" in s && s["record"] != JStr("true")
    ensures var p := ConfSessionFor(s, w.sessions, DEFAULT_PROFILE, None, cenv.newSessionId);
      JoinStep(s, w, ev, env, cenv) == AnnouncePart(Partial(s, World(p.sessions, w.files), []))
  {
  }

  /** On a dictionary the handler produced, an announcing join with a name clip appends the announcement and the conference. */
  lemma AnnounceDocument(part: Partial)
    requires Inv(part.state) && At(part.state, JOIN_CONF) && part.state["announce"] == JStr("true")
    requires "name_recording" in part.state
    ensures var s := part.state;
      AnnouncePart(part).resp
        == Document(part.work + [Exec("set", AnnounceCommand(s["conf_uuid"].s, s["name_recording"].s)),
                                 Conference(s["profile"].s, s["flags"].s, s["conf_uuid"].s)])
  {
  }

  /** What the recording part of a join does, case by case on the marker. */
  lemma RecordPartFacts(s: HState, p: SessionPick, files: map<string, string>, ev: Event, env: Env, cenv: ConfEnv)
    requires "conf_uuid" in s && "sess_uuid" in s && p.id in p.sessions
    ensures var part := RecordPart(s, p, files, ev, env, cenv);
      var confId := Show(s["conf_uuid"]);
      var marker := MarkerPath(confId);
      var newPath := ArchivePath(env, cenv, Show(s["sess_uuid"]));
      && part.state == s["rec_tmp_flag_file" := JStr(marker)]
      && part.world.sessions.Keys == p.sessions.Keys
      && part.world.sessions[p.id].recording == (if marker in files then files[marker] else newPath)
      && part.world.sessions[p.id].callerIdName == VarOr(ev, "Caller-Orig-Caller-ID-Name", "None")
      && part.world.sessions[p.id].callerIdNumber == VarOr(ev, "Caller-Orig-Caller-ID-Number", "None")
      && (marker in files ==> part.world.files == files && part.work == [])
      && (marker !in files ==>
            part.world.files == files[marker := newPath] && part.work == [Exec("set", RecordCommand(confId, newPath))])
  {
  }

  /** The announcement part keeps the dictionary and the shared state, and only ever appends two instructions. */
  lemma AnnounceFacts(part: Partial)
    ensures var r := AnnouncePart(part);
      var s := part.state;
      && r.state == s && r.world == part.world
      && (r.resp.Document? ==>
            && "conf_uuid" in s && "name_recording" in s && "profile" in s && "flags" in s
            && s["conf_uuid"].JStr? && s["profile"].JStr? && s["flags"].JStr?
            && r.resp.work == part.work + [Exec("set", AnnounceCommand(s["conf_uuid"].s, Show(s["name_recording"]))),
                                           Conference(s["profile"].s, s["flags"].s, s["conf_uuid"].s)])
      && ((&& "announce" in s && s["announce"] == JStr("true")
           && "conf_uuid" in s && "name_recording" in s && "profile" in s && "flags" in s
           && s["conf_uuid"].JStr? && s["profile"].JStr? && s["flags"].JStr?)
          ==> r.resp.Document?)
  {
  }

  lemma JoinKeepsInv(s: HState, w: World, ev: Event, env: Env, cenv: ConfEnv)
    requires Inv(s) && At(s, JOIN_CONF)
    ensures Inv(JoinStep(s, w, ev, env, cenv).state)
  {
    var p := ConfSessionFor(s, w.sessions, DEFAULT_PROFILE, None, cenv.newSessionId);
    if s["record"] == JStr("true") {
      JoinRecordedBranch(s, w, ev, env, cenv);
      RecordPartState(s, p, w.files, ev, env, cenv);
      AnnouncePartState(RecordPart(s, p, w.files, ev, env, cenv));
    } else {
      AnnouncePartState(Partial(s, World(p.sessions, w.files), []));
    }
  }

  lemma BodyKeepsInv(s: HState, w: World, centres: map<string, Centre>, ev: Event, env: Env, cenv: ConfEnv)
    requires Inv(s)
    ensures Inv(Body(s, w, centres, ev, env, cenv).state)
    ensures Body(s, w, centres, ev, env, cenv).resp.Fault? ==> !ev.exiting && At(s, JOIN_CONF)
  {
    if ev.exiting || UnknownCentre(s, centres, ev) {
    } else if At(s, CHK_PIN) {
      CheckPinKeepsInv(s, w, centres[ev.vars["conference_uuid"]].rooms, ev, env, cenv);
    } else if At(s, JOIN_CONF) {
      JoinKeepsInv(s, w, ev, env, cenv);
    }
  }

  /**
   * Every dictionary the handler produces keeps its shape, and on those
   * dictionaries only a join-conf event can end in an exception.
   */
  lemma StepKeepsInv(s: HState, w: World, centres: map<string, Centre>, ev: Event, env: Env, cenv: ConfEnv)
    requires Inv(s)
    ensures var r := Step(s, w, centres, ev, env, cenv);
      && Inv(r.state)
      && (r.resp.Fault? ==> !ev.exiting && At(s, JOIN_CONF))
  {
    var rec := Received(s, w, ev);
    BodyKeepsInv(rec.0, rec.1, centres, ev, env, cenv);
  }

  /** A chk-pin event before any room is chosen runs the chk-pin branch over the centre's rooms. */
  lemma ChkPinBranch(s: HState, w: World, centres: map<string, Centre>, ev: Event, env: Env, cenv: ConfEnv)
    requires !ev.exiting && ev.upload.None? && Inv(s) && At(s, CHK_PIN) && !UnknownCentre(s, centres, ev)
    ensures Step(s, w, centres, ev, env, cenv)
         == CheckPinStep(s, w, centres[ev.vars["conference_uuid"]].rooms, ev, env, cenv)
  {
  }

  /** A join-conf event runs the join-conf branch once any posted name clip is stored. */
  lemma JoinBranch(s: HState, w: World, centres: map<string, Centre>, ev: Event, env: Env, cenv: ConfEnv)
    requires !ev.exiting && Inv(s) && At(s, JOIN_CONF)
    ensures var rec := Received(s, w, ev);
      && At(rec.0, JOIN_CONF) && Inv(rec.0)
      && Step(s, w, centres, ev, env, cenv) == JoinStep(rec.0, rec.1, ev, env, cenv)
  {
  }

  /** A fresh session: the dictionary waits at chk-pin and the caller is asked for the room PIN. */
  lemma StartPrompts(s: HState, w: World, centres: map<string, Centre>, ev: Event, env: Env, cenv: ConfEnv)
    requires !ev.exiting && ev.upload.None? && NEXT_ACTION !in s && !UnknownCentre(s, centres, ev)
    ensures Step(s, w, centres, ev, env, cenv)
         == ConfOutcome(s[NEXT_ACTION := JStr(CHK_PIN)], w, Document([PlayAndGetDigits(ENTER_CONF_PIN_PROMPT, None, None)]))
  {
  }

  /** Before a room is chosen, an event naming no known centre is error C0001 and changes nothing. */
  lemma UnknownCentreHangsUp(s: HState, w: World, centres: map<string, Centre>, ev: Event, env: Env, cenv: ConfEnv)
    requires !ev.exiting && ev.upload.None? && UnknownCentre(s, centres, ev)
    ensures Step(s, w, centres, ev, env, cenv) == ConfOutcome(s, w, ErrorHangup("C0001"))
  {
  }

  /** The bad PINs counted so far. */
  function Retries(s: HState): int {
    if "pin_retries" in s && s["pin_retries"].JInt? then s["pin_retries"].i else 0
  }

  /**
   * A PIN no enabled room of the centre has: `next_action` is removed,
   * `pin_retries` becomes one more than before (1 the first time), nothing
   * shared changes, and the answer is the bad-pin prompt alone while the count
   * is below 4, the failed-authentication prompt and a hangup from then on.
   */
  lemma BadPinCounts(s: HState, w: World, centres: map<string, Centre>, ev: Event, env: Env, cenv: ConfEnv)
    requires !ev.exiting && ev.upload.None? && Inv(s) && At(s, CHK_PIN) && !UnknownCentre(s, centres, ev)
    requires forall r :: r in centres[ev.vars["conference_uuid"]].rooms ==> !Matches(r, Var(ev, "pb_input"))
    ensures var r := Step(s, w, centres, ev, env, cenv);
      var n := Retries(s) + 1;
      && r.world == w && Inv(r.state)
      && r.state == (s - {NEXT_ACTION})["pin_retries" := JInt(n)]
      && (n < MAX_PIN_RETRIES ==> r.resp == Document([Playback(BAD_PIN_PROMPT)]))
      && (n >= MAX_PIN_RETRIES ==> r.resp == Document([Playback(FAIL_AUTH_PROMPT), Hangup(None)]))
  {
    var rooms := centres[ev.vars["conference_uuid"]].rooms;
    var pin := Var(ev, "pb_input");
    ChkPinBranch(s, w, centres, ev, env, cenv);
    var i := FindFirst(rooms, (r: Room) => Matches(r, pin));
    BadPinKeepsInv(s, w);
  }

  /**
   * Rounds of a failed PIN entry: in each, one event to be asked for the PIN
   * and one answering it.
   */
  function Attempts(s: HState, w: World, centres: map<string, Centre>, rounds: seq<(Event, Event)>,
                    env: Env, cenv: ConfEnv): ConfOutcome
    decreases |rounds|
  {
    if |rounds| == 0 then ConfOutcome(s, w, Document([]))
    else
      var prompt := Step(s, w, centres, rounds[0].0, env, cenv);
      var answer := Step(prompt.state, prompt.world, centres, rounds[0].1, env, cenv);
      if |rounds| == 1 then answer else Attempts(answer.state, answer.world, centres, rounds[1..], env, cenv)
  }

  /** An event of the conference centre, before a room is chosen. */
  predicate CentreEvent(centres: map<string, Centre>, ev: Event) {
    && !ev.exiting && ev.upload.None?
    && "conference_uuid" in ev.vars && ev.vars["conference_uuid"] in centres
  }

  /** The event answering with a PIN no enabled room of its centre has. */
  predicate WrongPinEvent(centres: map<string, Centre>, ev: Event) {
    && CentreEvent(centres, ev)
    && forall r :: r in centres[ev.vars["conference_uuid"]].rooms ==> !Matches(r, Var(ev, "pb_input"))
  }

  lemma OneAttempt(s: HState, w: World, centres: map<string, Centre>, ask: Event, answer: Event, env: Env, cenv: ConfEnv)
    requires Inv(s) && NEXT_ACTION !in s && "conf_uuid" !in s
    requires CentreEvent(centres, ask) && WrongPinEvent(centres, answer)
    ensures var r := Attempts(s, w, centres, [(ask, answer)], env, cenv);
      && r.world == w && Inv(r.state) && NEXT_ACTION !in r.state && "conf_uuid" !in r.state
      && Retries(r.state) == Retries(s) + 1
      && r.resp.Document? && (HangsUp(r.resp) <==> Retries(s) + 1 >= MAX_PIN_RETRIES)
  {
    var prompt := Step(s, w, centres, ask, env, cenv);
    StartPrompts(s, w, centres, ask, env, cenv);
    assert prompt.state == s[NEXT_ACTION := JStr(CHK_PIN)] && prompt.world == w;
    BadPinCounts(prompt.state, prompt.world, centres, answer, env, cenv);
    var r := Step(prompt.state, prompt.world, centres, answer, env, cenv);
    if Retries(s) + 1 >= MAX_PIN_RETRIES {
      assert r.resp.work[1].Hangup?;
    } else {
      assert forall i :: 0 <= i < |r.resp.work| ==> !r.resp.work[i].Hangup?;
    }
  }

  /**
   * The retry ceiling: a caller who enters any number of wrong PINs is asked
   * again after each one, the count grows by one per attempt, nothing shared
   * changes, and the call is hung up exactly once the count reaches 4.
   */
  lemma {:induction false} RetryCeiling(
    s: HState, w: World, centres: map<string, Centre>, rounds: seq<(Event, Event)>, env: Env, cenv: ConfEnv)
    requires Inv(s) && NEXT_ACTION !in s && "conf_uuid" !in s && |rounds| >= 1
    requires forall k :: 0 <= k < |rounds| ==> CentreEvent(centres, rounds[k].0) && WrongPinEvent(centres, rounds[k].1)
    ensures var r := Attempts(s, w, centres, rounds, env, cenv);
      && r.world == w && Inv(r.state) && NEXT_ACTION !in r.state
      && Retries(r.state) == Retries(s) + |rounds|
      && r.resp.Document? && (HangsUp(r.resp) <==> Retries(s) + |rounds| >= MAX_PIN_RETRIES)
    decreases |rounds|
  {
    OneAttempt(s, w, centres, rounds[0].0, rounds[0].1, env, cenv);
    var once := Attempts(s, w, centres, [rounds[0]], env, cenv);
    assert once == Attempts(s, w, centres, [(rounds[0].0, rounds[0].1)], env, cenv);
    if |rounds| > 1 {
      RetryCeiling(once.state, once.world, centres, rounds[1..], env, cenv);
      assert Attempts(s, w, centres, rounds, env, cenv) == Attempts(once.state, once.world, centres, rounds[1..], env, cenv);
    } else {
      assert rounds == [rounds[0]];
    }
  }

  /** The flags exactly: "moderator" for a moderator; wait-mod and mute, in that order, for a participant. */
  lemma FlagsExact(room: Room, memberType: nat)
    requires memberType <= 1
    ensures memberType == 1 ==> Flags(room, memberType) == "moderator"
    ensures memberType == 0 ==>
      Flags(room, memberType)
        == (if room.waitMod == "true" && room.mute == "true" then "wait-mod|mute"
            else if room.waitMod == "true" then "wait-mod"
            else if room.mute == "true" then "mute"
            else "")
  {
    if memberType == 0 && room.waitMod == "true" && room.mute == "true" {
      assert FlagList(room, memberType) == ["wait-mod", "mute"];
      assert Flags(room, memberType) == "wait-mod" + "|" + Join(["mute"], "|");
    }
  }

  /**
   * A PIN that rooms[i] is the first enabled room to have admits the caller
   * to that room: the dictionary moves to join-conf with the room's settings,
   * the member type is 0 exactly when the PIN is the participant PIN, the
   * flags follow the member type, the caller's session row exists, /tmp is
   * untouched, and the answer asks for the name clip and announces the
   * recording as the room says.
   */
  lemma PinAdmits(s: HState, w: World, centres: map<string, Centre>, ev: Event, env: Env, cenv: ConfEnv, i: nat)
    requires !ev.exiting && ev.upload.None? && Inv(s) && At(s, CHK_PIN) && !UnknownCentre(s, centres, ev)
    requires var rooms := centres[ev.vars["conference_uuid"]].rooms;
      && i < |rooms| && Matches(rooms[i], Var(ev, "pb_input"))
      && forall j :: 0 <= j < i ==> !Matches(rooms[j], Var(ev, "pb_input"))
    ensures var r := Step(s, w, centres, ev, env, cenv);
      var room := centres[ev.vars["conference_uuid"]].rooms[i];
      var pin := ev.vars["pb_input"];
      && Inv(r.state) && At(r.state, JOIN_CONF)
      && r.state["conf_uuid"] == JStr(room.id)
      && (r.state["member_type"] == JInt(0) <==> pin == room.participantPin)
      && (r.state["member_type"] == JInt(1) <==> pin != room.participantPin)
      && r.state["flags"] == JStr(Flags(room, if pin == room.participantPin then 0 else 1))
      && r.state["profile"] == JStr(room.profile)
      && r.state["record"] == JStr(room.record) && r.state["announce"] == JStr(room.announce)
      && GetStr(r.state, "sess_uuid").Some? && r.state["sess_uuid"].s in r.world.sessions
      && r.world.files == w.files
      && r.resp == Document(AdmitWork(room, env))
  {
    var rooms := centres[ev.vars["conference_uuid"]].rooms;
    var pin := Var(ev, "pb_input");
    ChkPinBranch(s, w, centres, ev, env, cenv);
    var k := FindFirst(rooms, (r: Room) => Matches(r, pin));
    assert k.Some? && k.value == i;
    var room := rooms[i];
    var p := ConfSessionFor(s, w.sessions, room.profile, Some(room.id), cenv.newSessionId);
    var memberType := MemberType(room, pin.value);
    var maxMembers := IntToDecimal(room.maxMembers);
    var flags := Flags(room, memberType);
    assert CheckPinStep(s, w, rooms, ev, env, cenv)
        == ConfOutcome(Admitted(s, room, p.id, maxMembers, flags, memberType), World(p.sessions, w.files),
                       Document(AdmitWork(room, env)));
    AdmittedInv(s, room, p.id, maxMembers, flags, memberType);
    AdmittedFields(s, room, p.id, maxMembers, flags, memberType);
  }

  /** A join-conf event on a dictionary the handler produced, with no file posted. */
  predicate Joining(s: HState, ev: Event) {
    !ev.exiting && ev.upload.None? && Inv(s) && At(s, JOIN_CONF)
  }

  /**
   * The first caller to join a recorded conference writes the marker with
   * the archive path of their session, remembers the marker, stores the path
   * and their caller id on their session row, and schedules the recording as
   * the first instruction.
   */
  lemma FirstJoinerSchedules(s: HState, w: World, centres: map<string, Centre>, ev: Event, env: Env, cenv: ConfEnv)
    requires Joining(s, ev) && s["record"] == JStr("true") && MarkerPath(s["conf_uuid"].s) !in w.files
    ensures var r := Step(s, w, centres, ev, env, cenv);
      var conf := s["conf_uuid"].s;
      var path := ArchivePath(env, cenv, s["sess_uuid"].s);
      var p := ConfSessionFor(s, w.sessions, DEFAULT_PROFILE, None, cenv.newSessionId);
      && r.state == s["rec_tmp_flag_file" := JStr(MarkerPath(conf))]
      && r.world.files == w.files[MarkerPath(conf) := path]
      && r.world.sessions.Keys == p.sessions.Keys
      && r.world.sessions[p.id].recording == path
      && r.world.sessions[p.id].callerIdName == VarOr(ev, "Caller-Orig-Caller-ID-Name", "None")
      && r.world.sessions[p.id].callerIdNumber == VarOr(ev, "Caller-Orig-Caller-ID-Number", "None")
      && (r.resp.Document? ==> |r.resp.work| == 3 && r.resp.work[0] == Exec("set", RecordCommand(conf, path)))
  {
    var p := ConfSessionFor(s, w.sessions, DEFAULT_PROFILE, None, cenv.newSessionId);
    JoinBranch(s, w, centres, ev, env, cenv);
    JoinRecordedBranch(s, w, ev, env, cenv);
    RecordPartFacts(s, p, w.files, ev, env, cenv);
    AnnounceFacts(RecordPart(s, p, w.files, ev, env, cenv));
  }

  /**
   * A later caller of a conference whose marker exists reuses the path the
   * marker holds, leaves /tmp alone and schedules no recording: the answer,
   * when there is one, is the announcement and the conference alone.
   */
  lemma LaterJoinerReuses(s: HState, w: World, centres: map<string, Centre>, ev: Event, env: Env, cenv: ConfEnv)
    requires Joining(s, ev) && s["record"] == JStr("true") && MarkerPath(s["conf_uuid"].s) in w.files
    ensures var r := Step(s, w, centres, ev, env, cenv);
      var conf := s["conf_uuid"].s;
      var p := ConfSessionFor(s, w.sessions, DEFAULT_PROFILE, None, cenv.newSessionId);
      && r.state == s["rec_tmp_flag_file" := JStr(MarkerPath(conf))]
      && r.world.files == w.files
      && r.world.sessions.Keys == p.sessions.Keys
      && r.world.sessions[p.id].recording == w.files[MarkerPath(conf)]
      && (r.resp.Document? ==>
            r.resp.work == [ Exec("set", AnnounceCommand(conf, s["name_recording"].s)),
                             Conference(s["profile"].s, s["flags"].s, conf) ])
  {
    var p := ConfSessionFor(s, w.sessions, DEFAULT_PROFILE, None, cenv.newSessionId);
    JoinBranch(s, w, centres, ev, env, cenv);
    JoinRecordedBranch(s, w, ev, env, cenv);
    RecordPartFacts(s, p, w.files, ev, env, cenv);
    AnnounceFacts(RecordPart(s, p, w.files, ev, env, cenv));
  }

  /** A later caller of a conference whose marker exists schedules no recording. */
  lemma LaterJoinerDoesNotRecord(s: HState, w: World, centres: map<string, Centre>, ev: Event, env: Env, cenv: ConfEnv)
    requires Joining(s, ev) && s["record"] == JStr("true") && MarkerPath(s["conf_uuid"].s) in w.files
    ensures var r := Step(s, w, centres, ev, env, cenv);
      r.resp.Document? ==>
        |r.resp.work| == 2 && forall i, q :: 0 <= i < 2 ==> r.resp.work[i] != Exec("set", RecordCommand(s["conf_uuid"].s, q))
  {
    LaterJoinerReuses(s, w, centres, ev, env, cenv);
    var r := Step(s, w, centres, ev, env, cenv);
    if r.resp.Document? {
      var conf := s["conf_uuid"].s;
      forall q ensures AnnounceCommand(conf, s["name_recording"].s) != RecordCommand(conf, q) {
        CommandsDiffer(conf, s["name_recording"].s, conf, q);
      }
    }
  }

  /**
   * Two callers joining the same recorded conference one after the other:
   * only the first schedules the recording, and the second's session row
   * records the path the first one chose.
   */
  lemma {:induction false} RecordScheduledOnce(
    s1: HState, s2: HState, w: World, centres: map<string, Centre>, ev1: Event, ev2: Event,
    env: Env, cenv1: ConfEnv, cenv2: ConfEnv)
    requires Joining(s1, ev1) && Joining(s2, ev2)
    requires s1["record"] == JStr("true") && s2["record"] == JStr("true") && s1["conf_uuid"] == s2["conf_uuid"]
    requires MarkerPath(s1["conf_uuid"].s) !in w.files
    ensures var r1 := Step(s1, w, centres, ev1, env, cenv1);
      var r2 := Step(s2, r1.world, centres, ev2, env, cenv2);
      var conf := s1["conf_uuid"].s;
      var path := ArchivePath(env, cenv1, s1["sess_uuid"].s);
      var p2 := ConfSessionFor(s2, r1.world.sessions, DEFAULT_PROFILE, None, cenv2.newSessionId);
      && MarkerPath(conf) in r1.world.files && r1.world.files[MarkerPath(conf)] == path
      && r2.world.files == r1.world.files
      && (r1.resp.Document? ==> |r1.resp.work| == 3 && r1.resp.work[0] == Exec("set", RecordCommand(conf, path)))
      && (r2.resp.Document? ==>
            |r2.resp.work| == 2 && forall i, q :: 0 <= i < 2 ==> r2.resp.work[i] != Exec("set", RecordCommand(conf, q)))
      && p2.id in r2.world.sessions && r2.world.sessions[p2.id].recording == path
  {
    FirstJoinerSchedules(s1, w, centres, ev1, env, cenv1);
    var r1 := Step(s1, w, centres, ev1, env, cenv1);
    assert MarkerPath(s2["conf_uuid"].s) in r1.world.files;
    LaterJoinerReuses(s2, r1.world, centres, ev2, env, cenv2);
    var p2 := ConfSessionFor(s2, r1.world.sessions, DEFAULT_PROFILE, None, cenv2.newSessionId);
    var r2 := Step(s2, r1.world, centres, ev2, env, cenv2);
    assert p2.id in r2.world.sessions;
    assert r2.world.sessions[p2.id].recording == r1.world.files[MarkerPath(s1["conf_uuid"].s)];
    LaterJoinerDoesNotRecord(s2, r1.world, centres, ev2, env, cenv2);
  }

  /** An announcement is never a recording command: they differ in the scheduling delay. */
  lemma CommandsDiffer(conf: string, clip: string, conf': string, path: string)
    ensures AnnounceCommand(conf, clip) != RecordCommand(conf', path)
  {
    assert AnnounceCommand(conf, clip)[17] == ANNOUNCE_CMD_PREFIX[17];
    assert RecordCommand(conf', path)[17] == RECORD_CMD_PREFIX[17];
  }

  /** The work of an announcing join with a name clip, into a room that records. */
  lemma JoinAnnouncesRecorded(s: HState, w: World, ev: Event, env: Env, cenv: ConfEnv)
    requires Inv(s) && At(s, JOIN_CONF) && s["announce"] == JStr("true") && "name_recording" in s
    requires s["record"] == JStr("true")
    ensures var p := ConfSessionFor(s, w.sessions, DEFAULT_PROFILE, None, cenv.newSessionId);
      var part := RecordPart(s, p, w.files, ev, env, cenv);
      JoinStep(s, w, ev, env, cenv).resp
        == Document(part.work + [Exec("set", AnnounceCommand(s["conf_uuid"].s, s["name_recording"].s)),
                                 Conference(s["profile"].s, s["flags"].s, s["conf_uuid"].s)])
  {
    var p := ConfSessionFor(s, w.sessions, DEFAULT_PROFILE, None, cenv.newSessionId);
    JoinRecordedBranch(s, w, ev, env, cenv);
    RecordPartState(s, p, w.files, ev, env, cenv);
    AnnounceDocument(RecordPart(s, p, w.files, ev, env, cenv));
  }

  /** The work of an announcing join with a name clip, into a room that does not record. */
  lemma JoinAnnouncesUnrecorded(s: HState, w: World, ev: Event, env: Env, cenv: ConfEnv)
    requires Inv(s) && At(s, JOIN_CONF) && s["announce"] == JStr("true") && "name_recording" in s
    requires s["record"] != JStr("true")
    ensures JoinStep(s, w, ev, env, cenv).resp
         == Document([Exec("set", AnnounceCommand(s["conf_uuid"].s, s["name_recording"].s)),
                      Conference(s["profile"].s, s["flags"].s, s["conf_uuid"].s)])
  {
    var p := ConfSessionFor(s, w.sessions, DEFAULT_PROFILE, None, cenv.newSessionId);
    AnnounceDocument(Partial(s, World(p.sessions, w.files), []));
  }

  /** A join into an announcing room, with a name clip, ends with the announcement and the conference. */
  lemma JoinAnnounces(s: HState, w: World, ev: Event, env: Env, cenv: ConfEnv)
    requires Inv(s) && At(s, JOIN_CONF) && s["announce"] == JStr("true") && "name_recording" in s
    ensures var r := JoinStep(s, w, ev, env, cenv);
      var conf := s["conf_uuid"].s;
      && r.resp.Document? && |r.resp.work| >= 2
      && r.resp.work[|r.resp.work| - 2] == Exec("set", AnnounceCommand(conf, s["name_recording"].s))
      && r.resp.work[|r.resp.work| - 1] == Conference(s["profile"].s, s["flags"].s, conf)
  {
    if s["record"] == JStr("true") {
      JoinAnnouncesRecorded(s, w, ev, env, cenv);
    } else {
      JoinAnnouncesUnrecorded(s, w, ev, env, cenv);
    }
  }

  /**
   * With announcing on and a name clip, the join ends by scheduling the
   * announcement and then joining the conference with the stored profile and
   * flags.
   */
  lemma JoinEndsInConference(s: HState, w: World, centres: map<string, Centre>, ev: Event, env: Env, cenv: ConfEnv)
    requires !ev.exiting && Inv(s) && At(s, JOIN_CONF) && s["announce"] == JStr("true")
    requires "name_recording" in s || ev.upload.Some?
    ensures var r := Step(s, w, centres, ev, env, cenv);
      var conf := s["conf_uuid"].s;
      var clip := if ev.upload.Some? then ClipPath(ev.upload.value.name) else s["name_recording"].s;
      && r.resp.Document? && |r.resp.work| >= 2
      && r.resp.work[|r.resp.work| - 2] == Exec("set", AnnounceCommand(conf, clip))
      && r.resp.work[|r.resp.work| - 1] == Conference(s["profile"].s, s["flags"].s, conf)
  {
    JoinBranch(s, w, centres, ev, env, cenv);
    var rec := Received(s, w, ev);
    if ev.upload.None? {
      assert rec == (s, w);
      JoinAnnounces(s, w, ev, env, cenv);
    } else {
      var clip := ClipPath(ev.upload.value.name);
      assert rec.0 == s["name_recording" := JStr(clip)];
      assert rec.0["announce"] == s["announce"] && rec.0["conf_uuid"] == s["conf_uuid"];
      assert rec.0["profile"] == s["profile"] && rec.0["flags"] == s["flags"];
      JoinAnnounces(rec.0, rec.1, ev, env, cenv);
    }
  }

  /**
   * The join-conf branch as written binds the announcement only when the
   * room announces; for every other room the join fails with an unbound
   * local and the caller never reaches the conference.
   */
  lemma AnnounceDefect(s: HState, w: World, centres: map<string, Centre>, ev: Event, env: Env, cenv: ConfEnv)
    requires !ev.exiting && Inv(s) && At(s, JOIN_CONF) && s["announce"] != JStr("true")
    ensures Step(s, w, centres, ev, env, cenv).resp == Fault(UnboundLocalError("announce_data"))
  {
  }

  /**
   * The join's ending as evidently intended: the announcement is scheduled
   * only for a room that announces, and every room then joins the conference.
   */
  function AnnouncePartIntended(part: Partial): ConfOutcome {
    var s := part.state;
    if "announce" !in s then ConfOutcome(s, part.world, Fault(KeyError("announce")))
    else if s["announce"] == JStr("true") then AnnouncePart(part)
    else if "profile" !in s then ConfOutcome(s, part.world, Fault(KeyError("profile")))
    else if "flags" !in s then ConfOutcome(s, part.world, Fault(KeyError("flags")))
    else if "conf_uuid" !in s then ConfOutcome(s, part.world, Fault(KeyError("conf_uuid")))
    else if !(s["profile"].JStr? && s["flags"].JStr? && s["conf_uuid"].JStr?) then
      ConfOutcome(s, part.world, Fault(TypeError("conference")))
    else ConfOutcome(s, part.world, Document(part.work + [Conference(s["profile"].s, s["flags"].s, s["conf_uuid"].s)]))
  }

  /** The join-conf branch with the intended ending. */
  function JoinStepIntended(s: HState, w: World, ev: Event, env: Env, cenv: ConfEnv): ConfOutcome {
    var p := ConfSessionFor(s, w.sessions, DEFAULT_PROFILE, None, cenv.newSessionId);
    if "record" !in s then ConfOutcome(s, World(p.sessions, w.files), Fault(KeyError("record")))
    else if s["record"] != JStr("true") then AnnouncePartIntended(Partial(s, World(p.sessions, w.files), []))
    else if "sess_uuid" !in s then ConfOutcome(s, World(p.sessions, w.files), Fault(KeyError("sess_uuid")))
    else if "conf_uuid" !in s then ConfOutcome(s, World(p.sessions, w.files), Fault(KeyError("conf_uuid")))
    else AnnouncePartIntended(RecordPart(s, p, w.files, ev, env, cenv))
  }

  /**
   * With the intended ending, a caller in a room that does not announce
   * joins the conference with the stored profile and flags, and no
   * announcement is scheduled.
   */
  lemma IntendedJoinWithoutAnnounce(s: HState, w: World, ev: Event, env: Env, cenv: ConfEnv)
    requires Inv(s) && At(s, JOIN_CONF) && s["announce"] != JStr("true")
    ensures var r := JoinStepIntended(s, w, ev, env, cenv);
      var conf := s["conf_uuid"].s;
      && r.resp.Document? && |r.resp.work| >= 1
      && r.resp.work[|r.resp.work| - 1] == Conference(s["profile"].s, s["flags"].s, conf)
      && forall i, clip :: 0 <= i < |r.resp.work| ==> r.resp.work[i] != Exec("set", AnnounceCommand(conf, clip))
  {
    var conf := s["conf_uuid"].s;
    var join := Conference(s["profile"].s, s["flags"].s, conf);
    var part, q := IntendedParts(s, w, ev, env, cenv);
    IntendedEnding(part, s["profile"].s, s["flags"].s, conf);
    var work := JoinStepIntended(s, w, ev, env, cenv).resp.work;
    assert work == part.work + [join];
    forall i, clip | 0 <= i < |work| ensures work[i] != Exec("set", AnnounceCommand(conf, clip)) {
      if i < |part.work| {
        CommandsDiffer(conf, clip, conf, q);
      }
    }
  }

  /** A join of a well-formed dictionary, cut where the announcement begins. */
  lemma IntendedParts(s: HState, w: World, ev: Event, env: Env, cenv: ConfEnv) returns (part: Partial, q: string)
    requires Inv(s) && At(s, JOIN_CONF)
    ensures JoinStepIntended(s, w, ev, env, cenv) == AnnouncePartIntended(part)
    ensures forall k :: k in ["announce", "profile", "flags", "conf_uuid"] ==> k in part.state && part.state[k] == s[k]
    ensures part.work == [] || part.work == [Exec("set", RecordCommand(s["conf_uuid"].s, q))]
  {
    var p := ConfSessionFor(s, w.sessions, DEFAULT_PROFILE, None, cenv.newSessionId);
    q := ArchivePath(env, cenv, s["sess_uuid"].s);
    if s["record"] == JStr("true") {
      part := RecordPart(s, p, w.files, ev, env, cenv);
      assert part.state == s["rec_tmp_flag_file" := JStr(MarkerPath(s["conf_uuid"].s))];
    } else {
      part := Partial(s, World(p.sessions, w.files), []);
    }
  }

  lemma IntendedEnding(part: Partial, profile: string, flags: string, conf: string)
    requires "announce" in part.state && part.state["announce"] != JStr("true")
    requires GetStr(part.state, "profile") == Some(profile) && GetStr(part.state, "flags") == Some(flags)
    requires GetStr(part.state, "conf_uuid") == Some(conf)
    ensures AnnouncePartIntended(part).resp == Document(part.work + [Conference(profile, flags, conf)])
  {
  }

  /**
   * The intended ending changes only the rooms that do not announce: the
   * dictionary and the shared state are those of the join as written, and
   * where the room announces (or the key is missing) so is the answer.
   */
  lemma IntendedAgrees(s: HState, w: World, ev: Event, env: Env, cenv: ConfEnv)
    ensures var r := JoinStepIntended(s, w, ev, env, cenv);
      r.state == JoinStep(s, w, ev, env, cenv).state && r.world == JoinStep(s, w, ev, env, cenv).world
    ensures "announce" !in s || s["announce"] == JStr("true") ==>
      JoinStepIntended(s, w, ev, env, cenv) == JoinStep(s, w, ev, env, cenv)
  {
    var p := ConfSessionFor(s, w.sessions, DEFAULT_PROFILE, None, cenv.newSessionId);
    if "record" in s && s["record"] != JStr("true") {
      EndingsAgree(Partial(s, World(p.sessions, w.files), []));
    } else if "record" in s && "sess_uuid" in s && "conf_uuid" in s {
      var part := RecordPart(s, p, w.files, ev, env, cenv);
      assert part.state == s["rec_tmp_flag_file" := JStr(MarkerPath(Show(s["conf_uuid"])))];
      EndingsAgree(part);
    }
  }

  lemma EndingsAgree(part: Partial)
    ensures AnnouncePartIntended(part).state == AnnouncePart(part).state
    ensures AnnouncePartIntended(part).world == AnnouncePart(part).world
    ensures "announce" !in part.state || part.state["announce"] == JStr("true") ==>
      AnnouncePartIntended(part) == AnnouncePart(part)
  {
  }

  /**
   * Exit: the answer is "Ok", the dictionary is kept, the caller's session
   * row (a new one when none is remembered) is marked not live and no other
   * row changes; a file is removed exactly when it is the name clip, or the
   * marker once no session of the room is live.
   */
  lemma ExitCleanup(s: HState, w: World, centres: map<string, Centre>, ev: Event, env: Env, cenv: ConfEnv)
    requires ev.exiting && ev.upload.None? && Inv(s)
    ensures var r := Step(s, w, centres, ev, env, cenv);
      var p := ConfSessionFor(s, w.sessions, DEFAULT_PROFILE, None, cenv.newSessionId);
      var room := p.sessions[p.id].room;
      && r.resp == Text(OK_TEXT) && r.state == s
      && r.world.sessions.Keys == p.sessions.Keys
      && r.world.sessions[p.id] == p.sessions[p.id].(live := "false")
      && (forall k :: k in p.sessions && k != p.id ==> r.world.sessions[k] == p.sessions[k])
      && (forall f :: f in r.world.files <==>
            && f in w.files && GetStr(s, "name_recording") != Some(f)
            && !(GetStr(s, "rec_tmp_flag_file") == Some(f) && LiveCount(r.world.sessions, room) < 1))
  {
  }

  /** The last caller of a room to leave removes the conference's marker. */
  lemma LastToLeaveRemovesMarker(s: HState, w: World, centres: map<string, Centre>, ev: Event, env: Env, cenv: ConfEnv)
    requires ev.exiting && ev.upload.None? && Inv(s) && "rec_tmp_flag_file" in s
    requires var p := ConfSessionFor(s, w.sessions, DEFAULT_PROFILE, None, cenv.newSessionId);
      forall k :: k in p.sessions && k != p.id && p.sessions[k].room == p.sessions[p.id].room ==> p.sessions[k].live != "true"
    ensures s["rec_tmp_flag_file"].s !in Step(s, w, centres, ev, env, cenv).world.files
  {
    var r := Step(s, w, centres, ev, env, cenv);
    var p := ConfSessionFor(s, w.sessions, DEFAULT_PROFILE, None, cenv.newSessionId);
    ExitCleanup(s, w, centres, ev, env, cenv);
    assert LiveSessions(r.world.sessions, p.sessions[p.id].room) == {};
  }

  /** While another session of the room is live, a leaving caller keeps the marker. */
  lemma LiveMemberKeepsMarker(
    s: HState, w: World, centres: map<string, Centre>, ev: Event, env: Env, cenv: ConfEnv, other: string)
    requires ev.exiting && ev.upload.None? && Inv(s) && Resumes(s, w.sessions)
    requires "rec_tmp_flag_file" in s && s["rec_tmp_flag_file"].s in w.files
    requires GetStr(s, "name_recording") != Some(s["rec_tmp_flag_file"].s)
    requires other in w.sessions && other != Show(s["sess_uuid"]) && w.sessions[other].live == "true"
    requires w.sessions[other].room == w.sessions[Show(s["sess_uuid"])].room
    ensures s["rec_tmp_flag_file"].s in Step(s, w, centres, ev, env, cenv).world.files
  {
    var r := Step(s, w, centres, ev, env, cenv);
    ExitCleanup(s, w, centres, ev, env, cenv);
    assert other in LiveSessions(r.world.sessions, w.sessions[Show(s["sess_uuid"])].room);
  }

  /** `ConferenceHandler`: the session dictionary, over the shared store. */
  class ConferenceHandler {
    var state: HState
    const store: Store

    constructor (store: Store)
      ensures this.store == store && state == map[]
    {
      this.store := store;
      state := map[];
    }

    /** `get_conf_session`: the caller's session row, created when none is remembered. */
    method GetConfSession(profile: string, room: Option<string>, newId: string) returns (id: string)
      modifies store`confSessions
      ensures var p := ConfSessionFor(state, old(store.confSessions), profile, room, newId);
        id == p.id && store.confSessions == p.sessions
    {
      if "sess_uuid" in state {
        var key := Show(state["sess_uuid"]);
        if key in store.confSessions {
          return key;
        }
      }
      store.confSessions := store.confSessions[newId := NewSession(profile, room)];
      id := newId;
    }

    /** The exiting branch of `get_data`. */
    method Exit(cenv: ConfEnv) returns (resp: Response)
      modifies store`confSessions, store`files
      ensures var r := ExitStep(state, World(old(store.confSessions), old(store.files)), cenv);
        store.confSessions == r.world.sessions && store.files == r.world.files && resp == r.resp
    {
      var id := GetConfSession(DEFAULT_PROFILE, None, cenv.newSessionId);
      var row := store.confSessions[id].(live := "false");
      store.confSessions := store.confSessions[id := row];
      if "rec_tmp_flag_file" in state {
        if LiveCount(store.confSessions, row.room) < 1 {
          var marker := state["rec_tmp_flag_file"];
          if !marker.JStr? {
            return Fault(TypeError("rec_tmp_flag_file"));
          }
          store.files := store.files - {marker.s};
        }
      }
      if "name_recording" in state {
        var clip := state["name_recording"];
        if !clip.JStr? {
          return Fault(TypeError("name_recording"));
        }
        store.files := store.files - {clip.s};
      }
      resp := Text(OK_TEXT);
    }

    /** The member flags of `room`, built as the handler builds `flag_list`. */
    method FlagsFor(room: Room, memberType: nat) returns (flagList: seq<string>)
      ensures flagList == FlagList(room, memberType)
    {
      flagList := [];
      if room.waitMod == "true" && memberType == 0 {
        flagList := flagList + ["wait-mod"];
      }
      if room.mute == "true" && memberType == 0 {
        flagList := flagList + ["mute"];
      }
      if memberType == 1 {
        flagList := flagList + ["moderator"];
      }
    }

    /**
     * Admit the caller to `room`: find or create the session row, store the
     * room's settings in the dictionary, and ask for the name clip and
     * announce the recording as the room says.
     */
    method Admit(room: Room, pin: string, env: Env, cenv: ConfEnv) returns (resp: Response)
      modifies this, store`confSessions
      ensures var p := ConfSessionFor(old(state), old(store.confSessions), room.profile, Some(room.id), cenv.newSessionId);
        && state == Admitted(old(state), room, p.id, IntToDecimal(room.maxMembers),
                             Flags(room, MemberType(room, pin)), MemberType(room, pin))
        && store.confSessions == p.sessions && resp == Document(AdmitWork(room, env))
    {
      var sessId := GetConfSession(room.profile, Some(room.id), cenv.newSessionId);
      var memberType: nat := 1;
      if pin == room.participantPin {
        memberType := 0;
      }
      var flagList := FlagsFor(room, memberType);
      var dict := state;
      dict := dict["conf_uuid" := JStr(room.id)];
      dict := dict["sess_uuid" := JStr(sessId)];
      dict := dict["name" := JStr(room.name)];
      dict := dict["profile" := JStr(room.profile)];
      dict := dict["max_members" := JStr(IntToDecimal(room.maxMembers))];
      dict := dict["record" := JStr(room.record)];
      dict := dict["wait_mod" := JStr(room.waitMod)];
      dict := dict["announce" := JStr(room.announce)];
      dict := dict["sounds" := JStr(room.sounds)];
      dict := dict["mute" := JStr(room.mute)];
      dict := dict["flags" := JStr(Join(flagList, "|"))];
      dict := dict["member_type" := JInt(memberType)];
      var work: seq<Instr> := [];
      if room.announce == "true" {
        work := work + [Playback(SAY_NAME_PROMPT)];
        work := work + [RecordAndGetDigits(env.sessionId + ".wav")];
      }
      if room.record == "true" {
        work := work + [Pause(500)];
        work := work + [Playback(RECORDING_STARTED_PROMPT)];
      }
      dict := dict[NEXT_ACTION := JStr(JOIN_CONF)];
      state := dict;
      resp := Document(work);
    }

    /** No enabled room has the PIN: forget `next_action`, count the attempt, and give up at the fourth. */
    method CountBadPin(w: World) returns (resp: Response)
      modifies this
      ensures var r := BadPin(old(state), w);
        state == r.state && resp == r.resp
    {
      var dict := state - {NEXT_ACTION};
      if "pin_retries" in dict {
        var retries := dict["pin_retries"];
        if retries.JStr? {
          return Fault(TypeError("pin_retries"));
        }
        dict := dict["pin_retries" := JInt(RetryValue(retries) + 1)];
      } else {
        dict := dict["pin_retries" := JInt(1)];
      }
      var work: seq<Instr> := [];
      if dict["pin_retries"].i < MAX_PIN_RETRIES {
        work := work + [Playback(BAD_PIN_PROMPT)];
      } else {
        work := work + [Playback(FAIL_AUTH_PROMPT)];
        work := work + [Hangup(None)];
      }
      state := dict;
      resp := Document(work);
    }

    /** The chk-pin branch: the first enabled room with the entered PIN, in queryset order. */
    method CheckPin(rooms: seq<Room>, ev: Event, env: Env, cenv: ConfEnv) returns (resp: Response)
      modifies this, store`confSessions
      ensures var r := CheckPinStep(old(state), World(old(store.confSessions), store.files), rooms, ev, env, cenv);
        state == r.state && store.confSessions == r.world.sessions && resp == r.resp
    {
      var pinNumber := Var(ev, "pb_input");
      var found := FindFirst(rooms, (r: Room) => Matches(r, pinNumber));
      if found.Some? {
        resp := Admit(rooms[found.value], pinNumber.value, env, cenv);
      } else {
        resp := CountBadPin(World(store.confSessions, store.files));
      }
    }

    /**
     * Recording on join: reuse the path the conference's marker holds, or
     * write the marker and schedule the recording; then remember the marker
     * and store the path and the caller's identity on session row `id`.
     */
    method RecordOnJoin(id: string, ev: Event, env: Env, cenv: ConfEnv) returns (work: seq<Instr>)
      requires "conf_uuid" in state && "sess_uuid" in state && id in store.confSessions
      modifies this, store`confSessions, store`files
      ensures var part := RecordPart(old(state), SessionPick(id, old(store.confSessions)), old(store.files), ev, env, cenv);
        && state == part.state && store.confSessions == part.world.sessions && store.files == part.world.files
        && work == part.work
    {
      var callerIdName := VarOr(ev, "Caller-Orig-Caller-ID-Name", "None");
      var callerIdNumber := VarOr(ev, "Caller-Orig-Caller-ID-Number", "None");
      work := [];
      var confId := Show(state["conf_uuid"]);
      var recFullPath := ArchivePath(env, cenv, Show(state["sess_uuid"]));
      var recTmpFlagFile := MarkerPath(confId);
      if recTmpFlagFile in store.files {
        recFullPath := store.files[recTmpFlagFile];
      } else {
        store.files := store.files[recTmpFlagFile := recFullPath];
        work := work + [Exec("set", RecordCommand(confId, recFullPath))];
      }
      state := state["rec_tmp_flag_file" := JStr(recTmpFlagFile)];
      var row := store.confSessions[id];
      row := row.(recording := recFullPath, callerIdName := callerIdName, callerIdNumber := callerIdNumber);
      store.confSessions := store.confSessions[id := row];
    }

    /** The end of a join: schedule the announcement and join the conference. */
    method Announce(work: seq<Instr>) returns (resp: Response)
      ensures resp == AnnouncePart(Partial(state, World(store.confSessions, store.files), work)).resp
    {
      if "announce" !in state {
        return Fault(KeyError("announce"));
      }
      if state["announce"] != JStr("true") {
        return Fault(UnboundLocalError("announce_data"));
      }
      if "conf_uuid" !in state {
        return Fault(KeyError("conf_uuid"));
      }
      if "name_recording" !in state {
        return Fault(KeyError("name_recording"));
      }
      var announceData := AnnounceCommand(Show(state["conf_uuid"]), Show(state["name_recording"]));
      var work' := work + [Exec("set", announceData)];
      if "profile" !in state {
        return Fault(KeyError("profile"));
      }
      if "flags" !in state {
        return Fault(KeyError("flags"));
      }
      var profile := state["profile"];
      var flags := state["flags"];
      var confUuid := state["conf_uuid"];
      if !(profile.JStr? && flags.JStr? && confUuid.JStr?) {
        return Fault(TypeError("conference"));
      }
      work' := work' + [Conference(profile.s, flags.s, confUuid.s)];
      resp := Document(work');
    }

    /** The join-conf branch. */
    method JoinConf(ev: Event, env: Env, cenv: ConfEnv) returns (resp: Response)
      modifies this, store`confSessions, store`files
      ensures var r := JoinStep(old(state), World(old(store.confSessions), old(store.files)), ev, env, cenv);
        state == r.state && store.confSessions == r.world.sessions && store.files == r.world.files && resp == r.resp
    {
      ghost var w := World(store.confSessions, store.files);
      var id := GetConfSession(DEFAULT_PROFILE, None, cenv.newSessionId);
      ghost var p := SessionPick(id, store.confSessions);
      if "record" !in state {
        return Fault(KeyError("record"));
      }
      var work: seq<Instr> := [];
      if state["record"] == JStr("true") {
        if "sess_uuid" !in state {
          return Fault(KeyError("sess_uuid"));
        }
        if "conf_uuid" !in state {
          return Fault(KeyError("conf_uuid"));
        }
        ghost var s := state;
        work := RecordOnJoin(id, ev, env, cenv);
        JoinRecordedBranch(s, w, ev, env, cenv);
      } else {
        JoinUnrecordedBranch(state, w, ev, env, cenv);
      }
      resp := Announce(work);
      AnnouncePartKeeps(Partial(state, World(store.confSessions, store.files), work));
    }

    /** `get_data` after any upload has been stored. */
    method Dispatch(ev: Event, env: Env, cenv: ConfEnv) returns (resp: Response)
      modifies this, store`confSessions, store`files
      ensures var r := Body(old(state), World(old(store.confSessions), old(store.files)), store.centres, ev, env, cenv);
        && state == r.state && store.confSessions == r.world.sessions && store.files == r.world.files
        && resp == r.resp
    {
      if ev.exiting {
        resp := Exit(cenv);
        return;
      }
      var rooms: seq<Room> := [];
      var cnfBound := false;
      if "conf_uuid" !in state {
        var confUuid := Var(ev, "conference_uuid");
        if confUuid.None? || confUuid.value !in store.centres {
          return ErrorHangup("C0001");
        }
        rooms := store.centres[confUuid.value].rooms;
        cnfBound := true;
      }
      var work: seq<Instr> := [];
      if NEXT_ACTION in state {
        var nextAction := state[NEXT_ACTION];
        if nextAction == JStr(CHK_PIN) {
          if !cnfBound {
            return Fault(UnboundLocalError("cnf"));
          }
          resp := CheckPin(rooms, ev, env, cenv);
          return;
        } else if nextAction == JStr(JOIN_CONF) {
          resp := JoinConf(ev, env, cenv);
          return;
        }
      } else {
        state := state[NEXT_ACTION := JStr(CHK_PIN)];
        work := work + [PlayAndGetDigits(ENTER_CONF_PIN_PROMPT, None, None)];
      }
      resp := Document(work);
    }

    /** `get_data` for one event: store a posted name clip, then run the workflow. */
    method GetData(ev: Event, env: Env, cenv: ConfEnv) returns (resp: Response)
      modifies this, store`confSessions, store`files
      ensures var r := Step(old(state), World(old(store.confSessions), old(store.files)), store.centres, ev, env, cenv);
        && state == r.state && store.confSessions == r.world.sessions && store.files == r.world.files
        && resp == r.resp
      ensures Inv(old(state)) ==> Inv(state)
    {
      if Inv(state) {
        StepKeepsInv(state, World(store.confSessions, store.files), store.centres, ev, env, cenv);
      }
      ghost var received := Received(state, World(store.confSessions, store.files), ev);
      if ev.upload.Some? {
        var receivedFileName := ClipPath(ev.upload.value.name);
        store.files := store.files[receivedFileName := ev.upload.value.content];
        state := state["name_recording" := JStr(receivedFileName)];
      }
      assert state == received.0 && World(store.confSessions, store.files) == received.1;
      resp := Dispatch(ev, env, cenv);
    }
  }
}
