# HttAPI call handlers, modelled in Dafny

The switch (FreeSWITCH, through its HttAPI module) posts one HTTP event for
each step of a call. It gets back either a plain-text acknowledgement or a
`work` block of call-control instructions. Each handler keeps a dictionary
between events, stored in the call's session under the handler's name. It
branches on that dictionary's `next_action` key, updates it, and appends
instructions to the work block one at a time. The handlers also read and
update database rows (extensions, call flows, call-block rules, conference
centres and sessions) and files under `/tmp`, and they delete cache entries.

This project models these handlers of `httapihandler/httapihandlerclasses.py`:

- **RecordingsHandler**: stores each uploaded recording, then runs a PIN-gated record / review / re-record loop.
- **CallFlowToggleHandler**: a PIN-gated day/night switch of a call flow.
- **ConferenceHandler**: room PIN lookup with a retry counter, member flags,
  recording the conference once through a marker file, and clean-up on exit.
- **FailureHandler**: forwarding or hanging up after a failed bridge.
- **FollowMeToggleHandler**: flips an extension's follow-me flag.
- **CallBlockHandler**: applies the first applicable call-block rule, once per call.
- The exiting early returns of **TestHandler**, **FollowMeHandler** and
  **RingGroupHandler**, together with the rest of their single-shot behaviour.

Layout:

- `httapi.dfy`: the shared vocabulary.
  - The event: exiting flag, posted fields, uploaded file.
  - The dictionary: `map<string, JVal>`, where `JVal` is a JSON scalar.
  - The instructions (`Instr`) and the response (`Response`).
  - A `Response` is text, a work block, the base class's `error_hangup`, or
    `Fault`: an exception the handler does not catch.
  - Python-like helpers on these.
- `config.dfy`: the database rows, plus a `Store` class.
  - `Store` holds the tables, the uploaded recordings, the `/tmp` file system (path to contents) and a
    ghost log of external calls: cache deletes, dialplan regeneration, presence.
- One file per handler, except `simplehandlers.dfy`, which holds TestHandler,
  FollowMeHandler and RingGroupHandler. Most handlers have:
  - a pure `Step` function that specifies one event;
  - a class (or, for stateless handlers, a method) whose `GetData` updates the
    state in place and builds the work block by appending, and is proved equal to `Step`;
  - lemmas for the properties the handler promises.
- The exceptions:
  - FailureHandler has no `Step`; its `GetData` is proved equal to `FailureWork`.
  - The three handlers of `simplehandlers.dfy` have no `Step`; each `GetData`
    method states its answer directly in its contract.

## Model

| member | source | states |
|---|---|---|
| HttApi.FindFirst | httapihandler/httapihandlerclasses.py:664-667 | The queryset's `.first()` over rows listed in the order the queryset returns them: the index returned satisfies the filter and every earlier row fails it; None means no row satisfies it |
| HttApi.Toggled | httapihandler/httapihandlerclasses.py:104-115 | A toggled flag is 'true' or 'false', and it is 'false' exactly when the old one was 'true'; the call-flow toggle (512-523) flips its status the same way |
| HttApi.NatToDecimalValue | httapihandler/httapihandlerclasses.py:684 | `str(n)` of a count is a non-empty string of decimal digits that denotes n, without a leading zero |
| HttApi.IntToDecimalValue | httapihandler/httapihandlerclasses.py:684 | `str(i)` of any integer: the digits of i when i >= 0, a minus sign then the digits of -i when i < 0 |
| Recordings.RecordingsHandler.GetData | httapihandler/httapihandlerclasses.py:394-477 | One event first stores any uploaded file in the recordings table, then answers; the dictionary, the table and the answer are exactly those `Recordings.Handle` gives |
| Recordings.RecordingsHandler.Respond | httapihandler/httapihandlerclasses.py:412-477 | After the upload, one event updates the dictionary in place and answers exactly as `Recordings.Step` says; on a dictionary the handler produced, the invariant is kept and no exception is raised |
| Recordings.Step | httapihandler/httapihandlerclasses.py:412-477 | Specification of one event after the upload, with no contract of its own: "Ok" when exiting, otherwise the branch `next_action` names; its properties are the Recordings lemmas below |
| Recordings.Handle | httapihandler/httapihandlerclasses.py:394-477 | Specification of the whole `get_data`, with no contract of its own: any upload is stored first, even on an exiting channel, and an exception there ends the event; otherwise `Step` |
| Recordings.SaveUpload | httapihandler/httapihandlerclasses.py:395-410 | Specification of storing an upload, with no contract of its own: IndexError without the marker, DoesNotExist for a new recording whose domain row is missing, otherwise the file under the received name |
| Recordings.ReceivedName | httapihandler/httapihandlerclasses.py:397-399 | Specification of `rsplit` at the last "recording", with no contract of its own; see ReceivedNameRecovers and UploadComesFirst |
| Recordings.LastBelow | httapihandler/httapihandlerclasses.py:399 | The last position below i where the marker occurs: it is an occurrence and no later position below i is one; None means the marker occurs nowhere below i |
| Recordings.RecFileName | httapihandler/httapihandlerclasses.py:433-436 | Specification of the recorder's file name, prefix (default 'recording') + number + ".wav", with no contract of its own; see RecordStoresPath |
| Recordings.RecFilePath | httapihandler/httapihandlerclasses.py:437-438 | Specification of the stored `rec_file`, recordings dir/domain/file name, with no contract of its own; see RecordStoresPath |
| Recordings.ReviewWork | httapihandler/httapihandlerclasses.py:448-453 | Specification of the review work block, with no contract of its own; see HappyRun and RerecordLoops |
| Recordings.UploadComesFirst | httapihandler/httapihandlerclasses.py:394-413 | An upload whose name holds "recording" is stored under "recording" plus what follows its last occurrence, replacing that entry only, and then the event runs as `Step`; a name without it raises IndexError and a new recording without its domain row DoesNotExist, changing nothing, also on an exiting channel |
| Recordings.NoUploadIsStep | httapihandler/httapihandlerclasses.py:395-413 | Without an upload the recordings table is unchanged and the event is exactly `Step` |
| Recordings.ReceivedNameRecovers | httapihandler/httapihandlerclasses.py:397-399 | Whatever the UUID the switch puts in front, the uploaded `<uuid>recording<number>.wav` is cut back to `recording<number>.wav`, the name the record step asked for (436-438) |
| Recordings.StepKeepsInv | httapihandler/httapihandlerclasses.py:419-473 | Every dictionary the handler produces keeps the PIN at chk-pin and a string `rec_file` at review and rerecord, so no KeyError or TypeError can occur |
| Recordings.StepRefinesPhases | httapihandler/httapihandlerclasses.py:419-473 | One event moves the workflow as the typed machine start → chk-pin → record → review → rerecord does; the call hangs up (or errors with R2001) exactly on a missing PIN, a wrong PIN, or a re-record answer other than 1 |
| Recordings.ExitingIsOk | httapihandler/httapihandlerclasses.py:412-413 | An exiting channel gets "Ok" and the dictionary is unchanged |
| Recordings.StartStoresPin | httapihandler/httapihandlerclasses.py:465-473 | With no `next_action`, a missing or empty `pin_number` gives R2001 and changes nothing; otherwise the PIN is stored, `next_action` becomes chk-pin and the caller is asked for it |
| Recordings.PinGate | httapihandler/httapihandlerclasses.py:421-430 | At chk-pin the workflow reaches record if and only if `pb_input` equals the stored PIN; then only `next_action` changes and the caller is asked for the number; otherwise fail-auth then hangup, state unchanged |
| Recordings.RecordStoresPath | httapihandler/httapihandlerclasses.py:432-442 | record stores `rec_file` = recordings dir/domain/prefix + number + ".wav" (prefix defaults to "recording"), moves to review, ends with the record element, and does not hang up |
| Recordings.RerecordChoice | httapihandler/httapihandlerclasses.py:455-464 | At rerecord, digit 1 moves back to record and the answer is exactly one `continue`; any other input says "saved" then hangs up, state unchanged |
| Recordings.RerecordLoops | httapihandler/httapihandlerclasses.py:432-464 | Any number of record/review/rerecord rounds that answer 1 return to record, and no response of those rounds hangs up or faults |
| Recordings.HappyRun | httapihandler/httapihandlerclasses.py:419-473 | The five events of a session, PIN, right PIN, number, review and keep, give the ask-PIN, ask-number, record, review and saved answers, and leave the dictionary at rerecord holding the PIN and the path |
| Recordings.HappyPath | httapihandler/httapihandlerclasses.py:419-473 | A whole session (PIN, right PIN, number, review, keep) stores the expected path; only the last response hangs up |
| CallFlowToggle.CallFlowToggleHandler.GetData | httapihandler/httapihandlerclasses.py:491-550 | One event updates the dictionary, the call-flow row and the external-call log exactly as `CallFlowToggle.Step` says; on a dictionary the handler produced, the invariant is kept and no exception is raised |
| CallFlowToggle.ExitingIsOk | httapihandler/httapihandlerclasses.py:492-493 | An exiting channel gets "Ok"; nothing is read or changed |
| CallFlowToggle.Step | httapihandler/httapihandlerclasses.py:491-550 | Specification of one event, with no contract of its own: exiting, unknown call flow, chk-pin and start branches; its properties are the CallFlowToggle lemmas |
| CallFlowToggle.ToggleWork | httapihandler/httapihandlerclasses.py:511-529 | Specification of the answer to a correct PIN, with no contract of its own; see MatchingPinToggles |
| CallFlowToggle.StepKeepsInv | httapihandler/httapihandlerclasses.py:506-536 | Every dictionary the handler produces keeps a string PIN at chk-pin, so no event raises an exception |
| CallFlowToggle.UnknownCallFlow | httapihandler/httapihandlerclasses.py:496-501 | An unknown call flow gives error D1001 with nothing changed |
| CallFlowToggle.StartStoresPin | httapihandler/httapihandlerclasses.py:538-546 | With no `next_action` on a known call flow, a missing or empty `callflow_pin` gives R2001 and changes nothing; otherwise the PIN is stored, `next_action` becomes chk-pin, no row or effect changes, and the caller is asked for the PIN |
| CallFlowToggle.MatchingPinToggles | httapihandler/httapihandlerclasses.py:508-533 | With the stored PIN: only that call flow's status flips; the external calls are exactly: regenerate its dialplan, delete `dialplan:<domain>`, send presence with the new status and its feature code; night mode is played iff the status was 'true' (day mode otherwise); the work ends in hangup; the state stays at chk-pin |
| CallFlowToggle.WrongPinChangesNothing | httapihandler/httapihandlerclasses.py:534-536 | A wrong PIN gives fail-auth then hangup, with no row, effect or state change |
| CallFlowToggle.SecondPinTogglesBack | httapihandler/httapihandlerclasses.py:506-536 | Since the state stays at chk-pin, a second correct PIN restores a 'true'/'false' status |
| CallFlowToggle.DayToNight | httapihandler/httapihandlerclasses.py:506-546 | From a fresh session, PIN then correct PIN switches a day-mode flow to night mode, deletes the dialplan cache entry and hangs up |
| Failure.TransferContext | httapihandler/httapihandlerclasses.py:184-186 | Transfers go to `Caller-Context`, or to the domain name when that is missing or empty |
| Failure.ForwardBlock | httapihandler/httapihandlerclasses.py:202-219 | An enabled forwarding block clears `no_work`; it transfers after the prefix and a log line when there is a destination, and otherwise logs and hangs up with the cause |
| Failure.BusyBranch | httapihandler/httapihandlerclasses.py:192-221 | The USER_BUSY branch with its loop guard, including the `no_work` hangups |
| Failure.EnabledBranch | httapihandler/httapihandlerclasses.py:223-262 | The NO_ANSWER and USER_NOT_REGISTERED branches: they forward only when the enabled flag is 'true' |
| Failure.GetData | httapihandler/httapihandlerclasses.py:176-282 | "Ok" for an exiting channel, otherwise exactly the work block `FailureWork` gives for the disposition |
| Failure.BusyTransfersOnlyWhenConfigured | httapihandler/httapihandlerclasses.py:192-221 | USER_BUSY transfers iff the extension is set, the last busy extension is non-empty and differs, `forward_busy_enabled` is 'true' and a destination exists; the work is then set, log, transfer "<dest> XML <context>" |
| Failure.BusyLoopGuard | httapihandler/httapihandlerclasses.py:198-199 | When the dialed extension equals the last busy one, the work is hangup(USER_BUSY) then a bare hangup, whatever the forwarding settings |
| Failure.ForwardingWithoutDestination | httapihandler/httapihandlerclasses.py:223-262 | Enabled with an empty destination: a log line and one hangup(cause). Not enabled: hangup(cause) then a bare hangup |
| Failure.TransferTarget | httapihandler/httapihandlerclasses.py:212-256 | Every transfer goes to a non-empty destination + " XML " + the context |
| Failure.AlwaysEnds | httapihandler/httapihandlerclasses.py:192-278 | Every work block is non-empty and ends in a hangup or a transfer |
| Failure.SubscriberAbsent | httapihandler/httapihandlerclasses.py:265-269 | SUBSCRIBER_ABSENT gives a log line then hangup(UNALLOCATED_NUMBER) |
| Failure.UnknownDisposition | httapihandler/httapihandlerclasses.py:277-278 | A missing or unknown disposition gives a single bare hangup |
| Failure.BusyWithoutDestination | httapihandler/httapihandlerclasses.py:192-221 | USER_BUSY when the forward is attempted (extension set and different from the last busy one, forwarding 'true') without a destination: a notice then one hangup(USER_BUSY); when the forward is not attempted: hangup(USER_BUSY) then a bare hangup |
| Failure.FailureWork | httapihandler/httapihandlerclasses.py:182-278 | Specification of the work block for every disposition, with no contract of its own; its properties are the Failure lemmas |
| Failure.ForwardWork | httapihandler/httapihandlerclasses.py:202-219 | Specification of one forwarding block, with no contract of its own; see ForwardBlock |
| Failure.BusyForwardAttempted | httapihandler/httapihandlerclasses.py:198-202 | Specification of the guard of the busy forward, with no contract of its own; see BusyTransfersOnlyWhenConfigured |
| Conference.ConfSessionFor | httapihandler/httapihandlerclasses.py:602-610 | `get_conf_session` returns the row `sess_uuid` names when it exists (no change), otherwise a new row for the room and profile under the fresh key; no other row changes |
| Conference.ConferenceHandler.GetConfSession | httapihandler/httapihandlerclasses.py:602-610 | The in-place version of `ConfSessionFor` |
| Conference.ConferenceHandler.Exit | httapihandler/httapihandlerclasses.py:625-641 | The exiting branch updates the session rows and /tmp exactly as `ExitStep` says |
| Conference.ConferenceHandler.CheckPin | httapihandler/httapihandlerclasses.py:662-716 | The chk-pin branch updates the dictionary and the session rows exactly as `CheckPinStep` says |
| Conference.ConferenceHandler.JoinConf | httapihandler/httapihandlerclasses.py:717-747 | The join-conf branch updates the dictionary, the session rows and /tmp exactly as `JoinStep` says |
| Conference.ConferenceHandler.Dispatch | httapihandler/httapihandlerclasses.py:625-757 | Everything after the upload is exactly `Body` |
| Conference.ConferenceHandler.GetData | httapihandler/httapihandlerclasses.py:615-757 | A posted name clip is written to /tmp and remembered, then the event runs; the result is exactly `Step`, and the invariant is kept |
| Conference.StepKeepsInv | httapihandler/httapihandlerclasses.py:615-757 | Handler-produced dictionaries keep their shape (integer retry count; conf_uuid only at join-conf, with its string keys). On them, only a join-conf event can raise |
| Conference.StartPrompts | httapihandler/httapihandlerclasses.py:748-752 | A fresh dictionary with a known centre moves to chk-pin and asks for the conference PIN |
| Conference.UnknownCentreHangsUp | httapihandler/httapihandlerclasses.py:646-653 | Before a room is chosen, an unknown `conference_uuid` gives C0001 and changes nothing |
| Conference.BadPinCounts | httapihandler/httapihandlerclasses.py:704-716 | No enabled room has the PIN: `next_action` is removed and `pin_retries` becomes old + 1 (1 at first). Below 4 the answer is only the bad-pin prompt; from 4 on it is fail-auth then hangup |
| Conference.RetryCeiling | httapihandler/httapihandlerclasses.py:704-752 | Over any non-empty sequence of rounds, each a prompt event then an event answering with a PIN no room of the centre has, the count grows by exactly the number of rounds and nothing shared changes; the last answer hangs up iff the count reached 4 |
| Conference.Attempts | httapihandler/httapihandlerclasses.py:704-752 | Specification of rounds of prompt then answer, with no contract of its own; see RetryCeiling |
| Conference.FlagsExact | httapihandler/httapihandlerclasses.py:669-678 | A moderator's flags are "moderator". A participant's are wait-mod then mute, joined with a vertical bar, each present iff the room sets it |
| Conference.PinAdmits | httapihandler/httapihandlerclasses.py:662-702 | The first enabled matching room admits the caller: join-conf, the room's id, profile, record and announce, and the session row exists. `member_type` is 0 iff the PIN is the participant PIN (so a participant wins when both PINs are equal), and the answer is the announce/record prompts |
| Conference.FirstJoinerSchedules | httapihandler/httapihandlerclasses.py:719-740 | With no marker, the joiner writes the marker with their archive path, stores it and their caller id on their row, and the recording command comes first |
| Conference.LaterJoinerReuses | httapihandler/httapihandlerclasses.py:726-740 | With a marker, /tmp is unchanged, the row gets the marker's path, and the answer is only the announcement and the conference |
| Conference.RecordScheduledOnce | httapihandler/httapihandlerclasses.py:719-740 | Of two callers joining the same recorded conference, only the first schedules the recording: the second's answer, when it is a work block, has exactly two instructions and neither is a record command; the second's row records the first one's path |
| Conference.LaterJoinerDoesNotRecord | httapihandler/httapihandlerclasses.py:726-740 | A joiner who finds the marker gets, when the answer is a work block, exactly two instructions, none of them a record command |
| Conference.JoinEndsInConference | httapihandler/httapihandlerclasses.py:743-747 | With announce on and a name clip, the work ends with the announcement and then `conference` with the stored profile, flags and conf_uuid |
| Conference.AnnounceDefect | httapihandler/httapihandlerclasses.py:743-745 | As written, a join in a room that does not announce fails with an unbound `announce_data` |
| Conference.AnnouncePartIntended | httapihandler/httapihandlerclasses.py:743-747 | Specification of the join as evidently intended, with no contract of its own: the announcement only where the room announces, then `conference` for every room |
| Conference.JoinStepIntended | httapihandler/httapihandlerclasses.py:717-747 | Specification of the join-conf branch with that ending, with no contract of its own |
| Conference.IntendedJoinWithoutAnnounce | httapihandler/httapihandlerclasses.py:743-747 | With the intended ending, a caller in a room that does not announce joins the conference with the stored profile and flags, and no announcement is scheduled |
| Conference.IntendedAgrees | httapihandler/httapihandlerclasses.py:717-747 | The intended join leaves the same dictionary and shared state as the join as written, and gives the same answer wherever the room announces or the key is missing |
| Conference.ExitCleanup | httapihandler/httapihandlerclasses.py:625-641 | Exit answers "Ok" and marks the caller's row (new if none) not live, no other row changing. A file is removed iff it is the name clip, or it is the marker and no session of the room is still live |
| Conference.LastToLeaveRemovesMarker | httapihandler/httapihandlerclasses.py:630-636 | When no other session of the room is live, the leaving caller removes the marker |
| Conference.LiveMemberKeepsMarker | httapihandler/httapihandlerclasses.py:630-636 | While another session of the room is live, the marker is kept |
| Conference.Step | httapihandler/httapihandlerclasses.py:615-757 | Specification of one event, with no contract of its own: the upload (`Received`), then `Body` |
| Conference.Received | httapihandler/httapihandlerclasses.py:617-623 | Specification of the upload, with no contract of its own: the clip is written to `/tmp/conference-<name>` and that path stored as `name_recording` |
| Conference.Body | httapihandler/httapihandlerclasses.py:625-757 | Specification of the rest of `get_data`, with no contract of its own: exit, unknown centre, chk-pin, join-conf and start |
| Conference.ExitStep | httapihandler/httapihandlerclasses.py:625-641 | Specification of the exiting branch, with no contract of its own; see ExitCleanup |
| Conference.CheckPinStep | httapihandler/httapihandlerclasses.py:662-716 | Specification of the chk-pin branch, with no contract of its own; see PinAdmits and BadPinCounts |
| Conference.BadPin | httapihandler/httapihandlerclasses.py:705-716 | Specification of a PIN no room has, with no contract of its own; see BadPinCounts |
| Conference.JoinStep | httapihandler/httapihandlerclasses.py:717-747 | Specification of the join-conf branch, with no contract of its own; see FirstJoinerSchedules and JoinEndsInConference |
| Conference.RecordPart | httapihandler/httapihandlerclasses.py:719-740 | Specification of recording on join, with no contract of its own; see FirstJoinerSchedules and LaterJoinerReuses |
| Conference.AnnouncePart | httapihandler/httapihandlerclasses.py:743-747 | Specification of the end of a join as written, with no contract of its own; see JoinEndsInConference and AnnounceDefect |
| Conference.NewSession | httapihandler/httapihandlerclasses.py:607-609 | Specification of a new session row, with no contract of its own |
| Conference.LiveCount | httapihandler/httapihandlerclasses.py:612-613 | Specification of `get_live_session_count`, the live rows of a room, with no contract of its own; see ExitCleanup and LastToLeaveRemovesMarker |
| Conference.Matches | httapihandler/httapihandlerclasses.py:664-666 | Specification of the room filter, enabled and the PIN equal to the participant or moderator PIN, with no contract of its own; see PinAdmits and RetryCeiling |
| Conference.MemberType | httapihandler/httapihandlerclasses.py:670-672 | Specification of `member_type`, 0 for the participant PIN and 1 otherwise, with no contract of its own; see PinAdmits |
| Conference.FlagList | httapihandler/httapihandlerclasses.py:669-678 | Specification of `flag_list`, with no contract of its own; see FlagsExact |
| Conference.Flags | httapihandler/httapihandlerclasses.py:690 | Specification of the stored `flags`, the list joined by a vertical bar, with no contract of its own; see FlagsExact |
| Conference.Admitted | httapihandler/httapihandlerclasses.py:680-702 | Specification of the dictionary after admission, with no contract of its own; see PinAdmits |
| Conference.AdmitWork | httapihandler/httapihandlerclasses.py:694-700 | Specification of the admission work block, with no contract of its own; see PinAdmits |
| Conference.RetryValue | httapihandler/httapihandlerclasses.py:708 | Specification of Python's `+ 1` on the stored count, a bool counting as 0 or 1, with no contract of its own; see BadPinCounts |
| Conference.ConferenceHandler.FlagsFor | httapihandler/httapihandlerclasses.py:669-678 | Builds `flag_list` by appending and returns exactly `FlagList`, whose contents FlagsExact states |
| Conference.ConferenceHandler.Admit | httapihandler/httapihandlerclasses.py:668-703 | Admitting to a room updates the dictionary and the session rows in place exactly as `Admitted` and `ConfSessionFor` give, and answers with the name prompt and recording notice the room asks for |
| Conference.ConferenceHandler.CountBadPin | httapihandler/httapihandlerclasses.py:705-716 | A PIN no room has updates the dictionary exactly as `BadPin` says |
| Conference.ConferenceHandler.RecordOnJoin | httapihandler/httapihandlerclasses.py:719-740 | Recording on join updates the dictionary, the session row and /tmp in place exactly as `RecordPart` says, and returns its work |
| Conference.ConferenceHandler.Announce | httapihandler/httapihandlerclasses.py:743-747 | The answer at the end of a join, exactly as `AnnouncePart` says |
| CallBlock.Split | httapihandler/httapihandlerclasses.py:583 | `split(':')` gives at least one piece, and no piece contains the separator |
| CallBlock.SplitJoin | httapihandler/httapihandlerclasses.py:583 | Joining the pieces with the separator gives back the action string |
| CallBlock.SplitPair | httapihandler/httapihandlerclasses.py:583-584 | "app:data" without further colons splits into exactly [app, data] |
| CallBlock.SplitNone | httapihandler/httapihandlerclasses.py:583-584 | A string without a colon is one piece |
| CallBlock.NameAndNumberClauseRedundant | httapihandler/httapihandlerclasses.py:575-579 | The filter's third alternative (name and number both match) adds nothing to the first two |
| CallBlock.ExitingIsOk | httapihandler/httapihandlerclasses.py:560-561 | An exiting channel gets "Ok"; nothing is read or changed |
| CallBlock.RunOnce | httapihandler/httapihandlerclasses.py:571-572 | The first event sets `run`; any later event answers a bare `break` whatever the rules |
| CallBlock.EndsInBreak | httapihandler/httapihandlerclasses.py:586 | Every work block ends in `break` |
| CallBlock.FirstRuleActs | httapihandler/httapihandlerclasses.py:571-586 | On the first event the first applicable rule "app:data" gives execute(app, data) then break; no applicable rule gives break alone |
| CallBlock.ActionWithoutColon | httapihandler/httapihandlerclasses.py:583-584 | An action without a colon raises IndexError, after `run` is stored |
| CallBlock.CallBlockHandler.GetData | httapihandler/httapihandlerclasses.py:559-589 | One event updates the dictionary and answers exactly as `CallBlock.Step` says |
| CallBlock.Step | httapihandler/httapihandlerclasses.py:559-589 | Specification of one event, with no contract of its own; its properties are the CallBlock lemmas |
| CallBlock.Applies | httapihandler/httapihandlerclasses.py:575-579 | Specification of the queryset filter, with no contract of its own: the domain and enabled match, and the name or number matches or is NULL |
| CallBlock.FirstRule | httapihandler/httapihandlerclasses.py:575-583 | Specification of `qs[0]`, with no contract of its own: `FindFirst` over the rules with `Applies`, whose contract states it is the first applicable one |
| FollowMeToggle.ExitingIsOk | httapihandler/httapihandlerclasses.py:89-90 | An exiting channel gets "Ok"; nothing is read or changed |
| FollowMeToggle.UnknownExtension | httapihandler/httapihandlerclasses.py:93-98 | An unknown extension gives E1001 with nothing changed |
| FollowMeToggle.TogglesAndInvalidates | httapihandler/httapihandlerclasses.py:100-120 | Only that extension's flag flips; `directory:<ext>@<domain>` is deleted; "cancelled" plays iff follow-me was on; the call hangs up |
| FollowMeToggle.TwiceRestores | httapihandler/httapihandlerclasses.py:100-119 | Two toggles restore a 'true'/'false' flag and delete the cache entry twice |
| FollowMeToggle.GetData | httapihandler/httapihandlerclasses.py:88-123 | One event updates the extension row and the external-call log exactly as `FollowMeToggle.Step` says |
| FollowMeToggle.Step | httapihandler/httapihandlerclasses.py:88-123 | Specification of one event, with no contract of its own; its properties are the FollowMeToggle lemmas |
| FollowMeToggle.ToggleWork | httapihandler/httapihandlerclasses.py:103-120 | Specification of the answer to a toggle, with no contract of its own; see TogglesAndInvalidates |
| SimpleHandlers.TestGetData | httapihandler/httapihandlerclasses.py:56-75 | "Ok" when exiting; otherwise answer, log "Hello World", play the prompt, hang up |
| SimpleHandlers.FollowMeGetData | httapihandler/httapihandlerclasses.py:137-154 | "Ok" when exiting. Without an extension, the unbound bridge helper raises. Otherwise: set hangup_after_bridge=true, then bridge |
| SimpleHandlers.TimeoutInstr | httapihandler/httapihandlerclasses.py:375-378 | A 'hangup' timeout action becomes the hangup element; any other becomes execute(app, data) |
| SimpleHandlers.RingGroupGetData | httapihandler/httapihandlerclasses.py:358-382 | "Ok" when exiting and R1001 when the ring group cannot be built. Otherwise: bridge, then the timeout action; the work ends in hangup iff that action is 'hangup' |

## Left out

- HangupHandler: it sends missed-call e-mail through a template service and has no exiting branch. It is not modelled.
- RegisterHandler: it runs firewall shell scripts for new registrations and has no exiting branch. It is not modelled.
- Recordings.SaveUpload: a recording is a name and its file contents. Its description, the domain it is created in and the storage back end's renaming of a clashing file name are not modelled, nor is the `MultipleObjectsReturned` a duplicate name would raise.
- XML: the lxml tree building and serialisation are left out; a work block is a sequence of `Instr`.
- The base class `HttApiHandler` is not part of this model. Its helpers `play_and_get_digits`, `record_and_get_digits`, `error_hangup` and `return_data` become the `PlayAndGetDigits`, `RecordAndGetDigits` and `ErrorHangup` values. `get_domain_variables` and `get_sounds_variables` become the `Env` input, and their own failures are not modelled.
- External calls: dialplan generation, presence events and cache deletion are entries in a ghost log. Cache reads and timing are not modelled.
- `ExtFunctions.generate_bridge` and `RgFunctions` are not part of this model; their results are inputs.
- The clock, the switch's recordings-directory setting and the primary key of a new session row are inputs (`ConfEnv`).
- Uncaught Python exceptions are `Fault(exc)`, where `exc` names the exception class (KeyError, TypeError, UnboundLocalError, IndexError or DoesNotExist) and the key or name involved. What the web framework then sends to the switch is not modelled.
- Concurrency: each event is one sequential step. Races between callers on the conference marker file are not modelled.
- Queryset order: a table's rows are a sequence assumed to be listed in the order the queryset returns them, so `.first()` and `qs[0]` are its first matching element. How the database orders them (by primary key for `.first()` on an unordered queryset, otherwise by `Meta.ordering` or not at all) is not modelled.
- Logging, NULL action and malformed keys: the `self.logger.debug` calls (194-197, 500, 580-581, 652) are not modelled. A NULL `CallBlock.data`, which would raise AttributeError at 583, cannot occur because `data` is a plain string. A malformed `callflow_uuid` or `conference_uuid` primary key, which would make `.get(pk=…)` at 498 and 650 raise, is treated as unknown and answered with D1001 or C0001.
- Room PINs are assumed non-NULL, so a missing `pb_input` matches no room.
- Conference.NewSession: the Django model for `ConferenceSessions` is not part of this model. A new row is assumed `live='true'` with empty recording and caller-id fields.
- Conference.ConfSessionFor: a `sess_uuid` that is not a string is looked up by its printed form. A key the database would reject is not modelled.
- Conference.AnnounceDefect: `Step` keeps the join as written, so a room that does not announce faults there; the intended join is `JoinStepIntended` (see Findings).

## Findings

| source | as written | input that shows it | evidently intended | confidence | as-written member | corrected member |
|---|---|---|---|---|---|---|
| httapihandler/httapihandlerclasses.py:743-745 | the `execute set` of `announce_data` is outside the `if announce == 'true'` that binds it | a join-conf event for a room whose `announce` is 'false': UnboundLocalError, and the caller never reaches the conference | schedule the announcement only when the room announces, then join the conference in every case | not executed | Conference.AnnounceDefect | Conference.IntendedJoinWithoutAnnounce |
