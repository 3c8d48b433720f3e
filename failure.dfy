/**
 * The failure handler: after a bridge fails, decide from the switch's
 * `originate_disposition` whether to forward the call (busy, no answer, not
 * registered) or hang up with a cause. It keeps no session state.
 */
module Failure {
  import opened HttApi

  const NOTICE := "NOTICE"

  /** The dispositions the handler acts on, and the hangup cause for an absent subscriber. */
  const USER_BUSY := "USER_BUSY"
  const NO_ANSWER := "NO_ANSWER"
  const USER_NOT_REGISTERED := "USER_NOT_REGISTERED"
  const SUBSCRIBER_ABSENT := "SUBSCRIBER_ABSENT"
  const CALL_REJECTED := "CALL_REJECTED"
  const UNALLOCATED_NUMBER := "UNALLOCATED_NUMBER"

  /** The log lines, spelt as the handler spells them. */
  const BUSY_TO_TEXT := "forwarding on busy to: "
  const BUSY_EMPTY_TEXT := "forwarding on busy with empty destination: hangup(USER_BUSY)"
  const NO_ANSWER_TO_TEXT := "forwarding on no answer to: "
  const NO_ANSWER_EMPTY_TEXT := "forwarding on no answer with empty destination: hangup(NO_ANSWER)"
  const NOT_REGISTERED_TO_TEXT := "forwarding on not registerd to: "
  const NOT_REGISTERED_EMPTY_TEXT := "forwarding on user not registered with empty destination: hangup(NO_ANSWER)"
  const SUBSCRIBER_ABSENT_TEXT := "subscriber absent: "
  const CALL_REJECTED_TEXT := "call rejected"

  /** The `set` data remembering the last busy extension, and the transfer's separator. */
  const SET_LAST_BUSY := "last_busy_dialed_extension="
  const XML_INFIX := " XML "

  /** `'%s' % value` for a field read with `qdict.get`: a missing one prints as None. */
  function PyStr(o: Option<string>): string {
    if o.Some? then o.value else "None"
  }

  /** The context transfers go to: `Caller-Context`, or the domain name when that is empty. */
  function TransferContext(ev: Event, env: Env): (c: string)
    ensures Truthy(Var(ev, "Caller-Context")) ==> c == ev.vars["Caller-Context"]
    ensures !Truthy(Var(ev, "Caller-Context")) ==> c == env.domainName
  {
    var context := Var(ev, "Caller-Context");
    if Truthy(context) then context.value else env.domainName
  }

  /**
   * Forwarding on busy is attempted: the dialed extension is set, the last
   * busy-forwarded extension (defaulting to "~None~") is not empty and
   * differs from it, and `forward_busy_enabled` (default 'false') is 'true'.
   */
  predicate BusyForwardAttempted(ev: Event) {
    var ext := Var(ev, "dialed_extension");
    var last := VarOr(ev, "last_busy_dialed_extension", "~None~");
    Truthy(ext) && last != "" && ext.value != last && VarOr(ev, "forward_busy_enabled", "false") == "true"
  }

  /**
   * The work of one forwarding branch: when forwarding is not attempted, a
   * hangup with the cause and then a bare hangup; when it is and there is a
   * destination, `prefix`, a log line and a transfer; when the destination is
   * empty, a log line and a hangup with the cause.
   */
  function ForwardWork(
    attempted: bool, dest: Option<string>, prefix: seq<Instr>,
    toText: string, emptyText: string, cause: string, context: string): seq<Instr>
  {
    if !attempted then [Hangup(Some(cause)), Hangup(None)]
    else if Truthy(dest) then
      prefix + [Log(NOTICE, toText + dest.value), Exec("transfer", dest.value + XML_INFIX + context)]
    else [Log(NOTICE, emptyText), Hangup(Some(cause))]
  }

  /** The work block for a non-exiting event, by disposition. */
  function FailureWork(ev: Event, env: Env): seq<Instr> {
    var disposition := Var(ev, "originate_disposition");
    var ext := Var(ev, "dialed_extension");
    var context := TransferContext(ev, env);
    if disposition == Some(USER_BUSY) then
      ForwardWork(BusyForwardAttempted(ev), Var(ev, "forward_busy_destination"),
                  [Exec("set", SET_LAST_BUSY + PyStr(ext))],
                  BUSY_TO_TEXT,
                  BUSY_EMPTY_TEXT, USER_BUSY, context)
    else if disposition == Some(NO_ANSWER) then
      ForwardWork(Var(ev, "forward_no_answer_enabled") == Some("true"), Var(ev, "forward_no_answer_destination"), [],
                  NO_ANSWER_TO_TEXT,
                  NO_ANSWER_EMPTY_TEXT, NO_ANSWER, context)
    else if disposition == Some(USER_NOT_REGISTERED) then
      ForwardWork(Var(ev, "forward_user_not_registered_enabled") == Some("true"),
                  Var(ev, "forward_user_not_registered_destination"), [],
                  NOT_REGISTERED_TO_TEXT,
                  NOT_REGISTERED_EMPTY_TEXT, NO_ANSWER, context)
    else if disposition == Some(SUBSCRIBER_ABSENT) then
      [Log(NOTICE, SUBSCRIBER_ABSENT_TEXT + PyStr(ext)), Hangup(Some(UNALLOCATED_NUMBER))]
    else if disposition == Some(CALL_REJECTED) then
      [Log(NOTICE, CALL_REJECTED_TEXT), Hangup(None)]
    else [Hangup(None)]
  }

  /** The work block transfers the call somewhere. */
  predicate Transfers(work: seq<Instr>) {
    exists i :: 0 <= i < |work| && work[i].Execute? && work[i].app == "transfer"
  }

  /**
   * One forwarding block of `get_data`, entered once the enabled flag is
   * 'true': clear `no_work`, then transfer to the destination after `prefix`
   * and a log line, or log and hang up with the cause when it is empty.
   */
  method ForwardBlock(dest: Option<string>, prefix: seq<Instr>, toText: string, emptyText: string,
                      cause: string, ctx: string) returns (work: seq<Instr>, noWork: bool)
    ensures !noWork && work == ForwardWork(true, dest, prefix, toText, emptyText, cause, ctx)
  {
    noWork := false;
    work := [];
    if Truthy(dest) {
      work := work + prefix;
      work := work + [Log(NOTICE, toText + dest.value)];
      work := work + [Exec("transfer", dest.value + XML_INFIX + ctx)];
    } else {
      work := work + [Log(NOTICE, emptyText)];
      work := work + [Hangup(Some(cause))];
    }
  }

  /** The work a branch leaves, once the trailing `no_work` hangup is added. */
  function Closed(work: seq<Instr>, noWork: bool): seq<Instr> {
    if noWork then work + [Hangup(None)] else work
  }

  /** The USER_BUSY branch of `get_data`, with its loop guard on the last busy extension. */
  method BusyBranch(ev: Event, ctx: string) returns (work: seq<Instr>, noWork: bool)
    ensures Closed(work, noWork)
         == ForwardWork(BusyForwardAttempted(ev), Var(ev, "forward_busy_destination"),
                        [Exec("set", SET_LAST_BUSY + PyStr(Var(ev, "dialed_extension")))],
                        BUSY_TO_TEXT,
                        BUSY_EMPTY_TEXT, USER_BUSY, ctx)
  {
    noWork := true;
    work := [];
    var dialedExtension := Var(ev, "dialed_extension");
    var lastBusy := VarOr(ev, "last_busy_dialed_extension", "~None~");
    if Truthy(dialedExtension) && lastBusy != "" {
      if dialedExtension.value != lastBusy {
        var enabled := VarOr(ev, "forward_busy_enabled", "false");
        if enabled != "" {
          if enabled == "true" {
            work, noWork := ForwardBlock(
              Var(ev, "forward_busy_destination"),
              [Exec("set", SET_LAST_BUSY + dialedExtension.value)],
              BUSY_TO_TEXT,
              BUSY_EMPTY_TEXT, USER_BUSY, ctx);
          }
        }
      }
    }
    if noWork {
      work := work + [Hangup(Some(USER_BUSY))];
    }
  }

  /** The NO_ANSWER and USER_NOT_REGISTERED branches: forward when the flag is 'true'. */
  method EnabledBranch(enabled: Option<string>, dest: Option<string>, toText: string, emptyText: string,
                       cause: string, ctx: string) returns (work: seq<Instr>, noWork: bool)
    ensures Closed(work, noWork) == ForwardWork(enabled == Some("true"), dest, [], toText, emptyText, cause, ctx)
  {
    noWork := true;
    work := [];
    if Truthy(enabled) {
      if enabled.value == "true" {
        work, noWork := ForwardBlock(dest, [], toText, emptyText, cause, ctx);
      }
    }
    if noWork {
      work := work + [Hangup(Some(cause))];
    }
  }

  /**
   * `FailureHandler.get_data`: "Ok" for an exiting channel, otherwise the
   * work block built branch by branch with the `no_work` flag.
   */
  method GetData(ev: Event, env: Env) returns (resp: Response)
    ensures ev.exiting ==> resp == Text(OK_TEXT)
    ensures !ev.exiting ==> resp == Document(FailureWork(ev, env))
  {
    var noWork := true;
    if ev.exiting {
      return Text(OK_TEXT);
    }
    var originateDisposition := Var(ev, "originate_disposition");
    var dialedExtension := Var(ev, "dialed_extension");
    var context := Var(ev, "Caller-Context");
    var ctx := if Truthy(context) then context.value else env.domainName;
    assert ctx == TransferContext(ev, env);
    var work: seq<Instr> := [];

    if originateDisposition == Some(USER_BUSY) {
      work, noWork := BusyBranch(ev, ctx);
    } else if originateDisposition == Some(NO_ANSWER) {
      work, noWork := EnabledBranch(
        Var(ev, "forward_no_answer_enabled"), Var(ev, "forward_no_answer_destination"),
        NO_ANSWER_TO_TEXT,
        NO_ANSWER_EMPTY_TEXT, NO_ANSWER, ctx);
    } else if originateDisposition == Some(USER_NOT_REGISTERED) {
      work, noWork := EnabledBranch(
        Var(ev, "forward_user_not_registered_enabled"), Var(ev, "forward_user_not_registered_destination"),
        NOT_REGISTERED_TO_TEXT,
        NOT_REGISTERED_EMPTY_TEXT, NO_ANSWER, ctx);
    } else if originateDisposition == Some(SUBSCRIBER_ABSENT) {
      noWork := false;
      work := work + [Log(NOTICE, SUBSCRIBER_ABSENT_TEXT + PyStr(dialedExtension))];
      work := work + [Hangup(Some(UNALLOCATED_NUMBER))];
    } else if originateDisposition == Some(CALL_REJECTED) {
      noWork := false;
      work := work + [Log(NOTICE, CALL_REJECTED_TEXT)];
      work := work + [Hangup(None)];
    }

    if noWork {
      work := work + [Hangup(None)];
    }
    resp := Document(work);
  }

  /**
   * Busy calls are transferred exactly when forwarding is attempted and a
   * destination is configured; the transfer is then preceded by remembering
   * the extension as the last busy one and a log line, and goes to the
   * destination in the caller's context.
   */
  lemma BusyTransfersOnlyWhenConfigured(ev: Event, env: Env)
    requires Var(ev, "originate_disposition") == Some(USER_BUSY)
    ensures var work := FailureWork(ev, env);
      && (Transfers(work) <==> BusyForwardAttempted(ev) && Truthy(Var(ev, "forward_busy_destination")))
      && (Transfers(work) ==>
            var dest := ev.vars["forward_busy_destination"];
            work == [ Exec("set", SET_LAST_BUSY + ev.vars["dialed_extension"]),
                      Log(NOTICE, BUSY_TO_TEXT + dest),
                      Exec("transfer", dest + XML_INFIX + TransferContext(ev, env)) ])
  {
    var work := FailureWork(ev, env);
    if !(BusyForwardAttempted(ev) && Truthy(Var(ev, "forward_busy_destination"))) {
      assert forall i :: 0 <= i < |work| ==> !work[i].Execute?;
    } else {
      assert work[2].Execute? && work[2].app == "transfer";
    }
  }

  /**
   * Loop prevention: when the dialed extension is the last one forwarded on
   * busy, the call is not forwarded whatever the forwarding settings; the
   * answer is a hangup with USER_BUSY followed by a bare hangup.
   */
  lemma BusyLoopGuard(ev: Event, env: Env)
    requires Var(ev, "originate_disposition") == Some(USER_BUSY)
    requires Var(ev, "dialed_extension").Some? && Var(ev, "dialed_extension") == Var(ev, "last_busy_dialed_extension")
    ensures FailureWork(ev, env) == [Hangup(Some(USER_BUSY)), Hangup(None)]
  {
  }

  /**
   * USER_BUSY without a transfer: attempted with an empty destination gives a
   * log line and one hangup with USER_BUSY; not attempted gives USER_BUSY and
   * then a bare hangup.
   */
  lemma BusyWithoutDestination(ev: Event, env: Env)
    requires Var(ev, "originate_disposition") == Some(USER_BUSY)
    ensures BusyForwardAttempted(ev) && !Truthy(Var(ev, "forward_busy_destination")) ==>
      FailureWork(ev, env) == [Log(NOTICE, BUSY_EMPTY_TEXT), Hangup(Some(USER_BUSY))]
    ensures !BusyForwardAttempted(ev) ==> FailureWork(ev, env) == [Hangup(Some(USER_BUSY)), Hangup(None)]
  {
  }

  /**
   * For each forwarding disposition: enabled with an empty destination gives
   * a log line and one hangup with the cause; not enabled gives the cause
   * and then a bare hangup.
   */
  lemma ForwardingWithoutDestination(ev: Event, env: Env, d: string, enabledKey: string, destKey: string, cause: string)
    requires (d, enabledKey, destKey, cause) in
      { (NO_ANSWER, "forward_no_answer_enabled", "forward_no_answer_destination", NO_ANSWER),
        (USER_NOT_REGISTERED, "forward_user_not_registered_enabled", "forward_user_not_registered_destination", NO_ANSWER) }
    requires Var(ev, "originate_disposition") == Some(d)
    ensures var work := FailureWork(ev, env);
      && (Var(ev, enabledKey) == Some("true") && !Truthy(Var(ev, destKey)) ==>
            |work| == 2 && work[0].Log? && work[1] == Hangup(Some(cause)))
      && (Var(ev, enabledKey) != Some("true") ==> work == [Hangup(Some(cause)), Hangup(None)])
  {
  }

  /** A transfer always goes to `<destination> XML <context>`, the domain standing in for an empty context. */
  lemma TransferTarget(ev: Event, env: Env, i: nat)
    requires i < |FailureWork(ev, env)| && FailureWork(ev, env)[i].Execute? && FailureWork(ev, env)[i].app == "transfer"
    ensures var ctx := if Truthy(Var(ev, "Caller-Context")) then ev.vars["Caller-Context"] else env.domainName;
      exists dest :: dest != "" && FailureWork(ev, env)[i].data == Some(dest + XML_INFIX + ctx)
  {
    var work := FailureWork(ev, env);
    var disposition := Var(ev, "originate_disposition");
    if disposition == Some(USER_BUSY) {
      assert i == 2;
      var dest := ev.vars["forward_busy_destination"];
      assert work[i].data == Some(dest + XML_INFIX + TransferContext(ev, env));
    } else if disposition == Some(NO_ANSWER) {
      assert i == 1;
      var dest := ev.vars["forward_no_answer_destination"];
      assert work[i].data == Some(dest + XML_INFIX + TransferContext(ev, env));
    } else {
      assert disposition == Some(USER_NOT_REGISTERED) && i == 1;
      var dest := ev.vars["forward_user_not_registered_destination"];
      assert work[i].data == Some(dest + XML_INFIX + TransferContext(ev, env));
    }
  }

  /**
   * Every work block ends the call's current leg: its last element is a
   * hangup or a transfer.
   */
  lemma AlwaysEnds(ev: Event, env: Env)
    ensures var work := FailureWork(ev, env);
      && |work| > 0
      && (work[|work| - 1].Hangup? || (work[|work| - 1].Execute? && work[|work| - 1].app == "transfer"))
  {
    var d := Var(ev, "originate_disposition");
    if d == Some(USER_BUSY) {
    } else if d == Some(NO_ANSWER) {
    } else if d == Some(USER_NOT_REGISTERED) {
    } else {
    }
  }

  /** An absent subscriber is answered with a hangup with cause UNALLOCATED_NUMBER. */
  lemma SubscriberAbsent(ev: Event, env: Env)
    requires Var(ev, "originate_disposition") == Some(SUBSCRIBER_ABSENT)
    ensures FailureWork(ev, env)
         == [Log(NOTICE, SUBSCRIBER_ABSENT_TEXT + PyStr(Var(ev, "dialed_extension"))), Hangup(Some(UNALLOCATED_NUMBER))]
  {
  }

  /** A missing or unknown disposition is answered with a single bare hangup. */
  lemma UnknownDisposition(ev: Event, env: Env)
    requires var d := Var(ev, "originate_disposition");
      d.None? || d.value !in {USER_BUSY, NO_ANSWER, USER_NOT_REGISTERED, SUBSCRIBER_ABSENT, CALL_REJECTED}
    ensures FailureWork(ev, env) == [Hangup(None)]
  {
  }
}
