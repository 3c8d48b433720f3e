/**
 * The request/response vocabulary shared by every HttAPI handler: the event the
 * switch posts, the per-handler session dictionary, the call-control
 * instructions of a work block and the response a handler returns.
 */
module HttApi {

  datatype Option<+T> = None | Some(value: T)

  /** A JSON scalar stored in a handler's session dictionary. */
  datatype JVal = JStr(s: string) | JInt(i: int) | JBool(b: bool)

  /** `session.json[handler_name]`: the dictionary one handler keeps between events. */
  type HState = map<string, JVal>

  /** The `next_action` key every workflow branches on. */
  const NEXT_ACTION := "next_action"

  /** A file posted with the event (the `rd_input` field): its name and its bytes. */
  datatype Upload = Upload(name: string, content: string)

  /**
   * One event from the switch: whether the channel is exiting, the posted
   * fields (`qdict`) and an optional uploaded file (`getfile` / `fdict`).
   */
  datatype Event = Event(exiting: bool, vars: map<string, string>, upload: Option<Upload>)

  /** `qdict.get(k)`: the field, or None when it was not posted. */
  function Var(ev: Event, k: string): (r: Option<string>)
    ensures r.Some? <==> k in ev.vars
    ensures r.Some? ==> r.value == ev.vars[k]
  {
    if k in ev.vars then Some(ev.vars[k]) else None
  }

  /** `qdict.get(k, d)`: the field, or the default `d` when it was not posted. */
  function VarOr(ev: Event, k: string, d: string): (r: string)
    ensures k in ev.vars ==> r == ev.vars[k]
    ensures k !in ev.vars ==> r == d
  {
    if k in ev.vars then ev.vars[k] else d
  }

  /** Python truthiness of an optional string: present and not empty. */
  predicate Truthy(o: Option<string>) {
    o.Some? && o.value != ""
  }

  /** The value stored under `k` as a string, when it is one. */
  function GetStr(s: HState, k: string): (r: Option<string>)
    ensures r.Some? <==> k in s && s[k].JStr?
    ensures r.Some? ==> s[k] == JStr(r.value)
  {
    if k in s && s[k].JStr? then Some(s[k].s) else None
  }

  /** Is the workflow's `next_action` equal to the state label `action`? */
  predicate At(s: HState, action: string) {
    NEXT_ACTION in s && s[NEXT_ACTION] == JStr(action)
  }

  /** One element of the `work` block, in the order the switch executes them. */
  datatype Instr =
    | Execute(app: string, data: Option<string>)   // <execute application= data=>
    | Playback(file: string)
    | Pause(milliseconds: nat)
    | Log(level: string, text: string)
    | PlayAndGetDigits(prompt: string, variable: Option<string>, regex: Option<string>)
    | RecordAndGetDigits(file: string)
    | Conference(profile: string, flags: string, room: string)
    | Hangup(cause: Option<string>)
    | Break
    | Continue

  /** `<execute application=app data=data>`. */
  function Exec(app: string, data: string): Instr {
    Execute(app, Some(data))
  }

  /**
   * What a handler returns to the switch: plain text, an XML document with a
   * work block, the base class's spoken error followed by a hangup, or an
   * exception the handler does not catch (the framework then answers with a
   * server error).
   */
  datatype Response =
    | Text(body: string)
    | Document(work: seq<Instr>)
    | ErrorHangup(code: string)
    | Fault(exc: Exception)

  /**
   * The Python exceptions a handler can raise and not catch: a missing
   * dictionary key, an operation on a value of the wrong type, a local
   * variable used before it is bound, an index past the end of a list, and
   * a database row that `.get()` does not find.
   */
  datatype Exception =
    | KeyError(key: string)
    | TypeError(item: string)
    | UnboundLocalError(name: string)
    | IndexError
    | DoesNotExist(table: string)

  /** The plain-text acknowledgement returned for post-hangup events. */
  const OK_TEXT := "Ok\n"

  predicate HasInstr(r: Response, i: Instr) {
    r.Document? && i in r.work
  }

  /** The response's work block ends the call with a hangup (any cause). */
  predicate EndsInHangup(r: Response) {
    r.Document? && |r.work| > 0 && r.work[|r.work| - 1].Hangup?
  }

  /** Some element of the work block hangs the call up. */
  predicate HangsUp(r: Response) {
    r.Document? && exists i :: 0 <= i < |r.work| && r.work[i].Hangup?
  }

  /** Calls into code outside the model: cache, dialplan generator, presence. */
  datatype Effect =
    | CacheDelete(key: string)
    | GenerateDialplan(callFlow: string)
    | PresenceIn(callFlow: string, status: string, featureCode: string, domain: string)

  /** Per-domain values the base class resolves before a handler runs. */
  datatype Env = Env(domainName: string, domainUuid: string, recordingsDir: string, sessionId: string)

  /** The state label every PIN-gated workflow waits in for the entered digits. */
  const CHK_PIN := "chk-pin"

  /** Prompts shared by the PIN-gated workflows. */
  const ENTER_PASS_PROMPT := "phrase:voicemail_enter_pass:#"
  const FAIL_AUTH_PROMPT := "phrase:voicemail_fail_auth:#"

  /**
   * A 'true'/'false' text flag after a toggle, as the toggle handlers write
   * it: 'true' becomes 'false', anything else 'true'.
   */
  function Toggled(flag: string): (r: string)
    ensures r == "true" || r == "false"
    ensures r == "false" <==> flag == "true"
  {
    if flag == "true" then "false" else "true"
  }

  /** Python's `sep.join(xs)`. */
  function Join(xs: seq<string>, sep: string): (r: string)
    ensures |xs| == 0 ==> r == ""
    ensures |xs| == 1 ==> r == xs[0]
  {
    if |xs| == 0 then ""
    else if |xs| == 1 then xs[0]
    else xs[0] + sep + Join(xs[1..], sep)
  }

  /** What a handler that only keeps session state produces for one event. */
  datatype Outcome = Outcome(state: HState, resp: Response)

  /**
   * The index of the first element satisfying `p`: the model of a queryset's
   * `.first()` or `qs[0]` over rows in queryset order.
   */
  function FindFirst<T>(xs: seq<T>, p: T -> bool): (r: Option<nat>)
    ensures r.Some? ==> r.value < |xs| && p(xs[r.value])
    ensures r.Some? ==> forall j :: 0 <= j < r.value ==> !p(xs[j])
    ensures r.None? ==> forall j :: 0 <= j < |xs| ==> !p(xs[j])
  {
    if |xs| == 0 then None
    else if p(xs[0]) then Some(0)
    else match FindFirst(xs[1..], p)
      case None => None
      case Some(i) => Some(i + 1)
  }

  function DigitChar(d: nat): (c: char)
    requires d < 10
    ensures '0' <= c <= '9'
  {
    ('0' as int + d) as char
  }

  /** Python's `str(n)` for a non-negative integer. */
  function NatToDecimal(n: nat): (s: string)
    ensures |s| > 0 && '0' <= s[0] <= '9'
  {
    if n < 10 then [DigitChar(n)] else NatToDecimal(n / 10) + [DigitChar(n % 10)]
  }

  /** Python's `str(i)` for any integer. */
  function IntToDecimal(i: int): (s: string)
    ensures |s| > 0
    ensures (s[0] == '-') <==> i < 0
  {
    if i < 0 then "-" + NatToDecimal(-i) else NatToDecimal(i)
  }

  /** Every character is a decimal digit. */
  predicate AllDigits(s: string) {
    forall k :: 0 <= k < |s| ==> '0' <= s[k] <= '9'
  }

  /** The number a string of decimal digits denotes. */
  function DecimalValue(s: string): nat
    requires AllDigits(s)
    decreases |s|
  {
    if |s| == 0 then 0 else DecimalValue(s[..|s| - 1]) * 10 + (s[|s| - 1] as int - '0' as int)
  }

  /** `str(n)`: the digits of n, denoting n, without a leading zero. */
  lemma {:induction false} NatToDecimalValue(n: nat)
    ensures var s := NatToDecimal(n);
      AllDigits(s) && DecimalValue(s) == n && (|s| > 1 ==> s[0] != '0')
  {
    if n >= 10 {
      var t := NatToDecimal(n / 10);
      NatToDecimalValue(n / 10);
      var s := NatToDecimal(n);
      assert s == t + [DigitChar(n % 10)];
      assert s[..|s| - 1] == t;
      assert s[0] == t[0];
      if |t| == 1 {
        assert t == [DigitChar(n / 10)];
      }
    }
  }

  /** `str(i)` for any integer: a minus sign exactly for a negative one, then the digits of its magnitude. */
  lemma IntToDecimalValue(i: int)
    ensures var s := IntToDecimal(i);
      && (i >= 0 ==> AllDigits(s) && DecimalValue(s) == i)
      && (i < 0 ==> s[0] == '-' && AllDigits(s[1..]) && DecimalValue(s[1..]) == -i)
  {
    if i < 0 {
      NatToDecimalValue(-i);
      assert IntToDecimal(i)[1..] == NatToDecimal(-i);
    } else {
      NatToDecimalValue(i);
    }
  }
}
