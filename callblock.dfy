/**
 * The call-block handler: once per call, find the first enabled call-block
 * rule of the domain that applies to the caller and execute its action;
 * every answer ends with `break`.
 */
module CallBlock {
  import opened HttApi
  import opened Config

  /** Python's `s.split(sep)` for a one-character separator. */
  function Split(s: string, sep: char): (r: seq<string>)
    ensures |r| >= 1
    ensures forall i :: 0 <= i < |r| ==> sep !in r[i]
    decreases |s|
  {
    if |s| == 0 then [""]
    else if s[0] == sep then [""] + Split(s[1..], sep)
    else
      var rest := Split(s[1..], sep);
      [[s[0]] + rest[0]] + rest[1..]
  }

  /** Joining the pieces with the separator gives back the string. */
  lemma {:induction false} SplitJoin(s: string, sep: char)
    ensures Join(Split(s, sep), [sep]) == s
    decreases |s|
  {
    if |s| == 0 {
    } else {
      var rest := Split(s[1..], sep);
      SplitJoin(s[1..], sep);
      if s[0] == sep {
        assert Split(s, sep) == [""] + rest;
        assert ([""] + rest)[1..] == rest;
        assert s == [sep] + s[1..];
      } else {
        var r := [[s[0]] + rest[0]] + rest[1..];
        assert Split(s, sep) == r;
        if |rest| == 1 {
          assert s == [s[0]] + s[1..];
        } else {
          assert r[1..] == rest[1..];
          assert Join(rest, [sep]) == rest[0] + [sep] + Join(rest[1..], [sep]);
          assert s == [s[0]] + s[1..];
        }
      }
    }
  }

  /** An action "app:data" without further colons splits into exactly its two parts. */
  lemma {:induction false} SplitPair(app: string, data: string, sep: char)
    requires sep !in app && sep !in data
    ensures Split(app + [sep] + data, sep) == [app, data]
    decreases |app|
  {
    if |app| == 0 {
      assert app + [sep] + data == [sep] + data;
      assert ([sep] + data)[1..] == data;
      SplitNone(data, sep);
    } else {
      SplitPair(app[1..], data, sep);
      assert (app + [sep] + data)[1..] == app[1..] + [sep] + data;
      assert [app[0]] + app[1..] == app;
    }
  }

  /** A string without the separator is a single piece. */
  lemma {:induction false} SplitNone(s: string, sep: char)
    requires sep !in s
    ensures Split(s, sep) == [s]
    decreases |s|
  {
    if |s| > 0 {
      SplitNone(s[1..], sep);
      assert [s[0]] + s[1..] == s;
    }
  }

  /**
   * The rule filter: the rule names the caller's name or no name, or names
   * the caller's number or no number, or names both; it belongs to the
   * domain and is enabled.
   */
  predicate Applies(rule: CallBlockRule, name: string, number: string, domainUuid: string) {
    && ((rule.name == Some(name) || rule.name.None?)
        || (rule.number == Some(number) || rule.number.None?)
        || (rule.name == Some(name) && rule.number == Some(number)))
    && rule.domain == domainUuid && rule.enabled == "true"
  }

  /**
   * The third alternative of the filter adds nothing: a rule applies exactly
   * when its name matches or is empty, or its number matches or is empty.
   */
  lemma NameAndNumberClauseRedundant(rule: CallBlockRule, name: string, number: string, domainUuid: string)
    ensures Applies(rule, name, number, domainUuid)
        <==> && (rule.name.None? || rule.name == Some(name) || rule.number.None? || rule.number == Some(number))
             && rule.domain == domainUuid && rule.enabled == "true"
  {
  }

  /** The index of the first applicable rule in queryset order. */
  function FirstRule(rules: seq<CallBlockRule>, ev: Event, env: Env): Option<nat> {
    var name := VarOr(ev, "Caller-Orig-Caller-ID-Name", "None");
    var number := VarOr(ev, "Caller-Orig-Caller-ID-Number", "None");
    FindFirst(rules, (r: CallBlockRule) => Applies(r, name, number, env.domainUuid))
  }

  /** One event of `CallBlockHandler.get_data`. */
  function Step(s: HState, rules: seq<CallBlockRule>, ev: Event, env: Env): Outcome {
    if ev.exiting then Outcome(s, Text(OK_TEXT))
    else if "run" in s then Outcome(s, Document([Break]))
    else
      var s1 := s["run" := JBool(false)];
      var i := FirstRule(rules, ev, env);
      if i.None? then Outcome(s1, Document([Break]))
      else
        var act := Split(rules[i.value].data, ':');
        if |act| < 2 then Outcome(s1, Fault(IndexError))
        else Outcome(s1, Document([Exec(act[0], act[1]), Break]))
  }

  /** A channel that is exiting gets "Ok"; nothing is read or changed. */
  lemma ExitingIsOk(s: HState, rules: seq<CallBlockRule>, ev: Event, env: Env)
    requires ev.exiting
    ensures Step(s, rules, ev, env) == Outcome(s, Text(OK_TEXT))
  {
  }

  /**
   * Run once: the first event of a call marks the dictionary with `run`,
   * and every later event answers with a bare `break` whatever the rules.
   */
  lemma {:induction false} RunOnce(s: HState, rules: seq<CallBlockRule>, ev1: Event, ev2: Event, env: Env)
    requires !ev1.exiting && !ev2.exiting
    ensures var r1 := Step(s, rules, ev1, env);
      var r2 := Step(r1.state, rules, ev2, env);
      && "run" in r1.state
      && r2 == Outcome(r1.state, Document([Break]))
  {
    var r1 := Step(s, rules, ev1, env);
    assert "run" in r1.state;
  }

  /** Every work block the handler answers with ends in `break`. */
  lemma EndsInBreak(s: HState, rules: seq<CallBlockRule>, ev: Event, env: Env)
    ensures var r := Step(s, rules, ev, env);
      r.resp.Document? ==> |r.resp.work| > 0 && r.resp.work[|r.resp.work| - 1] == Break
  {
  }

  /**
   * On the first event, when the first applicable rule's action is
   * "app:data" (no further colon), the work block executes app with data
   * and breaks; when no rule applies it only breaks.
   */
  lemma FirstRuleActs(s: HState, rules: seq<CallBlockRule>, ev: Event, env: Env)
    requires !ev.exiting && "run" !in s
    ensures var i := FirstRule(rules, ev, env);
      var r := Step(s, rules, ev, env);
      && r.state == s["run" := JBool(false)]
      && (i.None? ==> r.resp == Document([Break]))
      && (i.Some? ==>
            forall app, data | ':' !in app && ':' !in data && rules[i.value].data == app + ":" + data ::
              r.resp == Document([Exec(app, data), Break]))
  {
    var i := FirstRule(rules, ev, env);
    if i.Some? {
      forall app, data | ':' !in app && ':' !in data && rules[i.value].data == app + ":" + data
        ensures Step(s, rules, ev, env).resp == Document([Exec(app, data), Break])
      {
        assert app + ":" + data == app + [':'] + data;
        SplitPair(app, data, ':');
      }
    }
  }

  /** An action with no colon cannot be split into application and data: the handler fails. */
  lemma ActionWithoutColon(s: HState, rules: seq<CallBlockRule>, ev: Event, env: Env)
    requires !ev.exiting && "run" !in s
    requires var i := FirstRule(rules, ev, env); i.Some? && ':' !in rules[i.value].data
    ensures Step(s, rules, ev, env) == Outcome(s["run" := JBool(false)], Fault(IndexError))
  {
    SplitNone(rules[FirstRule(rules, ev, env).value].data, ':');
  }

  /** `CallBlockHandler`: the session dictionary, over the shared store. */
  class CallBlockHandler {
    var state: HState
    const store: Store

    constructor (store: Store)
      ensures this.store == store && state == map[]
    {
      this.store := store;
      state := map[];
    }

    /** `get_data` for one event. */
    method GetData(ev: Event, env: Env) returns (resp: Response)
      modifies this
      ensures state == Step(old(state), store.callBlocks, ev, env).state
      ensures resp == Step(old(state), store.callBlocks, ev, env).resp
    {
      if ev.exiting {
        return Text(OK_TEXT);
      }
      var callerIdName := VarOr(ev, "Caller-Orig-Caller-ID-Name", "None");
      var callerIdNumber := VarOr(ev, "Caller-Orig-Caller-ID-Number", "None");
      var work: seq<Instr> := [];
      if "run" !in state {
        state := state["run" := JBool(false)];
        var qs := FindFirst(store.callBlocks, (r: CallBlockRule) => Applies(r, callerIdName, callerIdNumber, env.domainUuid));
        if qs.Some? {
          var act := Split(store.callBlocks[qs.value].data, ':');
          if |act| < 2 {
            return Fault(IndexError);
          }
          work := work + [Exec(act[0], act[1])];
        }
      }
      work := work + [Break];
      resp := Document(work);
    }
  }
}
