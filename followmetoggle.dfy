/**
 * The follow-me toggle handler: flip an extension's follow-me flag, say
 * whether call forwarding is now set or cancelled, drop the extension's
 * directory cache entry and hang up. It keeps no session state.
 */
module FollowMeToggle {
  import opened HttApi
  import opened Config

  const CANCELLED_PROMPT := "ivr/ivr-call_forwarding_has_been_cancelled.wav"
  const SET_PROMPT := "ivr/ivr-call_forwarding_has_been_set.wav"

  /** The cache entry holding an extension's directory entry. */
  function DirectoryKey(extension: string, domain: string): string {
    "directory:" + extension + "@" + domain
  }

  /** What one event does: the extension rows, the external calls, the answer. */
  datatype ToggleOutcome = ToggleOutcome(extensions: map<string, Extension>, effects: seq<Effect>, resp: Response)

  /** The answer for an extension whose flag was `flag`. */
  function ToggleWork(flag: string): seq<Instr> {
    [Exec("sleep", "2000"), Playback(if flag == "true" then CANCELLED_PROMPT else SET_PROMPT), Hangup(None)]
  }

  /** One event of `FollowMeToggleHandler.get_data`. */
  function Step(extensions: map<string, Extension>, ev: Event, env: Env): ToggleOutcome {
    if ev.exiting then ToggleOutcome(extensions, [], Text(OK_TEXT))
    else
      var id := Var(ev, "extension_uuid");
      if id.None? || id.value !in extensions then ToggleOutcome(extensions, [], ErrorHangup("E1001"))
      else
        var e := extensions[id.value];
        ToggleOutcome(extensions[id.value := e.(followMeEnabled := Toggled(e.followMeEnabled))],
                      [CacheDelete(DirectoryKey(e.extension, env.domainName))],
                      Document(ToggleWork(e.followMeEnabled)))
  }

  /** A channel that is exiting gets "Ok"; nothing is read or changed. */
  lemma ExitingIsOk(extensions: map<string, Extension>, ev: Event, env: Env)
    requires ev.exiting
    ensures Step(extensions, ev, env) == ToggleOutcome(extensions, [], Text(OK_TEXT))
  {
  }

  /** An unknown extension is error E1001 and nothing changes. */
  lemma UnknownExtension(extensions: map<string, Extension>, ev: Event, env: Env)
    requires !ev.exiting && ("extension_uuid" !in ev.vars || ev.vars["extension_uuid"] !in extensions)
    ensures Step(extensions, ev, env) == ToggleOutcome(extensions, [], ErrorHangup("E1001"))
  {
  }

  /**
   * For a known extension the follow-me flag flips and nothing else about
   * any extension changes, `directory:<extension>@<domain>` is deleted from
   * the cache, the prompt says "cancelled" exactly when follow-me was on,
   * and the call hangs up.
   */
  lemma TogglesAndInvalidates(extensions: map<string, Extension>, ev: Event, env: Env, id: string)
    requires !ev.exiting && Var(ev, "extension_uuid") == Some(id) && id in extensions
    ensures var r := Step(extensions, ev, env);
      var e := extensions[id];
      && r.extensions.Keys == extensions.Keys
      && r.extensions[id].followMeEnabled == (if e.followMeEnabled == "true" then "false" else "true")
      && r.extensions[id].extension == e.extension
      && (forall other :: other in extensions && other != id ==> r.extensions[other] == extensions[other])
      && r.effects == [CacheDelete("directory:" + e.extension + "@" + env.domainName)]
      && EndsInHangup(r.resp)
      && HasInstr(r.resp, Playback(CANCELLED_PROMPT)) == (e.followMeEnabled == "true")
      && HasInstr(r.resp, Playback(SET_PROMPT)) == (e.followMeEnabled != "true")
  {
  }

  /** Toggling twice restores a 'true'/'false' flag and deletes the cache entry each time. */
  lemma {:induction false} TwiceRestores(extensions: map<string, Extension>, ev: Event, env: Env, id: string)
    requires !ev.exiting && Var(ev, "extension_uuid") == Some(id) && id in extensions
    requires extensions[id].followMeEnabled == "true" || extensions[id].followMeEnabled == "false"
    ensures var r1 := Step(extensions, ev, env);
      var r2 := Step(r1.extensions, ev, env);
      && r2.extensions == extensions
      && r1.effects + r2.effects == [CacheDelete(DirectoryKey(extensions[id].extension, env.domainName)),
                                     CacheDelete(DirectoryKey(extensions[id].extension, env.domainName))]
  {
    TogglesAndInvalidates(extensions, ev, env, id);
    var r1 := Step(extensions, ev, env);
    TogglesAndInvalidates(r1.extensions, ev, env, id);
    var r2 := Step(r1.extensions, ev, env);
    assert r2.extensions[id] == extensions[id];
  }

  /** `FollowMeToggleHandler.get_data` for one event over the shared store. */
  method GetData(store: Store, ev: Event, env: Env) returns (resp: Response)
    modifies store`extensions, store`effects
    ensures var r := Step(old(store.extensions), ev, env);
      && store.extensions == r.extensions && store.effects == old(store.effects) + r.effects && resp == r.resp
  {
    if ev.exiting {
      return Text(OK_TEXT);
    }
    var extensionUuid := Var(ev, "extension_uuid");
    if extensionUuid.None? || extensionUuid.value !in store.extensions {
      return ErrorHangup("E1001");
    }
    var e := store.extensions[extensionUuid.value];
    var work: seq<Instr> := [];
    work := work + [Exec("sleep", "2000")];
    if e.followMeEnabled == "true" {
      work := work + [Playback(CANCELLED_PROMPT)];
      e := e.(followMeEnabled := "false");
    } else {
      work := work + [Playback(SET_PROMPT)];
      e := e.(followMeEnabled := "true");
    }
    store.extensions := store.extensions[extensionUuid.value := e];
    var directoryCacheKey := DirectoryKey(e.extension, env.domainName);
    store.effects := store.effects + [CacheDelete(directoryCacheKey)];
    work := work + [Hangup(None)];
    resp := Document(work);
  }
}
