/**
 * The rows of the relational store the handlers read and update, and the
 * shared state outside a call's session: the database tables, the switch
 * host's /tmp file system and the log of calls into code outside the model.
 */
module Config {
  import opened HttApi

  /** An `Extension` row: its number and its follow-me flag ('true'/'false'). */
  datatype Extension = Extension(extension: string, followMeEnabled: string)

  /** A `CallFlows` row: the day/night status ('true' is day) and its feature code. */
  datatype CallFlow = CallFlow(status: string, featureCode: string)

  /**
   * A `CallBlock` row: its domain, the caller name and number it names (a
   * NULL column is None), whether it is enabled, and its action "app:data".
   */
  datatype CallBlockRule = CallBlockRule(
    domain: string, name: Option<string>, number: Option<string>, enabled: string, data: string)

  /** A conference room of a conference centre, with the settings the handler copies. */
  datatype Room = Room(
    id: string, name: string, participantPin: string, moderatorPin: string,
    enabled: string, waitMod: string, mute: string, announce: string,
    record: string, sounds: string, profile: string, maxMembers: int)

  /** A `ConferenceCentres` row with its rooms in queryset order. */
  datatype Centre = Centre(rooms: seq<Room>)

  /** A `ConferenceSessions` row. */
  datatype ConfSession = ConfSession(
    room: Option<string>, profile: string, live: string,
    recording: string, callerIdName: string, callerIdNumber: string)

  /**
   * Everything the handlers share across calls: the tables (keyed by primary
   * key, or in queryset order), the uploaded recordings as name -> contents,
   * the primary keys of the `Domain` rows, the file system as path ->
   * contents, and the ordered log of cache deletions and other external calls.
   */
  class Store {
    var extensions: map<string, Extension>
    var callFlows: map<string, CallFlow>
    var callBlocks: seq<CallBlockRule>
    var centres: map<string, Centre>
    var confSessions: map<string, ConfSession>
    var recordings: map<string, string>
    var domains: set<string>
    var files: map<string, string>
    ghost var effects: seq<Effect>

    constructor (
      extensions: map<string, Extension>, callFlows: map<string, CallFlow>,
      callBlocks: seq<CallBlockRule>, centres: map<string, Centre>, domains: set<string>)
      ensures this.extensions == extensions && this.callFlows == callFlows
      ensures this.callBlocks == callBlocks && this.centres == centres && this.domains == domains
      ensures confSessions == map[] && recordings == map[] && files == map[] && effects == []
    {
      this.extensions := extensions;
      this.callFlows := callFlows;
      this.callBlocks := callBlocks;
      this.centres := centres;
      this.domains := domains;
      confSessions := map[];
      recordings := map[];
      files := map[];
      effects := [];
    }
  }
}
