/**
 * The in-memory session list of the `chat` command: one record per (user, group)
 * pair, found by a linear scan, appended on first contact, and counted on every turn.
 * This module holds the value-level specification; the class that owns the list is
 * `ChatCommand.Plugin`.
 */
module Sessions {
  import opened Wrappers

  /** A user or channel identifier; `None` stands for a nil (`null`/`undefined`) one. */
  type Id = Option<string>

  /** One conversation: who, where, how many turns so far, and its opaque identifier. */
  datatype SessionInfo = SessionInfo(userId: Id, groupId: Id, msgCount: int, sId: string)

  /** What `nowSession` refers to after resolution: an entry of the list, or a record
      that exists for this turn only. */
  datatype Resolution = Stored(index: nat) | Unstored(session: SessionInfo)

  /** The list after resolution, and what the turn resolved to. */
  datatype Resolved = Resolved(sessions: seq<SessionInfo>, now: Resolution)

  /** The list after counting the turn, and the record the turn uses. */
  datatype Counted = Counted(sessions: seq<SessionInfo>, current: SessionInfo)

  /** The predicate handed to `find`: same channel and same user (strict equality, so
      two nil identifiers are equal). It looks at the pair only, never at the turn
      count or the session identifier. */
  predicate Matches(s: SessionInfo, userId: Id, groupId: Id): (r: bool)
    ensures r <==> s.(msgCount := 0, sId := "") == SessionInfo(userId, groupId, 0, "")
  {
    s.groupId == groupId && s.userId == userId
  }

  /** The index `find` stops at: the first entry that matches, if any. */
  function FirstMatch(entries: seq<SessionInfo>, userId: Id, groupId: Id): (r: Option<nat>)
    ensures r.Some? ==> r.value < |entries| && Matches(entries[r.value], userId, groupId)
    ensures r.Some? ==> forall j :: 0 <= j < r.value ==> !Matches(entries[j], userId, groupId)
    ensures r.None? <==> forall j :: 0 <= j < |entries| ==> !Matches(entries[j], userId, groupId)
  {
    if |entries| == 0 then None
    else if Matches(entries[0], userId, groupId) then Some(0)
    else
      match FirstMatch(entries[1..], userId, groupId)
      case None => None
      case Some(k) => Some(k + 1)
  }

  /** A new record for the pair, with no turns yet, under the fresh identifier. */
  function NewSession(userId: Id, groupId: Id, freshId: string): (r: SessionInfo)
    ensures Matches(r, userId, groupId) && r.msgCount == 0 && r.sId == freshId
  {
    SessionInfo(userId, groupId, 0, freshId)
  }

  /** Lookup, append on first contact, or a one-turn record under the `-n` flag.
      The first-contact branch is tested first, so `-n` is irrelevant for a new pair. */
  function Resolve(entries: seq<SessionInfo>, userId: Id, groupId: Id, forceNew: bool, freshId: string): (r: Resolved)
    ensures r.sessions == entries || r.sessions == entries + [NewSession(userId, groupId, freshId)]
    ensures r.sessions != entries <==> FirstMatch(entries, userId, groupId).None?
    ensures r.now.Stored? ==> r.now.index < |r.sessions| && Matches(r.sessions[r.now.index], userId, groupId)
    ensures r.now.Unstored? ==> r.now.session == NewSession(userId, groupId, freshId)
    ensures r.now.Unstored? <==> forceNew && FirstMatch(entries, userId, groupId).Some?
    ensures r.now.Stored? ==>
      r.now.index == (if FirstMatch(entries, userId, groupId).Some? then FirstMatch(entries, userId, groupId).value else |entries|)
  {
    match FirstMatch(entries, userId, groupId)
    case None => Resolved(entries + [NewSession(userId, groupId, freshId)], Stored(|entries|))
    case Some(i) =>
      if forceNew then Resolved(entries, Unstored(NewSession(userId, groupId, freshId)))
      else Resolved(entries, Stored(i))
  }

  /** `nowSession.msgCount += 1`: a stored record is updated inside the list, an
      unstored one only in the turn's own copy. */
  function CountTurn(sessions: seq<SessionInfo>, now: Resolution): (r: Counted)
    requires now.Stored? ==> now.index < |sessions|
    ensures |r.sessions| == |sessions|
    ensures now.Unstored? ==> r.sessions == sessions
    ensures forall j :: 0 <= j < |sessions| && (now.Unstored? || j != now.index) ==> r.sessions[j] == sessions[j]
    ensures now.Stored? ==> r.current == r.sessions[now.index]
    ensures var before := if now.Stored? then sessions[now.index] else now.session;
      r.current == before.(msgCount := before.msgCount + 1)
  {
    match now
    case Stored(i) =>
      var s := sessions[i].(msgCount := sessions[i].msgCount + 1);
      Counted(sessions[i := s], s)
    case Unstored(t) => Counted(sessions, t.(msgCount := t.msgCount + 1))
  }

  /** No stored session identifier equals `id`: what a fresh random UUID guarantees. */
  predicate FreshId(entries: seq<SessionInfo>, id: string) {
    forall j :: 0 <= j < |entries| ==> entries[j].sId != id
  }

  /** At most one entry per (user, group) pair. */
  predicate UniquePairs(entries: seq<SessionInfo>) {
    forall i, j :: 0 <= i < j < |entries| ==> !Matches(entries[j], entries[i].userId, entries[i].groupId)
  }

  /** No two entries share a session identifier. */
  predicate UniqueIds(entries: seq<SessionInfo>) {
    forall i, j :: 0 <= i < j < |entries| ==> entries[i].sId != entries[j].sId
  }

  /** `after` keeps every entry of `before` in place, with the same pair and
      identifier and a turn count that has not gone down; it may be longer. */
  predicate Extends(before: seq<SessionInfo>, after: seq<SessionInfo>) {
    |before| <= |after| &&
    forall i :: 0 <= i < |before| ==>
      after[i].userId == before[i].userId && after[i].groupId == before[i].groupId &&
      after[i].sId == before[i].sId && before[i].msgCount <= after[i].msgCount
  }

  /** Resolving and counting a turn keeps the list free of duplicate pairs and
      duplicate identifiers, given a fresh identifier. */
  lemma TurnKeepsUnique(entries: seq<SessionInfo>, userId: Id, groupId: Id, forceNew: bool, freshId: string)
    requires UniquePairs(entries) && UniqueIds(entries) && FreshId(entries, freshId)
    ensures var r := Resolve(entries, userId, groupId, forceNew, freshId);
      var c := CountTurn(r.sessions, r.now);
      UniquePairs(r.sessions) && UniqueIds(r.sessions) &&
      UniquePairs(c.sessions) && UniqueIds(c.sessions)
  {
  }
}
