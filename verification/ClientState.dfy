/**
 * packages/client/src/state.ts: the client's cached snapshots and attachments. The server's snapshots are
 * authoritative and carry revisions; listener notification is not part of this model.
 */
module ClientState {
  import opened Basics

  type SessionId = string
  datatype SessionSnapshot = SessionSnapshot(id: SessionId, revision: nat, attached: bool, content: int)
  datatype ServerSnapshot = ServerSnapshot(revision: nat, content: int)

  /** The results that carry a session stand for create, attach, prompt, steer, abort and the two setters. */
  datatype CommandResult = ListResult | DetachResult(sessionId: SessionId) | SessionResult(session: SessionSnapshot)

  datatype ServerEvent =
    | ServerSnapshotEvent(server: ServerSnapshot)
    | SessionSnapshotEvent(session: SessionSnapshot)
    | SessionProgress(sessionId: SessionId)
    | SessionRemoved(sessionId: SessionId)

  datatype Cache = Cache(
    snapshots: map<SessionId, SessionSnapshot>,
    attached: set<SessionId>,
    server: Option<ServerSnapshot>)

  const EMPTY := Cache(map[], {}, None)

  function ApplySession(c: Cache, s: SessionSnapshot, force: bool): Cache {
    if !force && s.id in c.snapshots && s.revision < c.snapshots[s.id].revision then c
    else c.(snapshots := c.snapshots[s.id := s],
            attached := if s.attached then c.attached + {s.id} else c.attached - {s.id})
  }

  function ApplyServer(c: Cache, s: ServerSnapshot): Cache {
    if c.server.Some? && s.revision < c.server.value.revision then c else c.(server := Some(s))
  }

  function ApplyResult(c: Cache, r: CommandResult): Cache {
    match r
    case ListResult => c
    case SessionResult(session) => ApplySession(c, session, false)
    case DetachResult(id) =>
      var d := c.(attached := c.attached - {id});
      if id in d.snapshots then ApplySession(d, d.snapshots[id].(attached := false), true) else d
  }

  function ApplyEvent(c: Cache, e: ServerEvent): Cache {
    match e
    case ServerSnapshotEvent(server) => ApplyServer(c, server)
    case SessionSnapshotEvent(session) => ApplySession(c, session, false)
    case SessionProgress(_) => c
    case SessionRemoved(id) => c.(snapshots := c.snapshots - {id}, attached := c.attached - {id})
  }

  function Forget(c: Cache, id: SessionId): (Cache, Option<SessionSnapshot>) {
    (c.(snapshots := c.snapshots - {id}), if id in c.snapshots then Some(c.snapshots[id]) else None)
  }

  function Restore(c: Cache, s: SessionSnapshot): Cache {
    if s.id in c.snapshots then c else c.(snapshots := c.snapshots[s.id := s])
  }

  class Store {
    var sessionSnapshots: map<SessionId, SessionSnapshot>
    var attachedSessionIds: set<SessionId>
    var snapshot: Option<ServerSnapshot>

    function Value(): Cache
      reads this
    {
      Cache(sessionSnapshots, attachedSessionIds, snapshot)
    }

    constructor ()
      ensures Value() == EMPTY
    {
      sessionSnapshots, attachedSessionIds, snapshot := map[], {}, None;
    }

    method Reset()
      modifies this
      ensures Value() == EMPTY
    {
      snapshot := None;
      sessionSnapshots := map[];
      attachedSessionIds := {};
    }

    method ClearAttachments()
      modifies this
      ensures Value() == old(Value()).(attached := {})
    {
      attachedSessionIds := {};
    }

    method ForgetSessionSnapshot(id: SessionId) returns (previous: Option<SessionSnapshot>)
      modifies this
      ensures (Value(), previous) == Forget(old(Value()), id)
    {
      previous := if id in sessionSnapshots then Some(sessionSnapshots[id]) else None;
      sessionSnapshots := sessionSnapshots - {id};
    }

    method RestoreSessionSnapshot(s: SessionSnapshot)
      modifies this
      ensures Value() == Restore(old(Value()), s)
    {
      if s.id !in sessionSnapshots {
        sessionSnapshots := sessionSnapshots[s.id := s];
      }
    }

    method ApplySessionSnapshot(s: SessionSnapshot, force: bool)
      modifies this
      ensures Value() == ApplySession(old(Value()), s, force)
    {
      if !force && s.id in sessionSnapshots && s.revision < sessionSnapshots[s.id].revision { return; }
      sessionSnapshots := sessionSnapshots[s.id := s];
      if s.attached {
        attachedSessionIds := attachedSessionIds + {s.id};
      } else {
        attachedSessionIds := attachedSessionIds - {s.id};
      }
    }

    method ApplyServerSnapshot(s: ServerSnapshot)
      modifies this
      ensures Value() == ApplyServer(old(Value()), s)
    {
      if snapshot.Some? && s.revision < snapshot.value.revision { return; }
      snapshot := Some(s);
    }

    method ApplyCommandResult(r: CommandResult)
      modifies this
      ensures Value() == ApplyResult(old(Value()), r)
    {
      if r.ListResult? { return; }
      if r.DetachResult? {
        attachedSessionIds := attachedSessionIds - {r.sessionId};
        if r.sessionId in sessionSnapshots {
          ApplySessionSnapshot(sessionSnapshots[r.sessionId].(attached := false), true);
        }
        return;
      }
      ApplySessionSnapshot(r.session, false);
    }

    method ApplyServerEvent(e: ServerEvent)
      modifies this
      ensures Value() == ApplyEvent(old(Value()), e)
    {
      if e.ServerSnapshotEvent? { ApplyServerSnapshot(e.server); }
      if e.SessionSnapshotEvent? { ApplySessionSnapshot(e.session, false); }
      if e.SessionRemoved? {
        sessionSnapshots := sessionSnapshots - {e.sessionId};
        attachedSessionIds := attachedSessionIds - {e.sessionId};
      }
    }
  }

  // ---------------------------------------------------------------- folding session snapshots

  function Fold(c: Cache, snapshots: seq<SessionSnapshot>): Cache {
    if snapshots == [] then c
    else ApplySession(Fold(c, snapshots[..|snapshots| - 1]), snapshots[|snapshots| - 1], false)
  }

  /** `k` is the last arrival among those of highest revision for this session. */
  ghost predicate LastOfHighest(snapshots: seq<SessionSnapshot>, id: SessionId, k: nat) {
    && k < |snapshots| && snapshots[k].id == id
    && forall j :: 0 <= j < |snapshots| && snapshots[j].id == id ==>
         snapshots[j].revision <= snapshots[k].revision && (j > k ==> snapshots[j].revision < snapshots[k].revision)
  }

  /** What the cache holds for one session after these snapshots; `k` is the one it holds. */
  ghost predicate HoldsLastOfHighest(c: Cache, snapshots: seq<SessionSnapshot>, id: SessionId, k: nat) {
    && (id in c.snapshots <==> exists j :: 0 <= j < |snapshots| && snapshots[j].id == id)
    && (id in c.snapshots ==> LastOfHighest(snapshots, id, k) && c.snapshots[id] == snapshots[k])
    && (id in c.attached <==> id in c.snapshots && c.snapshots[id].attached)
  }

  lemma {:induction false} FoldKeepsLastOfHighest(snapshots: seq<SessionSnapshot>, id: SessionId) returns (k: nat)
    ensures HoldsLastOfHighest(Fold(EMPTY, snapshots), snapshots, id, k)
  {
    k := 0;
    if snapshots != [] {
      var n := |snapshots| - 1;
      k := FoldKeepsLastOfHighest(snapshots[..n], id);
      k := OneMoreSnapshot(Fold(EMPTY, snapshots[..n]), snapshots[..n], snapshots[n], id, k);
      assert snapshots[..n] + [snapshots[n]] == snapshots;
    }
  }

  lemma OneMoreSnapshot(c: Cache, before: seq<SessionSnapshot>, s: SessionSnapshot, id: SessionId, k: nat)
    returns (k': nat)
    requires HoldsLastOfHighest(c, before, id, k)
    ensures HoldsLastOfHighest(ApplySession(c, s, false), before + [s], id, k')
  {
    var snapshots := before + [s];
    k' := if s.id == id && (id !in c.snapshots || s.revision >= c.snapshots[id].revision) then |before| else k;
    assert forall j :: 0 <= j < |before| ==> snapshots[j] == before[j];
    assert snapshots[|before|] == s;
  }

  /** Equal revisions of one session carry equal snapshots. */
  ghost predicate RevisionsDetermine(snapshots: seq<SessionSnapshot>) {
    forall i, j :: 0 <= i < |snapshots| && 0 <= j < |snapshots|
      && snapshots[i].id == snapshots[j].id && snapshots[i].revision == snapshots[j].revision
      ==> snapshots[i] == snapshots[j]
  }

  /** Then the order of arrival does not matter. */
  lemma FoldIsOrderIndependent(one: seq<SessionSnapshot>, two: seq<SessionSnapshot>)
    requires multiset(one) == multiset(two) && RevisionsDetermine(one)
    ensures Fold(EMPTY, one).snapshots == Fold(EMPTY, two).snapshots
    ensures Fold(EMPTY, one).attached == Fold(EMPTY, two).attached
  {
    forall id
      ensures id in Fold(EMPTY, one).snapshots <==> id in Fold(EMPTY, two).snapshots
      ensures id in Fold(EMPTY, one).snapshots ==> Fold(EMPTY, one).snapshots[id] == Fold(EMPTY, two).snapshots[id]
      ensures id in Fold(EMPTY, one).attached <==> id in Fold(EMPTY, two).attached
    {
      var k := FoldKeepsLastOfHighest(one, id);
      var l := FoldKeepsLastOfHighest(two, id);
      SameMembers(one, two);
      if id in Fold(EMPTY, one).snapshots {
        var j := Position(two, one[k]);
        var i := Position(one, two[l]);
        assert one[i].revision == one[k].revision;
      }
      if id in Fold(EMPTY, two).snapshots {
        var i := Position(one, two[l]);
      }
    }
  }

  lemma SameMembers(one: seq<SessionSnapshot>, two: seq<SessionSnapshot>)
    requires multiset(one) == multiset(two)
    ensures forall s :: s in one <==> s in two
  {
    forall s ensures s in one <==> s in two {
      assert s in one <==> s in multiset(one);
      assert s in two <==> s in multiset(two);
    }
  }

  lemma Position(snapshots: seq<SessionSnapshot>, s: SessionSnapshot) returns (i: nat)
    requires s in snapshots
    ensures i < |snapshots| && snapshots[i] == s
  {
    i :| 0 <= i < |snapshots| && snapshots[i] == s;
  }

  /** Command results, detach included, never lose a session or lower its revision. */
  lemma ResultsNeverLowerRevisions(c: Cache, r: CommandResult, id: SessionId)
    requires id in c.snapshots && forall i :: i in c.snapshots ==> c.snapshots[i].id == i
    ensures id in ApplyResult(c, r).snapshots
    ensures c.snapshots[id].revision <= ApplyResult(c, r).snapshots[id].revision
    ensures r == DetachResult(id) ==> id !in ApplyResult(c, r).attached && !ApplyResult(c, r).snapshots[id].attached
  {
  }

  // ---------------------------------------------------------------- runs with attach requests in flight

  /** The cache and, for each `#attachSession` call in flight, the snapshot it has set aside. */
  datatype State = State(cache: Cache, inFlight: map<SessionId, Option<SessionSnapshot>>)

  datatype Action =
    | Result(result: CommandResult)
    | Event(event: ServerEvent)
    | Disconnected                    // clearAttachments
    | Reconnecting                    // reset
    | AttachStarts(id: SessionId)     // forgetSessionSnapshot; at most one call per session is in flight
    | AttachSucceeds(id: SessionId)
    | AttachFails(id: SessionId)      // restoreSessionSnapshot, if something was set aside

  predicate Enabled(s: State, a: Action) {
    match a
    case AttachStarts(id) => id !in s.inFlight
    case AttachSucceeds(id) => id in s.inFlight
    case AttachFails(id) => id in s.inFlight
    case _ => true
  }

  function Step(s: State, a: Action): State
    requires Enabled(s, a)
  {
    match a
    case Result(r) => s.(cache := ApplyResult(s.cache, r))
    case Event(e) => s.(cache := ApplyEvent(s.cache, e))
    case Disconnected => s.(cache := s.cache.(attached := {}))
    case Reconnecting => s.(cache := EMPTY)
    case AttachStarts(id) =>
      var (c, previous) := Forget(s.cache, id);
      State(c, s.inFlight[id := previous])
    case AttachSucceeds(id) => s.(inFlight := s.inFlight - {id})
    case AttachFails(id) =>
      State(match s.inFlight[id] case Some(previous) => Restore(s.cache, previous) case None => s.cache,
            s.inFlight - {id})
  }

  /** An attached session with a stored snapshot is marked attached in it. */
  ghost predicate AttachedConsistently(c: Cache) {
    forall id :: id in c.attached && id in c.snapshots ==> c.snapshots[id].attached
  }

  ghost predicate Inv(s: State) {
    && (forall id :: id in s.cache.snapshots ==> s.cache.snapshots[id].id == id)
    && AttachedConsistently(s.cache)
    && (forall id :: id in s.inFlight && s.inFlight[id].Some? ==>
          && s.inFlight[id].value.id == id
          && (id in s.cache.attached && id !in s.cache.snapshots ==> s.inFlight[id].value.attached))
  }

  lemma StepKeepsInv(s: State, a: Action)
    requires Inv(s) && Enabled(s, a)
    ensures Inv(Step(s, a))
  {
  }

  ghost predicate IsRun(s: State, actions: seq<Action>)
    decreases |actions|
  {
    actions != [] ==> Enabled(s, actions[0]) && IsRun(Step(s, actions[0]), actions[1..])
  }

  ghost function Run(s: State, actions: seq<Action>): State
    requires IsRun(s, actions)
    decreases |actions|
  {
    if actions == [] then s else Run(Step(s, actions[0]), actions[1..])
  }

  lemma {:induction false} RunKeepsInv(s: State, actions: seq<Action>)
    requires Inv(s) && IsRun(s, actions)
    ensures Inv(Run(s, actions))
    decreases |actions|
  {
    if actions != [] {
      StepKeepsInv(s, actions[0]);
      RunKeepsInv(Step(s, actions[0]), actions[1..]);
    }
  }

  lemma AttachmentsStayConsistent(actions: seq<Action>)
    requires IsRun(State(EMPTY, map[]), actions)
    ensures AttachedConsistently(Run(State(EMPTY, map[]), actions).cache)
  {
    RunKeepsInv(State(EMPTY, map[]), actions);
  }

  /**
   * The single-flight rule of AttachStarts is needed: two overlapping attach calls for one session can
   * restore an unattached snapshot under an attached id.
   */
  lemma OverlappingAttachesBreakIt(id: SessionId)
    ensures var detached, live := SessionSnapshot(id, 1, false, 0), SessionSnapshot(id, 2, true, 0);
      var (first, previous) := Forget(ApplySession(EMPTY, detached, false), id);
      var (second, _) := Forget(ApplySession(first, live, false), id);
      previous == Some(detached) && !AttachedConsistently(Restore(second, detached))
  {
    var detached, live := SessionSnapshot(id, 1, false, 0), SessionSnapshot(id, 2, true, 0);
    var (first, previous) := Forget(ApplySession(EMPTY, detached, false), id);
    var (second, _) := Forget(ApplySession(first, live, false), id);
    var c := Restore(second, detached);
    assert id in c.attached && c.snapshots[id] == detached;
  }

  // ---------------------------------------------------------------- what each result and event does

  /** The session snapshot that a result or an event brings, if any. */
  function Brought(a: Action): Option<SessionSnapshot> {
    match a
    case Result(SessionResult(session)) => Some(session)
    case Event(SessionSnapshotEvent(session)) => Some(session)
    case _ => None
  }

  /** The session that a result or an event takes away from: it is detached, or removed. */
  function Ended(a: Action): Option<SessionId> {
    match a
    case Result(DetachResult(id)) => Some(id)
    case Event(SessionRemoved(id)) => Some(id)
    case _ => None
  }

  /** What is stored and attached for one session does not change. */
  ghost predicate SameSession(c: Cache, d: Cache, id: SessionId) {
    && (id in c.attached <==> id in d.attached) && (id in c.snapshots <==> id in d.snapshots)
    && (id in c.snapshots ==> c.snapshots[id] == d.snapshots[id])
  }

  /**
   * A snapshot that a result or an event brings is stored, and decides whether its session is attached, if and only
   * if none of a higher revision is stored. A detached session is neither attached nor marked so, and keeps its
   * revision; a removed one is forgotten. Every other session stays as it is.
   */
  lemma UpdatesExactly(s: State, a: Action, id: SessionId)
    requires (a.Result? || a.Event?) && forall i :: i in s.cache.snapshots ==> s.cache.snapshots[i].id == i
    ensures var c, d := s.cache, Step(s, a).cache;
      && (Brought(a).Some? && Brought(a).value.id == id ==>
            if id in c.snapshots && Brought(a).value.revision < c.snapshots[id].revision then SameSession(c, d, id)
            else id in d.snapshots && d.snapshots[id] == Brought(a).value
                 && (id in d.attached <==> Brought(a).value.attached))
      && (a == Result(DetachResult(id)) ==>
            && id !in d.attached && (id in d.snapshots <==> id in c.snapshots)
            && (id in c.snapshots ==> d.snapshots[id] == c.snapshots[id].(attached := false)))
      && (a == Event(SessionRemoved(id)) ==> id !in d.attached && id !in d.snapshots)
      && (Ended(a) != Some(id) && (Brought(a).Some? ==> Brought(a).value.id != id) ==> SameSession(c, d, id))
  {
  }

  /** The server snapshot that an action brings is stored exactly if none of a higher revision is. */
  lemma ServerUpdatesExactly(s: State, a: Action)
    requires (a.Result? || a.Event?)
    ensures Step(s, a).cache.server ==
      if a.Event? && a.event.ServerSnapshotEvent?
         && (s.cache.server.Some? ==> s.cache.server.value.revision <= a.event.server.revision)
      then Some(a.event.server) else s.cache.server
  {
  }

  /** A lost connection detaches every session and keeps what is stored; a new one starts from nothing. */
  lemma ConnectionChangesExactly(s: State)
    ensures var c := Step(s, Disconnected).cache;
      c.attached == {} && c.snapshots == s.cache.snapshots && c.server == s.cache.server
    ensures var c := Step(s, Reconnecting).cache; c.attached == {} && c.snapshots == map[] && c.server == None
    ensures Step(s, Disconnected).inFlight == Step(s, Reconnecting).inFlight == s.inFlight
  {
  }

  /** The snapshots of one session that a list of actions brings, in order. */
  function AllBrought(actions: seq<Action>, id: SessionId): seq<SessionSnapshot> {
    if actions == [] then []
    else
      var b := Brought(actions[|actions| - 1]);
      AllBrought(actions[..|actions| - 1], id) + if b.Some? && b.value.id == id then [b.value] else []
  }

  lemma {:induction false} BroughtAreOfSession(actions: seq<Action>, id: SessionId)
    ensures forall j :: 0 <= j < |AllBrought(actions, id)| ==> AllBrought(actions, id)[j].id == id
  {
    if actions != [] { BroughtAreOfSession(actions[..|actions| - 1], id); }
  }

  /** These actions only bring snapshots, or are about other sessions. */
  ghost predicate OnlyUpdates(actions: seq<Action>, id: SessionId) {
    forall j :: 0 <= j < |actions| ==> (actions[j].Result? || actions[j].Event?) && Ended(actions[j]) != Some(id)
  }

  function After(s: State, actions: seq<Action>): State {
    if actions == [] then s
    else
      var t := After(s, actions[..|actions| - 1]);
      if Enabled(t, actions[|actions| - 1]) then Step(t, actions[|actions| - 1]) else t
  }

  /**
   * Whatever results and events arrive, in any order and about any sessions, what is held for a session that they do
   * not end is the last to arrive of those of highest revision among the snapshots they bring for it.
   */
  lemma {:induction false} UpdatesKeepLastOfHighest(actions: seq<Action>, id: SessionId) returns (k: nat)
    requires OnlyUpdates(actions, id)
    ensures HoldsLastOfHighest(After(State(EMPTY, map[]), actions).cache, AllBrought(actions, id), id, k)
    ensures Inv(After(State(EMPTY, map[]), actions))
  {
    k := 0;
    if actions != [] {
      var before, a := actions[..|actions| - 1], actions[|actions| - 1];
      var s := After(State(EMPTY, map[]), before);
      k := UpdatesKeepLastOfHighest(before, id);
      StepKeepsInv(s, a);
      UpdatesExactly(s, a, id);
      k := OneMoreUpdate(s, a, AllBrought(before, id), id, k);
    }
  }

  lemma OneMoreUpdate(s: State, a: Action, snapshots: seq<SessionSnapshot>, id: SessionId, k: nat) returns (k': nat)
    requires Inv(s) && (a.Result? || a.Event?) && Ended(a) != Some(id)
    requires HoldsLastOfHighest(s.cache, snapshots, id, k)
    ensures var b := Brought(a);
      HoldsLastOfHighest(Step(s, a).cache, snapshots + if b.Some? && b.value.id == id then [b.value] else [], id, k')
  {
    UpdatesExactly(s, a, id);
    if Brought(a).Some? && Brought(a).value.id == id {
      k' := OneMoreSnapshot(s.cache, snapshots, Brought(a).value, id, k);
    } else {
      k' := k;
      assert snapshots + [] == snapshots;
    }
  }

  /** An attach that fails leaves the snapshot as it was, when none has been brought meanwhile. */
  lemma FailedAttachRestores(s: State, actions: seq<Action>, id: SessionId)
    requires Inv(s) && id !in s.inFlight && OnlyUpdates(actions, id) && AllBrought(actions, id) == []
    ensures var u := After(Step(s, AttachStarts(id)), actions);
      && Enabled(u, AttachFails(id)) && id !in u.cache.snapshots
      && SameSession(s.cache, Step(u, AttachFails(id)).cache, id) && id !in Step(u, AttachFails(id)).inFlight
  {
    StepKeepsInv(s, AttachStarts(id));
    NothingIsBrought(Step(s, AttachStarts(id)), actions, id);
  }

  lemma {:induction false} NothingIsBrought(s: State, actions: seq<Action>, id: SessionId)
    requires Inv(s) && OnlyUpdates(actions, id) && AllBrought(actions, id) == []
    ensures After(s, actions).inFlight == s.inFlight && SameSession(s.cache, After(s, actions).cache, id)
    ensures Inv(After(s, actions))
  {
    if actions != [] {
      var before, a := actions[..|actions| - 1], actions[|actions| - 1];
      NothingIsBrought(s, before, id);
      StepKeepsInv(After(s, before), a);
      UpdatesExactly(After(s, before), a, id);
    }
  }
}
