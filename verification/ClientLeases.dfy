/**
 * packages/client/src/client.ts: session leases. Tokens are counted per session; an invalidation (the
 * session is removed, or the client disconnects) starts a new generation. Acquiring and releasing suspend
 * at awaits, and each event of the machine below is one stretch of code between two of them.
 */
module ClientLeases {
  import opened Basics

  datatype Mode = Shared | Exclusive

  // ---------------------------------------------------------------- the lease maps

  /** One session's entries in the four lease maps; a token is named by its number. */
  datatype Slots = Slots(count: Option<nat>, exclusive: Option<nat>, generation: nat, cleanupRequired: bool)

  const EMPTY := Slots(None, None, 0, false)

  function CountOf(s: Slots): nat { if s.count.Some? then s.count.value else 0 }

  /** `#reserveSessionLease`; nothing when it throws the ownership error. */
  function Reserved(s: Slots, mode: Mode, token: nat): Option<Slots> {
    if mode == Exclusive && CountOf(s) > 0 then None
    else if mode == Shared && s.exclusive.Some? then None
    else Some(s.(count := Some(CountOf(s) + 1), exclusive := if mode == Exclusive then Some(token) else s.exclusive))
  }

  /** `#releaseSessionLease`, which looks neither at the generation nor at whether the token is counted. */
  function Dropped(s: Slots, token: nat): Slots {
    s.(count := if CountOf(s) <= 1 then None else Some(CountOf(s) - 1),
       exclusive := if s.exclusive == Some(token) then None else s.exclusive)
  }

  /** `#invalidateSessionLeases` */
  function Invalidated(s: Slots): Slots {
    Slots(None, None, s.generation + 1, false)
  }

  /** `#invalidateAllSessionLeases` for one session: only sessions with a count are invalidated. */
  function InvalidatedWithAll(s: Slots): Slots {
    if s.count.Some? then Invalidated(s) else s.(cleanupRequired := false)
  }

  class LeaseMaps {
    var sessionLeaseCounts: map<string, nat>
    var exclusiveSessionLeases: map<string, nat>
    var sessionLeaseGenerations: map<string, nat>
    var sessionCleanupRequired: set<string>

    function SlotsOf(id: string): Slots
      reads this
    {
      Slots(if id in sessionLeaseCounts then Some(sessionLeaseCounts[id]) else None,
            if id in exclusiveSessionLeases then Some(exclusiveSessionLeases[id]) else None,
            if id in sessionLeaseGenerations then sessionLeaseGenerations[id] else 0,
            id in sessionCleanupRequired)
    }

    constructor ()
      ensures forall id :: SlotsOf(id) == EMPTY
    {
      sessionLeaseCounts, exclusiveSessionLeases, sessionLeaseGenerations := map[], map[], map[];
      sessionCleanupRequired := {};
    }

    method ReserveSessionLease(id: string, mode: Mode, token: nat) returns (reserved: bool)
      modifies this
      ensures var r := Reserved(old(SlotsOf(id)), mode, token);
        reserved == r.Some? && SlotsOf(id) == if r.Some? then r.value else old(SlotsOf(id))
      ensures forall other :: other != id ==> SlotsOf(other) == old(SlotsOf(other))
    {
      var count := if id in sessionLeaseCounts then sessionLeaseCounts[id] else 0;
      if mode == Exclusive && count > 0 { return false; }
      if mode == Shared && id in exclusiveSessionLeases { return false; }
      sessionLeaseCounts := sessionLeaseCounts[id := count + 1];
      if mode == Exclusive {
        exclusiveSessionLeases := exclusiveSessionLeases[id := token];
      }
      return true;
    }

    method ReleaseSessionLease(id: string, token: nat)
      modifies this
      ensures SlotsOf(id) == Dropped(old(SlotsOf(id)), token)
      ensures forall other :: other != id ==> SlotsOf(other) == old(SlotsOf(other))
    {
      var count := if id in sessionLeaseCounts then sessionLeaseCounts[id] else 0;
      if count <= 1 {
        sessionLeaseCounts := sessionLeaseCounts - {id};
      } else {
        sessionLeaseCounts := sessionLeaseCounts[id := count - 1];
      }
      if id in exclusiveSessionLeases && exclusiveSessionLeases[id] == token {
        exclusiveSessionLeases := exclusiveSessionLeases - {id};
      }
    }

    method InvalidateSessionLeases(id: string)
      modifies this
      ensures SlotsOf(id) == Invalidated(old(SlotsOf(id)))
      ensures sessionLeaseCounts.Keys == old(sessionLeaseCounts.Keys) - {id}
      ensures forall other :: other != id ==> SlotsOf(other) == old(SlotsOf(other))
    {
      sessionLeaseCounts := sessionLeaseCounts - {id};
      exclusiveSessionLeases := exclusiveSessionLeases - {id};
      sessionCleanupRequired := sessionCleanupRequired - {id};
      var generation := if id in sessionLeaseGenerations then sessionLeaseGenerations[id] else 0;
      sessionLeaseGenerations := sessionLeaseGenerations[id := generation + 1];
    }

    method InvalidateAllSessionLeases()
      modifies this
      ensures forall id :: SlotsOf(id) == InvalidatedWithAll(old(SlotsOf(id)))
    {
      ghost var counted := sessionLeaseCounts.Keys;
      var left := sessionLeaseCounts.Keys;
      while left != {}
        invariant left <= counted && sessionLeaseCounts.Keys == left
        invariant forall id ::
          SlotsOf(id) == if id in counted - left then Invalidated(old(SlotsOf(id))) else old(SlotsOf(id))
        decreases |left|
      {
        var id :| id in left;
        left := left - {id};
        InvalidateSessionLeases(id);
      }
      ghost var after := map id | id in counted :: SlotsOf(id);
      sessionCleanupRequired := {};
    }
  }

  // ---------------------------------------------------------------- one session's leases over time

  /** `epoch` is the generation in which the token was reserved; the program does not record it. */
  datatype Token = Token(mode: Mode, epoch: nat, released: bool)

  datatype Promise = Unsettled | Fulfilled | Rejected

  /** Where one call of acquireSession stands. */
  datatype AcquirePc =
    | AwaitDetachment(detach: nat)
    | AwaitReconciliation(reconciliation: nat)
    | AwaitAttachment(attach: nat)
    | Acquired
    | AcquireFailed

  datatype Acquire = Acquire(token: nat, pc: AcquirePc)

  datatype LeaseState = Active | Releasing | Released | Gone

  /** Where the release of a handle stands: Catching is between the failed await and the catch callback. */
  datatype ReleasePc = Idle | AwaitDetach(detach: nat, relinquish: bool) | Catching(relinquish: bool)

  datatype Handle = Handle(token: nat, generation: nat, state: LeaseState, pc: ReleasePc)

  datatype ReconcileStage = Requesting | Cleaned | Finished

  datatype Reconcile = Reconcile(request: Promise, stage: ReconcileStage)

  datatype State = State(
    connected: bool,
    attached: bool,                     // ClientState.isSessionAttached
    slots: Slots,
    detachment: Option<nat>,            // #sessionDetachments
    attachment: Option<nat>,            // #sessionAttachments
    reconciliation: Option<nat>,        // #sessionReconciliations
    tokens: seq<Token>,
    acquires: seq<Acquire>,
    handles: seq<Handle>,
    detaches: seq<Promise>,             // detach requests of releasing handles
    attaches: seq<Promise>,
    reconciles: seq<Reconcile>)

  const INITIAL := State(false, false, EMPTY, None, None, None, [], [], [], [], [], [])

  datatype Event =
    | AcquireStarts(mode: Mode)
    | AcquireResumes(call: nat)
    | CreateFinishes                                  // createSession, after its response
    | ReleaseStarts(handle: nat, relinquish: bool)    // detach() and dispose()
    | ReleaseResumes(handle: nat)
    | ReleaseCatches(handle: nat)
    | DetachSettles(detach: nat, ok: bool)
    | AttachSettles(attach: nat, ok: bool, attached: bool)
    | ReconcileRequestSettles(reconciliation: nat, ok: bool)
    | ReconcileCleans(reconciliation: nat)            // the then callback, or its being skipped
    | ReconcileFinishes(reconciliation: nat)          // the finally callback
    | SessionRemoved
    | AttachmentChanges(attached: bool)               // an authoritative snapshot arrives
    | Connect
    | Disconnect

  function Answer(connected: bool): Promise { if connected then Unsettled else Rejected }

  function SetPc(s: State, k: nat, pc: AcquirePc): State
    requires k < |s.acquires|
  {
    s.(acquires := s.acquires[k := s.acquires[k].(pc := pc)])
  }

  function Release(s: State, token: nat): State
    requires token < |s.tokens|
  {
    s.(slots := Dropped(s.slots, token), tokens := s.tokens[token := s.tokens[token].(released := true)])
  }

  /** `#createSessionLease`: the handle takes the generation of now, not of its token. */
  function MakeHandle(s: State, token: nat): State {
    s.(handles := s.handles + [Handle(token, s.slots.generation, Active, Idle)])
  }

  function FinishAcquire(s: State, k: nat): State
    requires k < |s.acquires|
  {
    SetPc(MakeHandle(s, s.acquires[k].token), k, Acquired)
  }

  function FailAcquire(s: State, k: nat): State
    requires k < |s.acquires| && s.acquires[k].token < |s.tokens|
  {
    SetPc(Release(s, s.acquires[k].token), k, AcquireFailed)
  }

  function AfterReconcile(s: State, k: nat, reconciled: bool): State
    requires k < |s.acquires|
  {
    if reconciled || !s.attached then
      if s.attachment.Some? then SetPc(s, k, AwaitAttachment(s.attachment.value))
      else
        var a := |s.attaches|;
        SetPc(s.(attaches := s.attaches + [Answer(s.connected)], attachment := Some(a)), k, AwaitAttachment(a))
    else FinishAcquire(s, k)
  }

  function AfterDetachment(s: State, k: nat): State
    requires k < |s.acquires|
  {
    if s.slots.cleanupRequired then
      if s.reconciliation.Some? then SetPc(s, k, AwaitReconciliation(s.reconciliation.value))
      else
        var r := |s.reconciles|;
        SetPc(s.(reconciles := s.reconciles + [Reconcile(Answer(s.connected), Requesting)], reconciliation := Some(r)),
              k, AwaitReconciliation(r))
    else AfterReconcile(s, k, false)
  }

  function ReserveToken(s: State, mode: Mode): Option<State> {
    match Reserved(s.slots, mode, |s.tokens|)
    case None => None
    case Some(slots) => Some(s.(slots := slots, tokens := s.tokens + [Token(mode, s.slots.generation, false)]))
  }

  function StartAcquire(s: State, mode: Mode): State {
    match ReserveToken(s, mode)
    case None => s
    case Some(t) =>
      // with no detachment to await, the call runs on and leaves its first await behind at once
      var u := t.(acquires := t.acquires + [Acquire(|s.tokens|, AwaitDetachment(s.detachment.GetOr(0)))]);
      if s.detachment.Some? then u else AfterDetachment(u, |s.acquires|)
  }

  function ResumeAcquire(s: State, k: nat): State
    requires Enabled(s, AcquireResumes(k)) && s.acquires[k].token < |s.tokens|
  {
    match s.acquires[k].pc
    case AwaitDetachment(_) => AfterDetachment(s, k)
    case AwaitReconciliation(r) =>
      if s.reconciles[r].request == Fulfilled then AfterReconcile(s, k, true) else FailAcquire(s, k)
    case AwaitAttachment(a) =>
      var t := if s.attachment == Some(a) then s.(attachment := None) else s;
      if s.attaches[a] == Fulfilled then FinishAcquire(t, k) else FailAcquire(t, k)
  }

  function SetHandle(s: State, h: nat, handle: Handle): State
    requires h < |s.handles|
  {
    s.(handles := s.handles[h := handle])
  }

  /** `refreshState` */
  function Refreshed(s: State, handle: Handle): Handle {
    if (handle.state == Active || handle.state == Releasing) && s.slots.generation != handle.generation
    then handle.(state := Gone) else handle
  }

  predicate IsActive(s: State, handle: Handle) {
    Refreshed(s, handle).state == Active && s.attached
  }

  function StartRelease(s: State, h: nat, relinquish: bool): State
    requires h < |s.handles| && s.handles[h].token < |s.tokens|
  {
    var handle := Refreshed(s, s.handles[h]);
    if handle.state != Active || !s.connected || !s.attached then SetHandle(s, h, handle)
    else if CountOf(s.slots) <= 1 then
      var d := |s.detaches|;
      SetHandle(s.(detaches := s.detaches + [Unsettled], detachment := Some(d)), h,
                handle.(state := Releasing, pc := AwaitDetach(d, relinquish)))
    else
      SetHandle(Release(s, handle.token), h, handle.(state := Released))
  }

  function ResumeRelease(s: State, h: nat): State
    requires Enabled(s, ReleaseResumes(h)) && s.handles[h].token < |s.tokens|
  {
    var handle := s.handles[h];
    var d := handle.pc.detach;
    var t := if s.detachment == Some(d) then s.(detachment := None) else s;
    if s.detaches[d] == Fulfilled then
      SetHandle(Release(t, handle.token), h, handle.(state := Released, pc := Idle))
    else
      SetHandle(t, h, handle.(pc := Catching(handle.pc.relinquish)))
  }

  function CatchRelease(s: State, h: nat): State
    requires Enabled(s, ReleaseCatches(h)) && s.handles[h].token < |s.tokens|
  {
    var handle := Refreshed(s, s.handles[h]).(pc := Idle);
    if handle.state == Gone then SetHandle(s, h, handle)
    else if s.handles[h].pc.relinquish then
      var t := Release(s, handle.token);
      SetHandle(t.(slots := t.slots.(cleanupRequired := true)), h, handle.(state := Released))
    else
      SetHandle(s, h, handle.(state := Active))
  }

  predicate Enabled(s: State, e: Event) {
    match e
    case AcquireResumes(k) => k < |s.acquires| && (
      match s.acquires[k].pc
      case AwaitDetachment(d) => d < |s.detaches| && s.detaches[d] != Unsettled
      case AwaitReconciliation(r) => r < |s.reconciles| && s.reconciles[r].stage == Finished
      case AwaitAttachment(a) => a < |s.attaches| && s.attaches[a] != Unsettled
      case _ => false)
    case ReleaseStarts(h, _) => h < |s.handles|
    case ReleaseResumes(h) =>
      && h < |s.handles| && s.handles[h].pc.AwaitDetach?
      && s.handles[h].pc.detach < |s.detaches| && s.detaches[s.handles[h].pc.detach] != Unsettled
    case ReleaseCatches(h) => h < |s.handles| && s.handles[h].pc.Catching?
    case DetachSettles(d, _) => d < |s.detaches| && s.detaches[d] == Unsettled
    case AttachSettles(a, _, _) => a < |s.attaches| && s.attaches[a] == Unsettled
    case ReconcileRequestSettles(r, _) => r < |s.reconciles| && s.reconciles[r].request == Unsettled
    case ReconcileCleans(r) =>
      r < |s.reconciles| && s.reconciles[r].request != Unsettled && s.reconciles[r].stage == Requesting
    case ReconcileFinishes(r) => r < |s.reconciles| && s.reconciles[r].stage == Cleaned
    case _ => true
  }

  /** Every token that a call or handle can still release exists. */
  predicate TokensExist(s: State) {
    && (forall k :: 0 <= k < |s.acquires| ==> s.acquires[k].token < |s.tokens|)
    && (forall h :: 0 <= h < |s.handles| ==> s.handles[h].token < |s.tokens|)
  }

  function RejectAll(ps: seq<Promise>): (r: seq<Promise>)
    ensures |r| == |ps| && forall i :: 0 <= i < |r| ==> r[i] == if ps[i] == Unsettled then Rejected else ps[i]
  {
    seq(|ps|, i requires 0 <= i < |ps| => if ps[i] == Unsettled then Rejected else ps[i])
  }

  function RejectReconciles(rs: seq<Reconcile>): (r: seq<Reconcile>)
    ensures |r| == |rs|
    ensures forall i :: 0 <= i < |r| ==>
      r[i] == if rs[i].request == Unsettled then rs[i].(request := Rejected) else rs[i]
  {
    seq(|rs|, i requires 0 <= i < |rs| => if rs[i].request == Unsettled then rs[i].(request := Rejected) else rs[i])
  }

  function Outcome(ok: bool): Promise { if ok then Fulfilled else Rejected }

  function Step(s: State, e: Event): State
    requires TokensExist(s) && Enabled(s, e)
  {
    match e
    case AcquireStarts(mode) => StartAcquire(s, mode)
    case AcquireResumes(k) => ResumeAcquire(s, k)
    case CreateFinishes =>
      (match ReserveToken(s, Exclusive)
       case None => s
       case Some(t) => MakeHandle(t, |s.tokens|))
    case ReleaseStarts(h, relinquish) => StartRelease(s, h, relinquish)
    case ReleaseResumes(h) => ResumeRelease(s, h)
    case ReleaseCatches(h) => CatchRelease(s, h)
    case DetachSettles(d, ok) =>
      s.(detaches := s.detaches[d := Outcome(ok)], attached := s.attached && !ok)
    case AttachSettles(a, ok, attached) =>
      s.(attaches := s.attaches[a := Outcome(ok)], attached := if ok then attached else s.attached)
    case ReconcileRequestSettles(r, ok) =>
      s.(reconciles := s.reconciles[r := s.reconciles[r].(request := Outcome(ok))], attached := s.attached && !ok)
    case ReconcileCleans(r) =>
      s.(reconciles := s.reconciles[r := s.reconciles[r].(stage := Cleaned)],
         slots := if s.reconciles[r].request == Fulfilled then s.slots.(cleanupRequired := false) else s.slots)
    case ReconcileFinishes(r) =>
      s.(reconciles := s.reconciles[r := s.reconciles[r].(stage := Finished)], reconciliation := None)
    case SessionRemoved => s.(slots := Invalidated(s.slots), attached := false)
    case AttachmentChanges(attached) => s.(attached := attached)
    case Connect => s.(connected := true, attached := false)
    case Disconnect =>
      s.(connected := false, attached := false, slots := InvalidatedWithAll(s.slots),
         detaches := RejectAll(s.detaches), attaches := RejectAll(s.attaches),
         reconciles := RejectReconciles(s.reconciles))
  }

  // ---------------------------------------------------------------- who may still release a token

  predicate IsOpen(a: Acquire) { !a.pc.Acquired? && !a.pc.AcquireFailed? }

  /** The handle may still release its token. */
  predicate Owes(handle: Handle) { handle.state == Active || handle.pc != Idle }

  ghost predicate HandleValid(s: State, handle: Handle) {
    && handle.token < |s.tokens|
    && (Owes(handle) ==> !s.tokens[handle.token].released)
    && (handle.state == Active ==> handle.pc == Idle)
    && (handle.state == Releasing ==> handle.pc != Idle)
    && (handle.pc != Idle ==> handle.state == Releasing || handle.state == Gone)
    && handle.generation <= s.slots.generation
  }

  /** Each unreleased token has one holder that may release it: an open call, or one handle. */
  ghost predicate HoldersValid(s: State) {
    && TokensExist(s)
    && (forall t :: 0 <= t < |s.tokens| ==> s.tokens[t].epoch <= s.slots.generation)
    && (forall k :: 0 <= k < |s.acquires| && IsOpen(s.acquires[k]) ==> !s.tokens[s.acquires[k].token].released)
    && (forall h :: 0 <= h < |s.handles| ==> HandleValid(s, s.handles[h]))
    && (forall j, k :: 0 <= j < k < |s.acquires| ==> s.acquires[j].token != s.acquires[k].token)
    && (forall g, h :: 0 <= g < h < |s.handles| ==> s.handles[g].token != s.handles[h].token)
    && (forall k, h :: 0 <= k < |s.acquires| && 0 <= h < |s.handles| && IsOpen(s.acquires[k]) ==>
          s.acquires[k].token != s.handles[h].token)
  }

  /** The token that an event releases, if any. */
  function ReleasedBy(s: State, e: Event): Option<nat>
    requires TokensExist(s) && Enabled(s, e)
  {
    match e
    case AcquireResumes(k) =>
      if (s.acquires[k].pc.AwaitReconciliation? && s.reconciles[s.acquires[k].pc.reconciliation].request != Fulfilled)
         || (s.acquires[k].pc.AwaitAttachment? && s.attaches[s.acquires[k].pc.attach] != Fulfilled)
      then Some(s.acquires[k].token) else None
    case ReleaseStarts(h, _) =>
      if IsActive(s, s.handles[h]) && s.connected && CountOf(s.slots) > 1 then Some(s.handles[h].token) else None
    case ReleaseResumes(h) =>
      if s.detaches[s.handles[h].pc.detach] == Fulfilled then Some(s.handles[h].token) else None
    case ReleaseCatches(h) =>
      if Refreshed(s, s.handles[h]).state != Gone && s.handles[h].pc.relinquish then Some(s.handles[h].token) else None
    case _ => None
  }

  lemma SetPcKeepsHolders(s: State, k: nat, pc: AcquirePc)
    requires HoldersValid(s) && k < |s.acquires| && IsOpen(s.acquires[k])
    ensures HoldersValid(SetPc(s, k, pc))
  {
    var t := SetPc(s, k, pc);
    forall h | 0 <= h < |t.handles| ensures HandleValid(t, t.handles[h]) { assert HandleValid(s, s.handles[h]); }
  }

  lemma FinishKeepsHolders(s: State, k: nat)
    requires HoldersValid(s) && k < |s.acquires| && IsOpen(s.acquires[k])
    ensures HoldersValid(FinishAcquire(s, k))
  {
    var t := FinishAcquire(s, k);
    forall h | 0 <= h < |t.handles| ensures HandleValid(t, t.handles[h]) {
      if h < |s.handles| { assert HandleValid(s, s.handles[h]); }
    }
  }

  lemma FailKeepsHolders(s: State, k: nat)
    requires HoldersValid(s) && k < |s.acquires| && IsOpen(s.acquires[k])
    ensures HoldersValid(FailAcquire(s, k))
  {
    var t := FailAcquire(s, k);
    forall h | 0 <= h < |t.handles| ensures HandleValid(t, t.handles[h]) { assert HandleValid(s, s.handles[h]); }
  }

  /** Changes outside the tokens, calls and handles. */
  lemma SameHolders(s: State, t: State)
    requires HoldersValid(s) && t.tokens == s.tokens && t.acquires == s.acquires && t.handles == s.handles
    requires t.slots.generation >= s.slots.generation
    ensures HoldersValid(t)
  {
    forall h | 0 <= h < |t.handles| ensures HandleValid(t, t.handles[h]) { assert HandleValid(s, s.handles[h]); }
  }

  lemma AfterReconcileKeepsHolders(s: State, k: nat, reconciled: bool)
    requires HoldersValid(s) && k < |s.acquires| && IsOpen(s.acquires[k])
    ensures HoldersValid(AfterReconcile(s, k, reconciled))
  {
    if reconciled || !s.attached {
      var t := s.(attaches := s.attaches + [Answer(s.connected)], attachment := Some(|s.attaches|));
      SameHolders(s, t);
      if s.attachment.Some? { SetPcKeepsHolders(s, k, AwaitAttachment(s.attachment.value)); }
      else { SetPcKeepsHolders(t, k, AwaitAttachment(|s.attaches|)); }
    } else {
      FinishKeepsHolders(s, k);
    }
  }

  lemma AfterDetachmentKeepsHolders(s: State, k: nat)
    requires HoldersValid(s) && k < |s.acquires| && IsOpen(s.acquires[k])
    ensures HoldersValid(AfterDetachment(s, k))
  {
    if s.slots.cleanupRequired {
      var r := |s.reconciles|;
      var t := s.(reconciles := s.reconciles + [Reconcile(Answer(s.connected), Requesting)], reconciliation := Some(r));
      SameHolders(s, t);
      if s.reconciliation.Some? { SetPcKeepsHolders(s, k, AwaitReconciliation(s.reconciliation.value)); }
      else { SetPcKeepsHolders(t, k, AwaitReconciliation(r)); }
    } else {
      AfterReconcileKeepsHolders(s, k, false);
    }
  }

  lemma ReserveKeepsHolders(s: State, mode: Mode)
    requires HoldersValid(s) && ReserveToken(s, mode).Some?
    ensures var t := ReserveToken(s, mode).value;
      && HoldersValid(t) && t.acquires == s.acquires && t.handles == s.handles
      && |t.tokens| == |s.tokens| + 1 && t.tokens[|s.tokens|] == Token(mode, s.slots.generation, false)
      && t.slots.generation == s.slots.generation
  {
    var t := ReserveToken(s, mode).value;
    forall h | 0 <= h < |t.handles| ensures HandleValid(t, t.handles[h]) { assert HandleValid(s, s.handles[h]); }
  }

  lemma StartAcquireKeepsHolders(s: State, mode: Mode)
    requires HoldersValid(s)
    ensures HoldersValid(StartAcquire(s, mode))
  {
    if ReserveToken(s, mode).Some? {
      ReserveKeepsHolders(s, mode);
      var t := ReserveToken(s, mode).value;
      forall h | 0 <= h < |s.handles| ensures s.handles[h].token < |s.tokens| { assert HandleValid(s, s.handles[h]); }
      AddCallKeepsHolders(t, |s.tokens|, s.detachment.GetOr(0));
      if s.detachment.None? {
        var u := t.(acquires := t.acquires + [Acquire(|s.tokens|, AwaitDetachment(0))]);
        AfterDetachmentKeepsHolders(u, |s.acquires|);
      }
    }
  }

  lemma AddCallKeepsHolders(t: State, token: nat, d: nat)
    requires HoldersValid(t) && token < |t.tokens| && !t.tokens[token].released
    requires forall k :: 0 <= k < |t.acquires| ==> t.acquires[k].token != token
    requires forall h :: 0 <= h < |t.handles| ==> t.handles[h].token != token
    ensures HoldersValid(t.(acquires := t.acquires + [Acquire(token, AwaitDetachment(d))]))
  {
    var u := t.(acquires := t.acquires + [Acquire(token, AwaitDetachment(d))]);
    forall h | 0 <= h < |u.handles| ensures HandleValid(u, u.handles[h]) { assert HandleValid(t, t.handles[h]); }
  }

  lemma ReleaseHandleKeepsHolders(s: State, h: nat, handle: Handle)
    requires HoldersValid(s) && h < |s.handles| && Owes(s.handles[h])
    requires handle == s.handles[h].(state := Released, pc := Idle)
    ensures HoldersValid(SetHandle(Release(s, s.handles[h].token), h, handle))
  {
    var t := SetHandle(Release(s, s.handles[h].token), h, handle);
    forall g | 0 <= g < |t.handles| ensures HandleValid(t, t.handles[g]) { assert HandleValid(s, s.handles[g]); }
  }

  lemma SetHandleKeepsHolders(s: State, h: nat, handle: Handle)
    requires HoldersValid(s) && h < |s.handles| && handle.token == s.handles[h].token && HandleValid(s, handle)
    ensures HoldersValid(SetHandle(s, h, handle))
  {
    var t := SetHandle(s, h, handle);
    forall g | 0 <= g < |t.handles| ensures HandleValid(t, t.handles[g]) { assert HandleValid(s, s.handles[g]); }
  }

  lemma ReleaseKeepsHolders(s: State, e: Event)
    requires HoldersValid(s) && Enabled(s, e) && (e.ReleaseStarts? || e.ReleaseResumes? || e.ReleaseCatches?)
    ensures HoldersValid(Step(s, e))
  {
    var h := e.handle;
    var handle := s.handles[h];
    assert HandleValid(s, handle);
    match e {
      case ReleaseStarts(_, relinquish) =>
        if Refreshed(s, handle).state != Active || !s.connected || !s.attached {
          SetHandleKeepsHolders(s, h, Refreshed(s, handle));
        } else if CountOf(s.slots) <= 1 {
          var d := |s.detaches|;
          var t := s.(detaches := s.detaches + [Unsettled], detachment := Some(d));
          SameHolders(s, t);
          SetHandleKeepsHolders(t, h, handle.(state := Releasing, pc := AwaitDetach(d, relinquish)));
        } else {
          ReleaseHandleKeepsHolders(s, h, handle.(state := Released, pc := Idle));
        }
      case ReleaseResumes(_) =>
        var t := if s.detachment == Some(handle.pc.detach) then s.(detachment := None) else s;
        SameHolders(s, t);
        if s.detaches[handle.pc.detach] == Fulfilled {
          ReleaseHandleKeepsHolders(t, h, handle.(state := Released, pc := Idle));
        } else {
          SetHandleKeepsHolders(t, h, handle.(pc := Catching(handle.pc.relinquish)));
        }
      case ReleaseCatches(_) =>
        var after := Refreshed(s, handle).(pc := Idle);
        if after.state == Gone {
          SetHandleKeepsHolders(s, h, after);
        } else if handle.pc.relinquish {
          ReleaseHandleKeepsHolders(s, h, handle.(state := Released, pc := Idle));
          var t := SetHandle(Release(s, handle.token), h, handle.(state := Released, pc := Idle));
          SameHolders(t, t.(slots := t.slots.(cleanupRequired := true)));
        } else {
          SetHandleKeepsHolders(s, h, after.(state := Active));
        }
    }
  }

  lemma StepKeepsHolders(s: State, e: Event)
    requires HoldersValid(s) && Enabled(s, e)
    ensures HoldersValid(Step(s, e))
    ensures ReleasedBy(s, e).Some? ==>
      ReleasedBy(s, e).value < |s.tokens| && !s.tokens[ReleasedBy(s, e).value].released
  {
    ReleasedTokenIsHeld(s, e);
    match e {
      case AcquireStarts(mode) => StartAcquireKeepsHolders(s, mode);
      case AcquireResumes(k) => ResumeAcquireKeepsHolders(s, k);
      case CreateFinishes => CreateKeepsHolders(s);
      case ReleaseStarts(_, _) => ReleaseKeepsHolders(s, e);
      case ReleaseResumes(_) => ReleaseKeepsHolders(s, e);
      case ReleaseCatches(_) => ReleaseKeepsHolders(s, e);
      case _ => SameHolders(s, Step(s, e));
    }
  }

  lemma ReleasedTokenIsHeld(s: State, e: Event)
    requires HoldersValid(s) && Enabled(s, e)
    ensures ReleasedBy(s, e).Some? ==>
      ReleasedBy(s, e).value < |s.tokens| && !s.tokens[ReleasedBy(s, e).value].released
  {
    match e {
      case ReleaseStarts(h, _) => assert HandleValid(s, s.handles[h]);
      case ReleaseResumes(h) => assert HandleValid(s, s.handles[h]);
      case ReleaseCatches(h) => assert HandleValid(s, s.handles[h]);
      case _ =>
    }
  }

  lemma ResumeAcquireKeepsHolders(s: State, k: nat)
    requires HoldersValid(s) && Enabled(s, AcquireResumes(k))
    ensures HoldersValid(ResumeAcquire(s, k))
  {
    match s.acquires[k].pc {
      case AwaitDetachment(_) => AfterDetachmentKeepsHolders(s, k);
      case AwaitReconciliation(r) =>
        AfterReconcileKeepsHolders(s, k, true);
        FailKeepsHolders(s, k);
      case AwaitAttachment(a) =>
        var t := if s.attachment == Some(a) then s.(attachment := None) else s;
        SameHolders(s, t);
        FinishKeepsHolders(t, k);
        FailKeepsHolders(t, k);
    }
  }

  lemma CreateKeepsHolders(s: State)
    requires HoldersValid(s)
    ensures HoldersValid(Step(s, CreateFinishes))
  {
    if ReserveToken(s, Exclusive).Some? {
      ReserveKeepsHolders(s, Exclusive);
      var t := ReserveToken(s, Exclusive).value;
      var u := MakeHandle(t, |s.tokens|);
      forall h | 0 <= h < |u.handles| ensures HandleValid(u, u.handles[h]) {
        if h < |s.handles| { assert HandleValid(s, s.handles[h]) && HandleValid(t, t.handles[h]); }
      }
      forall k | 0 <= k < |s.acquires| ensures s.acquires[k].token < |s.tokens| {}
    }
  }

  /** Tokens are only added, and exactly the token that ReleasedBy names becomes released. */
  lemma StepReleasesExactly(s: State, e: Event)
    requires HoldersValid(s) && Enabled(s, e)
    ensures |s.tokens| <= |Step(s, e).tokens|
    ensures forall t :: 0 <= t < |s.tokens| ==>
      Step(s, e).tokens[t] == s.tokens[t].(released := s.tokens[t].released || ReleasedBy(s, e) == Some(t))
  {
    match e {
      case AcquireStarts(mode) => if ReserveToken(s, mode).Some? { StartAcquireReserves(s, mode); }
      case AcquireResumes(k) => ResumeReleasesExactly(s, k);
      case CreateFinishes =>
      case ReleaseStarts(_, _) => HandlesReleaseExactly(s, e);
      case ReleaseResumes(_) => HandlesReleaseExactly(s, e);
      case ReleaseCatches(_) => HandlesReleaseExactly(s, e);
      case _ => assert Step(s, e).tokens == s.tokens;
    }
  }

  lemma HandlesReleaseExactly(s: State, e: Event)
    requires HoldersValid(s) && Enabled(s, e) && (e.ReleaseStarts? || e.ReleaseResumes? || e.ReleaseCatches?)
    ensures Step(s, e).tokens ==
      if ReleasedBy(s, e).Some? then Release(s, s.handles[e.handle].token).tokens else s.tokens
    ensures ReleasedBy(s, e).Some? ==> ReleasedBy(s, e) == Some(s.handles[e.handle].token)
  {
    assert HandleValid(s, s.handles[e.handle]);
  }

  lemma ResumeReleasesExactly(s: State, k: nat)
    requires HoldersValid(s) && Enabled(s, AcquireResumes(k))
    ensures ResumeAcquire(s, k).tokens ==
      if ReleasedBy(s, AcquireResumes(k)).Some? then Release(s, s.acquires[k].token).tokens else s.tokens
  {
    AfterDetachmentKeepsAccounts(s, k);
  }

  // ---------------------------------------------------------------- counting

  /** The tokens reserved in the current generation and not released. */
  ghost function Outstanding(tokens: seq<Token>, generation: nat): set<nat> {
    set t | 0 <= t < |tokens| && !tokens[t].released && tokens[t].epoch == generation
  }

  /** The count is the number of outstanding tokens, and an exclusive token is the only one. */
  ghost predicate Accounting(slots: Slots, tokens: seq<Token>) {
    var o := Outstanding(tokens, slots.generation);
    && CountOf(slots) == |o|
    && slots.count != Some(0)
    && (slots.exclusive.Some? ==> slots.exclusive.value in o)
    && (forall t :: t in o && tokens[t].mode == Exclusive ==> slots.exclusive == Some(t) && o == {t})
  }

  ghost predicate Accounted(s: State) { Accounting(s.slots, s.tokens) }

  lemma ReserveKeepsAccounts(slots: Slots, tokens: seq<Token>, mode: Mode)
    requires Accounting(slots, tokens) && Reserved(slots, mode, |tokens|).Some?
    ensures Accounting(Reserved(slots, mode, |tokens|).value, tokens + [Token(mode, slots.generation, false)])
  {
    var o := Outstanding(tokens, slots.generation);
    OutstandingGrows(tokens, slots.generation, mode);
    if CountOf(slots) == 0 { assert o == {}; }
  }

  lemma OutstandingGrows(tokens: seq<Token>, generation: nat, mode: Mode)
    ensures Outstanding(tokens + [Token(mode, generation, false)], generation)
      == Outstanding(tokens, generation) + {|tokens|}
    ensures |tokens| !in Outstanding(tokens, generation)
    ensures forall t :: t in Outstanding(tokens, generation) ==>
      (tokens + [Token(mode, generation, false)])[t] == tokens[t]
  {
  }

  /** Releasing an outstanding token keeps the accounts. */
  lemma FreshReleaseKeepsAccounts(s: State, token: nat)
    requires Accounted(s) && token in Outstanding(s.tokens, s.slots.generation)
    ensures Accounted(Release(s, token))
  {
    var o := Outstanding(s.tokens, s.slots.generation);
    assert Outstanding(Release(s, token).tokens, s.slots.generation) == o - {token};
    assert o == (o - {token}) + {token};
  }

  /**
   * Releasing a token that an invalidation has already written off keeps the accounts exactly when no
   * newer token is outstanding; otherwise it takes a newer token's place in the count.
   */
  lemma StaleReleaseExactly(s: State, token: nat)
    requires Accounted(s) && token < |s.tokens| && s.tokens[token].epoch != s.slots.generation
    ensures Accounted(Release(s, token)) <==> Outstanding(s.tokens, s.slots.generation) == {}
  {
    var o := Outstanding(s.tokens, s.slots.generation);
    assert Outstanding(Release(s, token).tokens, s.slots.generation) == o;
  }

  lemma InvalidationKeepsAccounts(s: State)
    requires HoldersValid(s)
    ensures Accounting(Invalidated(s.slots), s.tokens)
    ensures Accounted(s) ==> Accounting(InvalidatedWithAll(s.slots), s.tokens)
  {
    assert Outstanding(s.tokens, s.slots.generation + 1) == {};
  }

  /** The guard: no token of an earlier generation is released while a newer one is outstanding. */
  ghost predicate Guarded(s: State, e: Event)
    requires TokensExist(s) && Enabled(s, e)
  {
    ReleasedBy(s, e).Some? && ReleasedBy(s, e).value < |s.tokens| ==>
      || s.tokens[ReleasedBy(s, e).value].epoch == s.slots.generation
      || Outstanding(s.tokens, s.slots.generation) == {}
  }

  /** The lease bookkeeping of a step is the reservation, release or invalidation it performs, if any. */
  ghost predicate SameAccounts(s: State, t: State) {
    && t.tokens == s.tokens
    && t.slots.(cleanupRequired := s.slots.cleanupRequired) == s.slots
  }

  lemma StepKeepsAccounts(s: State, e: Event)
    requires HoldersValid(s) && Accounted(s) && Enabled(s, e) && Guarded(s, e)
    ensures Accounted(Step(s, e))
  {
    StepKeepsHolders(s, e);
    if ReleasedBy(s, e).Some? {
      ReleaseStepKeepsAccounts(s, e);
    } else {
      match e {
        case AcquireStarts(mode) => StartAcquireKeepsAccounts(s, mode);
        case CreateFinishes => CreateKeepsAccounts(s);
        case SessionRemoved => InvalidationKeepsAccounts(s);
        case Disconnect => InvalidationKeepsAccounts(s);
        case _ => OtherStepsKeepAccounts(s, e);
      }
    }
  }

  lemma StartAcquireKeepsAccounts(s: State, mode: Mode)
    requires HoldersValid(s) && Accounted(s)
    ensures Accounted(StartAcquire(s, mode))
  {
    if ReserveToken(s, mode).Some? {
      ReserveKeepsAccounts(s.slots, s.tokens, mode);
      StartAcquireReserves(s, mode);
    }
  }

  lemma StartAcquireReserves(s: State, mode: Mode)
    requires TokensExist(s) && ReserveToken(s, mode).Some?
    ensures SameAccounts(ReserveToken(s, mode).value, StartAcquire(s, mode))
  {
    var t := ReserveToken(s, mode).value;
    var u := t.(acquires := t.acquires + [Acquire(|s.tokens|, AwaitDetachment(s.detachment.GetOr(0)))]);
    AfterDetachmentKeepsAccounts(u, |s.acquires|);
  }

  lemma AfterDetachmentKeepsAccounts(s: State, k: nat)
    requires k < |s.acquires|
    ensures SameAccounts(s, AfterDetachment(s, k))
  {
  }

  lemma CreateKeepsAccounts(s: State)
    requires HoldersValid(s) && Accounted(s)
    ensures Accounted(Step(s, CreateFinishes))
  {
    if ReserveToken(s, Exclusive).Some? { ReserveKeepsAccounts(s.slots, s.tokens, Exclusive); }
  }

  lemma ReleaseStepKeepsAccounts(s: State, e: Event)
    requires HoldersValid(s) && Accounted(s) && Enabled(s, e) && Guarded(s, e) && ReleasedBy(s, e).Some?
    ensures Accounted(Step(s, e))
  {
    var token := ReleasedBy(s, e).value;
    if s.tokens[token].epoch == s.slots.generation {
      FreshReleaseKeepsAccounts(s, token);
    } else {
      StaleReleaseExactly(s, token);
    }
    ReleaseStepIsRelease(s, e);
  }

  lemma OtherStepsKeepAccounts(s: State, e: Event)
    requires HoldersValid(s) && Enabled(s, e) && ReleasedBy(s, e).None?
    requires !e.AcquireStarts? && !e.CreateFinishes? && !e.SessionRemoved? && !e.Disconnect?
    ensures SameAccounts(s, Step(s, e))
  {
  }

  lemma ReleaseStepIsRelease(s: State, e: Event)
    requires HoldersValid(s) && Enabled(s, e) && ReleasedBy(s, e).Some?
    requires ReleasedBy(s, e).value < |s.tokens|
    ensures SameAccounts(Release(s, ReleasedBy(s, e).value), Step(s, e))
  {
  }

  /**
   * A handle whose release sends a detach request holds the last outstanding token, exactly when its own
   * token is of the current generation or nothing is outstanding.
   */
  lemma DetachOnlyWhenLastExactly(s: State, h: nat, relinquish: bool)
    requires HoldersValid(s) && Accounted(s) && h < |s.handles|
    requires Step(s, ReleaseStarts(h, relinquish)).detaches != s.detaches
    ensures var token := s.handles[h].token;
      Outstanding(s.tokens, s.slots.generation) <= {token} <==>
        s.tokens[token].epoch == s.slots.generation || Outstanding(s.tokens, s.slots.generation) == {}
  {
    var token := s.handles[h].token;
    var o := Outstanding(s.tokens, s.slots.generation);
    assert HandleValid(s, s.handles[h]);
    assert |o| <= 1;
    if token in o { assert o == {token} by { assert |o - {token}| == 0; } }
  }

  // ---------------------------------------------------------------- single flight

  ghost predicate ReconcileValid(s: State, r: nat)
    requires r < |s.reconciles|
  {
    && (s.reconciles[r].stage != Finished ==> s.reconciliation == Some(r))
    && (s.reconciles[r].stage != Requesting ==> s.reconciles[r].request != Unsettled)
  }

  /** The attach request in flight, and the reconciliation in flight, are the ones the maps hold. */
  ghost predicate FlightsValid(s: State) {
    && (s.attachment.Some? ==> s.attachment.value < |s.attaches|)
    && (forall a :: 0 <= a < |s.attaches| && s.attaches[a] == Unsettled ==> s.attachment == Some(a))
    && (s.reconciliation.Some? ==> s.reconciliation.value < |s.reconciles|)
    && (forall r :: 0 <= r < |s.reconciles| ==> ReconcileValid(s, r))
    && (forall k :: 0 <= k < |s.acquires| ==> PcValid(s, s.acquires[k].pc))
  }

  ghost predicate PcValid(s: State, pc: AcquirePc) {
    match pc
    case AwaitAttachment(a) => a < |s.attaches|
    case AwaitReconciliation(r) => r < |s.reconciles|
    case _ => true
  }

  lemma AfterReconcileKeepsFlights(s: State, k: nat, reconciled: bool)
    requires FlightsValid(s) && k < |s.acquires|
    ensures FlightsValid(AfterReconcile(s, k, reconciled))
  {
    var t := AfterReconcile(s, k, reconciled);
    forall r | 0 <= r < |t.reconciles| ensures ReconcileValid(t, r) { assert ReconcileValid(s, r); }
    forall j | 0 <= j < |t.acquires| ensures PcValid(t, t.acquires[j].pc) { assert PcValid(s, s.acquires[j].pc); }
  }

  lemma AfterDetachmentKeepsFlights(s: State, k: nat)
    requires FlightsValid(s) && k < |s.acquires|
    ensures FlightsValid(AfterDetachment(s, k))
  {
    if s.slots.cleanupRequired {
      var t := AfterDetachment(s, k);
      forall r | 0 <= r < |t.reconciles| ensures ReconcileValid(t, r) {
        if r < |s.reconciles| { assert ReconcileValid(s, r); }
      }
      forall j | 0 <= j < |t.acquires| ensures PcValid(t, t.acquires[j].pc) { assert PcValid(s, s.acquires[j].pc); }
    } else {
      AfterReconcileKeepsFlights(s, k, false);
    }
  }

  /** Changes outside the three request tables. */
  lemma SameFlights(s: State, t: State)
    requires FlightsValid(s) && t.attaches == s.attaches && t.reconciles == s.reconciles
    requires t.reconciliation == s.reconciliation
    requires t.attachment == s.attachment
          || (t.attachment == None && (s.attachment.Some? && s.attachment.value < |s.attaches| ==>
                s.attaches[s.attachment.value] != Unsettled))
    requires forall k :: 0 <= k < |t.acquires| ==>
      t.acquires[k].pc.AwaitDetachment? || t.acquires[k].pc.Acquired? || t.acquires[k].pc.AcquireFailed?
      || (k < |s.acquires| && t.acquires[k].pc == s.acquires[k].pc)
    ensures FlightsValid(t)
  {
    forall r | 0 <= r < |t.reconciles| ensures ReconcileValid(t, r) { assert ReconcileValid(s, r); }
    forall k | 0 <= k < |t.acquires| ensures PcValid(t, t.acquires[k].pc) {
      if k < |s.acquires| { assert PcValid(s, s.acquires[k].pc); }
    }
  }

  lemma StepKeepsFlights(s: State, e: Event)
    requires TokensExist(s) && FlightsValid(s) && Enabled(s, e)
    ensures FlightsValid(Step(s, e))
  {
    match e {
      case AcquireStarts(mode) => StartAcquireKeepsFlights(s, mode);
      case AcquireResumes(k) => ResumeAcquireKeepsFlights(s, k);
      case AttachSettles(_, _, _) => RequestsKeepFlights(s, e);
      case ReconcileRequestSettles(_, _) => RequestsKeepFlights(s, e);
      case ReconcileCleans(_) => RequestsKeepFlights(s, e);
      case ReconcileFinishes(r) => FinishingKeepsFlights(s, r);
      case Disconnect => RequestsKeepFlights(s, e);
      case _ => OthersKeepFlights(s, e);
    }
  }

  lemma RequestsKeepFlights(s: State, e: Event)
    requires TokensExist(s) && FlightsValid(s) && Enabled(s, e)
    requires e.AttachSettles? || e.ReconcileRequestSettles? || e.ReconcileCleans? || e.Disconnect?
    ensures FlightsValid(Step(s, e))
  {
    forall r | 0 <= r < |s.reconciles| ensures ReconcileValid(s, r) {}
    SettlingKeepsFlights(s, Step(s, e));
  }

  lemma OthersKeepFlights(s: State, e: Event)
    requires TokensExist(s) && FlightsValid(s) && Enabled(s, e)
    requires e.CreateFinishes? || e.ReleaseStarts? || e.ReleaseResumes? || e.ReleaseCatches? || e.DetachSettles?
          || e.SessionRemoved? || e.AttachmentChanges? || e.Connect?
    ensures FlightsValid(Step(s, e))
  {
    if e.ReleaseStarts? || e.ReleaseResumes? || e.ReleaseCatches? { ReleasesKeepRequests(s, e); }
    SameFlights(s, Step(s, e));
  }

  ghost predicate SameRequests(s: State, t: State) {
    && t.acquires == s.acquires && t.attaches == s.attaches && t.reconciles == s.reconciles
    && t.attachment == s.attachment && t.reconciliation == s.reconciliation
  }

  lemma ReleasesKeepRequests(s: State, e: Event)
    requires TokensExist(s) && Enabled(s, e) && (e.ReleaseStarts? || e.ReleaseResumes? || e.ReleaseCatches?)
    ensures SameRequests(s, Step(s, e))
  {
    match e {
      case ReleaseStarts(h, relinquish) => assert SameRequests(s, StartRelease(s, h, relinquish));
      case ReleaseResumes(h) => ResumeReleaseKeepsRequests(s, h);
      case ReleaseCatches(h) => CatchReleaseKeepsRequests(s, h);
    }
  }

  lemma ResumeReleaseKeepsRequests(s: State, h: nat)
    requires TokensExist(s) && Enabled(s, ReleaseResumes(h))
    ensures SameRequests(s, ResumeRelease(s, h))
  {
  }

  lemma CatchReleaseKeepsRequests(s: State, h: nat)
    requires TokensExist(s) && Enabled(s, ReleaseCatches(h))
    ensures SameRequests(s, CatchRelease(s, h))
  {
  }

  lemma StartAcquireKeepsFlights(s: State, mode: Mode)
    requires FlightsValid(s)
    ensures FlightsValid(StartAcquire(s, mode))
  {
    if ReserveToken(s, mode).Some? {
      var t := ReserveToken(s, mode).value;
      var u := t.(acquires := t.acquires + [Acquire(|s.tokens|, AwaitDetachment(s.detachment.GetOr(0)))]);
      SameFlights(s, u);
      if s.detachment.None? { AfterDetachmentKeepsFlights(u, |s.acquires|); }
    }
  }

  lemma ResumeAcquireKeepsFlights(s: State, k: nat)
    requires TokensExist(s) && FlightsValid(s) && Enabled(s, AcquireResumes(k))
    ensures FlightsValid(ResumeAcquire(s, k))
  {
    match s.acquires[k].pc {
      case AwaitDetachment(_) => AfterDetachmentKeepsFlights(s, k);
      case AwaitReconciliation(r) =>
        AfterReconcileKeepsFlights(s, k, true);
        SameFlights(s, FailAcquire(s, k));
      case AwaitAttachment(_) => AfterAttachmentKeepsFlights(s, k);
    }
  }

  lemma AfterAttachmentKeepsFlights(s: State, k: nat)
    requires TokensExist(s) && FlightsValid(s) && Enabled(s, AcquireResumes(k)) && s.acquires[k].pc.AwaitAttachment?
    ensures FlightsValid(ResumeAcquire(s, k))
  {
    var a := s.acquires[k].pc.attach;
    var t := if s.attachment == Some(a) then s.(attachment := None) else s;
    SameFlights(s, t);
    if s.attaches[a] == Fulfilled {
      SameFlights(t, FinishAcquire(t, k));
    } else {
      SameFlights(t, FailAcquire(t, k));
    }
  }

  /** Requests settle and stages advance, short of the last; the maps and the calls stay. */
  lemma SettlingKeepsFlights(s: State, t: State)
    requires FlightsValid(s)
    requires t.attachment == s.attachment && t.reconciliation == s.reconciliation && t.acquires == s.acquires
    requires |t.attaches| == |s.attaches| && |t.reconciles| == |s.reconciles|
    requires forall a :: 0 <= a < |t.attaches| && t.attaches[a] == Unsettled ==> s.attaches[a] == Unsettled
    requires forall r :: 0 <= r < |t.reconciles| ==>
      && (t.reconciles[r].stage != Finished ==> s.reconciles[r].stage != Finished)
      && (t.reconciles[r].stage != Requesting && t.reconciles[r].request == Unsettled ==>
            s.reconciles[r].stage != Requesting && s.reconciles[r].request == Unsettled)
    ensures FlightsValid(t)
  {
    forall r | 0 <= r < |t.reconciles| ensures ReconcileValid(t, r) { assert ReconcileValid(s, r); }
    forall k | 0 <= k < |t.acquires| ensures PcValid(t, t.acquires[k].pc) { assert PcValid(s, s.acquires[k].pc); }
  }

  lemma FinishingKeepsFlights(s: State, r: nat)
    requires TokensExist(s) && FlightsValid(s) && Enabled(s, ReconcileFinishes(r))
    ensures FlightsValid(Step(s, ReconcileFinishes(r)))
  {
    var t := Step(s, ReconcileFinishes(r));
    assert ReconcileValid(s, r);
    forall q | 0 <= q < |t.reconciles| ensures ReconcileValid(t, q) { assert ReconcileValid(s, q); }
    forall k | 0 <= k < |t.acquires| ensures PcValid(t, t.acquires[k].pc) { assert PcValid(s, s.acquires[k].pc); }
  }

  // ---------------------------------------------------------------- handles that are over

  /** Released, invalidated, or of an earlier generation and so invalidated as soon as anyone looks. */
  predicate Over(s: State, handle: Handle) {
    handle.state == Released || handle.state == Gone || handle.generation != s.slots.generation
  }

  lemma OverStaysOver(s: State, e: Event, h: nat)
    requires HoldersValid(s) && Enabled(s, e) && h < |s.handles| && Over(s, s.handles[h])
    ensures h < |Step(s, e).handles| && Over(Step(s, e), Step(s, e).handles[h])
    ensures !IsActive(Step(s, e), Step(s, e).handles[h])
  {
    match e {
      case ReleaseStarts(g, relinquish) => StartReleaseKeepsOver(s, g, relinquish, h);
      case ReleaseResumes(g) => ResumeReleaseKeepsOver(s, g, h);
      case ReleaseCatches(g) => CatchReleaseKeepsOver(s, g, h);
      case _ => StepGrows(s, e); GrownStaysOver(s, Step(s, e), h);
    }
    OverIsNotActive(Step(s, e), h);
  }

  lemma GrownStaysOver(s: State, t: State, h: nat)
    requires HoldersValid(s) && h < |s.handles| && Over(s, s.handles[h]) && Grown(s, t)
    ensures h < |t.handles| && Over(t, t.handles[h])
  {
    assert HandleValid(s, s.handles[h]);
    assert t.handles[h] == t.handles[..|s.handles|][h];
  }

  lemma StartReleaseKeepsOver(s: State, g: nat, relinquish: bool, h: nat)
    requires HoldersValid(s) && g < |s.handles| && h < |s.handles| && Over(s, s.handles[h])
    ensures var t := StartRelease(s, g, relinquish); h < |t.handles| && Over(t, t.handles[h])
  {
  }

  lemma ResumeReleaseKeepsOver(s: State, g: nat, h: nat)
    requires HoldersValid(s) && Enabled(s, ReleaseResumes(g)) && h < |s.handles| && Over(s, s.handles[h])
    ensures var t := ResumeRelease(s, g); h < |t.handles| && Over(t, t.handles[h])
  {
    assert HandleValid(s, s.handles[h]);
  }

  lemma CatchReleaseKeepsOver(s: State, g: nat, h: nat)
    requires HoldersValid(s) && Enabled(s, ReleaseCatches(g)) && h < |s.handles| && Over(s, s.handles[h])
    ensures var t := CatchRelease(s, g); h < |t.handles| && Over(t, t.handles[h])
  {
    assert HandleValid(s, s.handles[h]);
  }

  /** Generations only grow and handles are only added. */
  ghost predicate Grown(s: State, t: State) {
    && s.slots.generation <= t.slots.generation && |s.handles| <= |t.handles|
    && t.handles[..|s.handles|] == s.handles
  }

  lemma AfterReconcileGrows(s: State, k: nat, reconciled: bool)
    requires k < |s.acquires|
    ensures Grown(s, AfterReconcile(s, k, reconciled))
  {
  }

  lemma AfterDetachmentGrows(s: State, k: nat)
    requires k < |s.acquires|
    ensures Grown(s, AfterDetachment(s, k))
  {
    AfterReconcileGrows(s, k, false);
  }

  lemma StartAcquireGrows(s: State, mode: Mode)
    requires TokensExist(s)
    ensures Grown(s, StartAcquire(s, mode))
  {
    if ReserveToken(s, mode).Some? {
      var t := ReserveToken(s, mode).value;
      var u := t.(acquires := t.acquires + [Acquire(|s.tokens|, AwaitDetachment(s.detachment.GetOr(0)))]);
      AfterDetachmentGrows(u, |s.acquires|);
    }
  }

  lemma ResumeAcquireGrows(s: State, k: nat)
    requires TokensExist(s) && Enabled(s, AcquireResumes(k))
    ensures Grown(s, ResumeAcquire(s, k))
  {
    match s.acquires[k].pc {
      case AwaitDetachment(_) => AfterDetachmentGrows(s, k);
      case AwaitReconciliation(_) => AfterReconcileGrows(s, k, true);
      case AwaitAttachment(_) =>
    }
  }

  lemma SimpleStepsGrow(s: State, e: Event)
    requires TokensExist(s) && Enabled(s, e)
    requires !e.AcquireStarts? && !e.AcquireResumes? && !e.ReleaseStarts? && !e.ReleaseResumes? && !e.ReleaseCatches?
    ensures Grown(s, Step(s, e))
  {
  }

  lemma StepGrows(s: State, e: Event)
    requires TokensExist(s) && Enabled(s, e)
    requires !e.ReleaseStarts? && !e.ReleaseResumes? && !e.ReleaseCatches?
    ensures Grown(s, Step(s, e))
  {
    match e {
      case AcquireStarts(mode) => StartAcquireGrows(s, mode);
      case AcquireResumes(k) => ResumeAcquireGrows(s, k);
      case _ => SimpleStepsGrow(s, e);
    }
  }

  /**
   * Removal ends every handle of the session. Disconnecting ends a handle exactly when it is over already or
   * the session has a lease count; a handle whose token was written off while it was still being acquired
   * has none of its own.
   */
  lemma DisconnectEndsExactly(s: State, h: nat)
    requires HoldersValid(s) && h < |s.handles|
    ensures Over(Step(s, SessionRemoved), s.handles[h])
    ensures Over(Step(s, Disconnect), s.handles[h]) <==> Over(s, s.handles[h]) || s.slots.count.Some?
    ensures Accounted(s) && s.handles[h].token in Outstanding(s.tokens, s.slots.generation) ==>
      Over(Step(s, Disconnect), s.handles[h])
  {
    assert HandleValid(s, s.handles[h]);
  }

  // ---------------------------------------------------------------- every run

  ghost predicate IsRun(s: State, events: seq<Event>)
    decreases |events|
  {
    TokensExist(s) && (events != [] ==> Enabled(s, events[0]) && IsRun(Step(s, events[0]), events[1..]))
  }

  ghost function Run(s: State, events: seq<Event>): State
    requires IsRun(s, events)
    decreases |events|
  {
    if events == [] then s else Run(Step(s, events[0]), events[1..])
  }

  /** Every event of the run respects the release guard. */
  ghost predicate GuardedRun(s: State, events: seq<Event>)
    requires IsRun(s, events)
    decreases |events|
  {
    events != [] ==> Guarded(s, events[0]) && GuardedRun(Step(s, events[0]), events[1..])
  }

  lemma {:induction false} RunKeepsInvariants(s: State, events: seq<Event>)
    requires HoldersValid(s) && FlightsValid(s) && IsRun(s, events)
    ensures HoldersValid(Run(s, events)) && FlightsValid(Run(s, events))
    decreases |events|
  {
    if events != [] {
      StepKeepsHolders(s, events[0]);
      StepKeepsFlights(s, events[0]);
      RunKeepsInvariants(Step(s, events[0]), events[1..]);
    }
  }

  lemma {:induction false} GuardedRunKeepsAccounts(s: State, events: seq<Event>)
    requires HoldersValid(s) && Accounted(s) && IsRun(s, events) && GuardedRun(s, events)
    ensures HoldersValid(Run(s, events)) && Accounted(Run(s, events))
    decreases |events|
  {
    if events != [] {
      StepKeepsHolders(s, events[0]);
      StepKeepsAccounts(s, events[0]);
      GuardedRunKeepsAccounts(Step(s, events[0]), events[1..]);
    }
  }

  lemma {:induction false} RunKeepsOver(s: State, events: seq<Event>, h: nat)
    requires HoldersValid(s) && FlightsValid(s) && IsRun(s, events) && h < |s.handles| && Over(s, s.handles[h])
    ensures h < |Run(s, events).handles| && Over(Run(s, events), Run(s, events).handles[h])
    decreases |events|
  {
    if events != [] {
      StepKeepsHolders(s, events[0]);
      StepKeepsFlights(s, events[0]);
      OverStaysOver(s, events[0], h);
      RunKeepsOver(Step(s, events[0]), events[1..], h);
    }
  }

  /** The call awaits an attach that is in flight, or a reconciliation that is not finished. */
  predicate AwaitsFlight(s: State, pc: AcquirePc) {
    match pc
    case AwaitAttachment(a) => a < |s.attaches| && s.attaches[a] == Unsettled
    case AwaitReconciliation(r) => r < |s.reconciles| && s.reconciles[r].stage != Finished
    case _ => false
  }

  /** One attach and one reconciliation at most, each shared by all the calls that await one. */
  ghost predicate OneFlight(s: State) {
    && (forall a, b :: 0 <= a < b < |s.attaches| ==> s.attaches[a] != Unsettled || s.attaches[b] != Unsettled)
    && (forall q, r :: 0 <= q < r < |s.reconciles| ==>
          s.reconciles[q].stage == Finished || s.reconciles[r].stage == Finished)
    && (forall j, k :: 0 <= j < k < |s.acquires| ==> SameFlight(s, s.acquires[j].pc, s.acquires[k].pc))
  }

  predicate SameFlight(s: State, p: AcquirePc, q: AcquirePc) {
    AwaitsFlight(s, p) && AwaitsFlight(s, q) && p.AwaitAttachment? == q.AwaitAttachment? ==> p == q
  }

  lemma ValidFlightsAreSingle(s: State)
    requires FlightsValid(s)
    ensures OneFlight(s)
  {
    forall q, r | 0 <= q < r < |s.reconciles|
      ensures s.reconciles[q].stage == Finished || s.reconciles[r].stage == Finished
    {
      assert ReconcileValid(s, q) && ReconcileValid(s, r);
    }
    forall j, k | 0 <= j < k < |s.acquires| ensures SameFlight(s, s.acquires[j].pc, s.acquires[k].pc) {
      ValidFlightsAreShared(s, s.acquires[j].pc, s.acquires[k].pc);
    }
  }

  lemma ValidFlightsAreShared(s: State, p: AcquirePc, q: AcquirePc)
    requires FlightsValid(s)
    ensures SameFlight(s, p, q)
  {
    if AwaitsFlight(s, p) && AwaitsFlight(s, q) && p.AwaitReconciliation? && q.AwaitReconciliation? {
      assert ReconcileValid(s, p.reconciliation) && ReconcileValid(s, q.reconciliation);
    }
  }

  lemma InitialIsValid()
    ensures HoldersValid(INITIAL) && FlightsValid(INITIAL)
  {
  }

  /**
   * In every run at most one attach and at most one reconciliation is in flight, and all calls that await an
   * attach in flight await the same one, as do all that await a reconciliation.
   */
  lemma SingleFlight(events: seq<Event>)
    requires IsRun(INITIAL, events)
    ensures OneFlight(Run(INITIAL, events))
  {
    InitialIsValid();
    RunKeepsInvariants(INITIAL, events);
    ValidFlightsAreSingle(Run(INITIAL, events));
  }

  /** In every run a release hits a token that exists and has not been released before. */
  lemma EveryReleaseIsTheFirst(events: seq<Event>, e: Event)
    requires IsRun(INITIAL, events)
    ensures HoldersValid(Run(INITIAL, events))
    ensures Enabled(Run(INITIAL, events), e) && ReleasedBy(Run(INITIAL, events), e).Some? ==>
      var s := Run(INITIAL, events);
      ReleasedBy(s, e).value < |s.tokens| && !s.tokens[ReleasedBy(s, e).value].released
  {
    InitialIsValid();
    RunKeepsInvariants(INITIAL, events);
    if Enabled(Run(INITIAL, events), e) { StepKeepsHolders(Run(INITIAL, events), e); }
  }

  /** In every run a handle that is over stays over and is never active again. */
  lemma OverForGood(before: seq<Event>, after: seq<Event>, h: nat)
    requires IsRun(INITIAL, before) && IsRun(Run(INITIAL, before), after)
    requires h < |Run(INITIAL, before).handles| && Over(Run(INITIAL, before), Run(INITIAL, before).handles[h])
    ensures var t := Run(Run(INITIAL, before), after);
      h < |t.handles| && Over(t, t.handles[h]) && !IsActive(t, t.handles[h])
  {
    InitialIsValid();
    RunKeepsInvariants(INITIAL, before);
    RunKeepsOver(Run(INITIAL, before), after, h);
    OverIsNotActive(Run(Run(INITIAL, before), after), h);
  }

  lemma OverIsNotActive(s: State, h: nat)
    requires h < |s.handles| && Over(s, s.handles[h])
    ensures !IsActive(s, s.handles[h])
  {
  }

  /** In every guarded run the count is the number of outstanding tokens and exclusive tokens are alone. */
  lemma LeaseAccounting(events: seq<Event>)
    requires IsRun(INITIAL, events) && GuardedRun(INITIAL, events)
    ensures Accounted(Run(INITIAL, events))
  {
    InitialIsValid();
    assert Outstanding([], 0) == {};
    GuardedRunKeepsAccounts(INITIAL, events);
  }

  /**
   * In every guarded run, a handle whose release sends a detach request holds the last outstanding token,
   * exactly when its own token is of the current generation or nothing is outstanding.
   */
  lemma DetachInEveryGuardedRun(events: seq<Event>, h: nat, relinquish: bool)
    requires IsRun(INITIAL, events) && GuardedRun(INITIAL, events) && TokensExist(Run(INITIAL, events))
    requires h < |Run(INITIAL, events).handles|
    requires Step(Run(INITIAL, events), ReleaseStarts(h, relinquish)).detaches != Run(INITIAL, events).detaches
    ensures var s := Run(INITIAL, events); var token := s.handles[h].token;
      token < |s.tokens| &&
      (Outstanding(s.tokens, s.slots.generation) <= {token} <==>
         s.tokens[token].epoch == s.slots.generation || Outstanding(s.tokens, s.slots.generation) == {})
  {
    LeaseAccounting(events);
    InitialIsValid();
    RunKeepsInvariants(INITIAL, events);
    DetachOnlyWhenLastExactly(Run(INITIAL, events), h, relinquish);
  }

  // ---------------------------------------------------------------- why the guard and the conditions are there

  /** A guarded run. */
  ghost predicate Reaches(s: State, events: seq<Event>, t: State) {
    IsRun(s, events) && Run(s, events) == t && GuardedRun(s, events)
  }

  lemma {:induction false} Extend(s: State, events: seq<Event>, t: State, e: Event, u: State)
    requires Reaches(s, events, t) && Enabled(t, e) && TokensExist(t) && TokensExist(u) && u == Step(t, e)
    ensures IsRun(s, events + [e]) && Run(s, events + [e]) == u
    ensures Guarded(t, e) ==> Reaches(s, events + [e], u)
    decreases |events|
  {
    if events == [] {
      assert ([] + [e])[1..] == [];
    } else {
      assert (events + [e])[1..] == events[1..] + [e];
      Extend(Step(s, events[0]), events[1..], t, e, u);
    }
  }

  // The states below are those the runs pass through; each lemma after them adds one event to a run.

  const CONNECTED := INITIAL.(connected := true)

  const ACQUIRING := State(
    true, false, Slots(Some(1), None, 0, false), None, Some(0), None,
    [Token(Shared, 0, false)], [Acquire(0, AwaitAttachment(0))], [], [], [Unsettled], [])

  lemma ConnectingReaches(s: State, events: seq<Event>)
    requires Reaches(s, events, INITIAL)
    ensures Reaches(s, events + [Connect], CONNECTED)
  {
    Extend(s, events, INITIAL, Connect, CONNECTED);
  }

  lemma AcquiringReaches(s: State, events: seq<Event>)
    requires Reaches(s, events, CONNECTED)
    ensures Reaches(s, events + [AcquireStarts(Shared)], ACQUIRING)
  {
    Extend(s, events, CONNECTED, AcquireStarts(Shared), ACQUIRING);
  }

  // A shared lease is acquired and begins to release: its detach request is on the way. Meanwhile the session
  // is removed and a new token is reserved; then the old release completes.

  const ATTACHED := ACQUIRING.(attached := true, attaches := [Fulfilled])

  const HELD := ATTACHED.(
    attachment := None, acquires := [Acquire(0, Acquired)], handles := [Handle(0, 0, Active, Idle)])

  const DETACHING := HELD.(
    detachment := Some(0), handles := [Handle(0, 0, Releasing, AwaitDetach(0, false))], detaches := [Unsettled])

  const REMOVED := DETACHING.(attached := false, slots := Slots(None, None, 1, false))

  const REACQUIRED := REMOVED.(
    slots := Slots(Some(1), None, 1, false), tokens := [Token(Shared, 0, false), Token(Shared, 1, false)],
    acquires := [Acquire(0, Acquired), Acquire(1, AwaitDetachment(0))])

  const DETACHED := REACQUIRED.(detaches := [Fulfilled])

  const MISCOUNTED := DETACHED.(
    detachment := None, slots := Slots(None, None, 1, false),
    tokens := [Token(Shared, 0, true), Token(Shared, 1, false)], handles := [Handle(0, 0, Released, Idle)])

  lemma AttachingReaches(s: State, events: seq<Event>)
    requires Reaches(s, events, ACQUIRING)
    ensures Reaches(s, events + [AttachSettles(0, true, true)], ATTACHED)
  {
    Extend(s, events, ACQUIRING, AttachSettles(0, true, true), ATTACHED);
  }

  lemma HoldingReaches(s: State, events: seq<Event>)
    requires Reaches(s, events, ATTACHED)
    ensures Reaches(s, events + [AcquireResumes(0)], HELD)
  {
    Extend(s, events, ATTACHED, AcquireResumes(0), HELD);
  }

  lemma DetachingReaches(s: State, events: seq<Event>)
    requires Reaches(s, events, HELD)
    ensures Reaches(s, events + [ReleaseStarts(0, false)], DETACHING)
  {
    Extend(s, events, HELD, ReleaseStarts(0, false), DETACHING);
  }

  lemma RemovingReaches(s: State, events: seq<Event>)
    requires Reaches(s, events, DETACHING)
    ensures Reaches(s, events + [SessionRemoved], REMOVED)
  {
    Extend(s, events, DETACHING, SessionRemoved, REMOVED);
  }

  lemma ReacquiringReaches(s: State, events: seq<Event>)
    requires Reaches(s, events, REMOVED)
    ensures Reaches(s, events + [AcquireStarts(Shared)], REACQUIRED)
  {
    Extend(s, events, REMOVED, AcquireStarts(Shared), REACQUIRED);
  }

  lemma SettlingReaches(s: State, events: seq<Event>)
    requires Reaches(s, events, REACQUIRED)
    ensures Reaches(s, events + [DetachSettles(0, true)], DETACHED)
  {
    Extend(s, events, REACQUIRED, DetachSettles(0, true), DETACHED);
  }

  lemma LateReleaseRuns(s: State, events: seq<Event>)
    requires Reaches(s, events, DETACHED)
    ensures IsRun(s, events + [ReleaseResumes(0)]) && Run(s, events + [ReleaseResumes(0)]) == MISCOUNTED
  {
    Extend(s, events, DETACHED, ReleaseResumes(0), MISCOUNTED);
  }

  const ACQUIRE_AND_DETACH := [
    Connect, AcquireStarts(Shared), AttachSettles(0, true, true), AcquireResumes(0), ReleaseStarts(0, false)]

  const REACQUIRE_AND_COMPLETE := [SessionRemoved, AcquireStarts(Shared), DetachSettles(0, true), ReleaseResumes(0)]

  lemma AcquireAndDetach(s: State)
    requires Reaches(s, [], INITIAL)
    ensures Reaches(s, ACQUIRE_AND_DETACH, DETACHING)
  {
    ConnectingReaches(s, []);
    AcquiringReaches(s, [] + [Connect]);
    assert [] + [Connect] + [AcquireStarts(Shared)] == [Connect, AcquireStarts(Shared)];
    AttachingReaches(s, [Connect, AcquireStarts(Shared)]);
    HoldingReaches(s, [Connect, AcquireStarts(Shared)] + [AttachSettles(0, true, true)]);
    DetachingReaches(s, [Connect, AcquireStarts(Shared)] + [AttachSettles(0, true, true)] + [AcquireResumes(0)]);
    assert [Connect, AcquireStarts(Shared)] + [AttachSettles(0, true, true)] + [AcquireResumes(0)]
      + [ReleaseStarts(0, false)] == ACQUIRE_AND_DETACH;
  }

  lemma ReacquireAndComplete(s: State, events: seq<Event>)
    requires Reaches(s, events, DETACHING)
    ensures IsRun(s, events + REACQUIRE_AND_COMPLETE) && Run(s, events + REACQUIRE_AND_COMPLETE) == MISCOUNTED
  {
    RemovingReaches(s, events);
    ReacquiringReaches(s, events + [SessionRemoved]);
    SettlingReaches(s, events + [SessionRemoved] + [AcquireStarts(Shared)]);
    LateReleaseRuns(s, events + [SessionRemoved] + [AcquireStarts(Shared)] + [DetachSettles(0, true)]);
    assert events + [SessionRemoved] + [AcquireStarts(Shared)] + [DetachSettles(0, true)] + [ReleaseResumes(0)]
      == events + REACQUIRE_AND_COMPLETE;
  }

  lemma NewTokenUncounted(s: State)
    requires s.slots == Slots(None, None, 1, false) && s.tokens == [Token(Shared, 0, true), Token(Shared, 1, false)]
    ensures !Accounted(s) && 1 in Outstanding(s.tokens, s.slots.generation) && ReserveToken(s, Exclusive).Some?
  {
    assert 1 in Outstanding(s.tokens, s.slots.generation);
  }

  /** The late release takes the new token's count away, so an exclusive lease is granted beside it. */
  lemma UnguardedReleaseBreaksIt()
    ensures IsRun(INITIAL, ACQUIRE_AND_DETACH + REACQUIRE_AND_COMPLETE)
    ensures var s := Run(INITIAL, ACQUIRE_AND_DETACH + REACQUIRE_AND_COMPLETE);
      !Accounted(s) && 1 in Outstanding(s.tokens, s.slots.generation) && ReserveToken(s, Exclusive).Some?
  {
    AcquireAndDetach(INITIAL);
    ReacquireAndComplete(INITIAL, ACQUIRE_AND_DETACH);
    NewTokenUncounted(MISCOUNTED);
  }

  // A session is removed while its first lease is being acquired; the attach then succeeds.

  const FORGOTTEN := ACQUIRING.(slots := Slots(None, None, 1, false))

  const ATTACHED_AGAIN := FORGOTTEN.(attached := true, attaches := [Fulfilled])

  const UNCOUNTED := ATTACHED_AGAIN.(
    attachment := None, acquires := [Acquire(0, Acquired)], handles := [Handle(0, 1, Active, Idle)])

  lemma ForgettingReaches(s: State, events: seq<Event>)
    requires Reaches(s, events, ACQUIRING)
    ensures Reaches(s, events + [SessionRemoved], FORGOTTEN)
  {
    Extend(s, events, ACQUIRING, SessionRemoved, FORGOTTEN);
  }

  lemma AttachingAgainReaches(s: State, events: seq<Event>)
    requires Reaches(s, events, FORGOTTEN)
    ensures Reaches(s, events + [AttachSettles(0, true, true)], ATTACHED_AGAIN)
  {
    Extend(s, events, FORGOTTEN, AttachSettles(0, true, true), ATTACHED_AGAIN);
  }

  lemma UncountedReaches(s: State, events: seq<Event>)
    requires Reaches(s, events, ATTACHED_AGAIN)
    ensures Reaches(s, events + [AcquireResumes(0)], UNCOUNTED)
  {
    Extend(s, events, ATTACHED_AGAIN, AcquireResumes(0), UNCOUNTED);
  }

  const ACQUIRE_ACROSS_REMOVAL := [
    Connect, AcquireStarts(Shared), SessionRemoved, AttachSettles(0, true, true), AcquireResumes(0)]

  lemma AcquireAcrossRemoval(s: State)
    requires Reaches(s, [], INITIAL)
    ensures Reaches(s, ACQUIRE_ACROSS_REMOVAL, UNCOUNTED)
  {
    ConnectingReaches(s, []);
    AcquiringReaches(s, [] + [Connect]);
    assert [] + [Connect] + [AcquireStarts(Shared)] == [Connect, AcquireStarts(Shared)];
    ForgettingReaches(s, [Connect, AcquireStarts(Shared)]);
    AttachingAgainReaches(s, [Connect, AcquireStarts(Shared)] + [SessionRemoved]);
    UncountedReaches(s, [Connect, AcquireStarts(Shared)] + [SessionRemoved] + [AttachSettles(0, true, true)]);
    assert [Connect, AcquireStarts(Shared)] + [SessionRemoved] + [AttachSettles(0, true, true)]
      + [AcquireResumes(0)] == ACQUIRE_ACROSS_REMOVAL;
  }

  // After a reconnect the session is acquired once more.

  const OFFLINE := UNCOUNTED.(connected := false, attached := false)

  const ONLINE := OFFLINE.(connected := true)

  const ACQUIRING_AGAIN := ONLINE.(
    slots := Slots(Some(1), None, 1, false), attachment := Some(1), attaches := [Fulfilled, Unsettled],
    tokens := [Token(Shared, 0, false), Token(Shared, 1, false)],
    acquires := [Acquire(0, Acquired), Acquire(1, AwaitAttachment(1))])

  const REVIVED := ACQUIRING_AGAIN.(attached := true, attaches := [Fulfilled, Fulfilled])

  lemma DisconnectingReaches(s: State, events: seq<Event>)
    requires Reaches(s, events, UNCOUNTED)
    ensures Reaches(s, events + [Disconnect], OFFLINE)
  {
    Extend(s, events, UNCOUNTED, Disconnect, OFFLINE);
  }

  lemma ReconnectingReaches(s: State, events: seq<Event>)
    requires Reaches(s, events, OFFLINE)
    ensures Reaches(s, events + [Connect], ONLINE)
  {
    Extend(s, events, OFFLINE, Connect, ONLINE);
  }

  lemma AcquiringAgainReaches(s: State, events: seq<Event>)
    requires Reaches(s, events, ONLINE)
    ensures Reaches(s, events + [AcquireStarts(Shared)], ACQUIRING_AGAIN)
  {
    Extend(s, events, ONLINE, AcquireStarts(Shared), ACQUIRING_AGAIN);
  }

  lemma RevivingReaches(s: State, events: seq<Event>)
    requires Reaches(s, events, ACQUIRING_AGAIN)
    ensures Reaches(s, events + [AttachSettles(1, true, true)], REVIVED)
  {
    Extend(s, events, ACQUIRING_AGAIN, AttachSettles(1, true, true), REVIVED);
  }

  const RECONNECT := [Disconnect, Connect, AcquireStarts(Shared), AttachSettles(1, true, true)]

  lemma ReconnectRevives(s: State, events: seq<Event>)
    requires Reaches(s, events, UNCOUNTED)
    ensures Reaches(s, events + RECONNECT, REVIVED)
  {
    DisconnectingReaches(s, events);
    ReconnectingReaches(s, events + [Disconnect]);
    AcquiringAgainReaches(s, events + [Disconnect] + [Connect]);
    RevivingReaches(s, events + [Disconnect] + [Connect] + [AcquireStarts(Shared)]);
    assert events + [Disconnect] + [Connect] + [AcquireStarts(Shared)] + [AttachSettles(1, true, true)]
      == events + RECONNECT;
  }

  /**
   * The handle has no count of its own, so disconnecting does not end it: once a later call's attach has
   * succeeded it is active again.
   */
  lemma UncountedHandleSurvivesDisconnect()
    ensures IsRun(INITIAL, ACQUIRE_ACROSS_REMOVAL + RECONNECT)
    ensures var s := Run(INITIAL, ACQUIRE_ACROSS_REMOVAL + RECONNECT);
      |s.handles| == 1 && IsActive(s, s.handles[0])
  {
    AcquireAcrossRemoval(INITIAL);
    ReconnectRevives(INITIAL, ACQUIRE_ACROSS_REMOVAL);
  }

  // Without the reconnect, a second lease is acquired beside the uncounted one.

  const BESIDE := UNCOUNTED.(
    slots := Slots(Some(1), None, 1, false), tokens := [Token(Shared, 0, false), Token(Shared, 1, false)],
    acquires := [Acquire(0, Acquired), Acquire(1, Acquired)],
    handles := [Handle(0, 1, Active, Idle), Handle(1, 1, Active, Idle)])

  lemma BesideReaches(s: State, events: seq<Event>)
    requires Reaches(s, events, UNCOUNTED)
    ensures Reaches(s, events + [AcquireStarts(Shared)], BESIDE)
  {
    Extend(s, events, UNCOUNTED, AcquireStarts(Shared), BESIDE);
  }

  lemma BesideDetaches()
    ensures Step(BESIDE, ReleaseStarts(0, false)).detaches == [Unsettled]
    ensures Outstanding(BESIDE.tokens, 1) == {1}
  {
    assert BESIDE.tokens[0] == Token(Shared, 0, false) && BESIDE.tokens[1] == Token(Shared, 1, false);
  }

  /**
   * In this run no release is unguarded and the count is right throughout, yet releasing the uncounted handle
   * then sends a detach request while the other handle is active and its token outstanding.
   */
  lemma DetachBesideActiveHandle()
    ensures var events := ACQUIRE_ACROSS_REMOVAL + [AcquireStarts(Shared)];
      && IsRun(INITIAL, events) && GuardedRun(INITIAL, events)
      && var s := Run(INITIAL, events);
      && s == BESIDE && Accounted(s) && IsActive(s, s.handles[1])
      && Outstanding(s.tokens, s.slots.generation) == {s.handles[1].token} && s.handles[0].token != s.handles[1].token
      && Step(s, ReleaseStarts(0, false)).detaches != s.detaches
  {
    AcquireAcrossRemoval(INITIAL);
    BesideReaches(INITIAL, ACQUIRE_ACROSS_REMOVAL);
    BesideDetaches();
    LeaseAccounting(ACQUIRE_ACROSS_REMOVAL + [AcquireStarts(Shared)]);
  }
}
