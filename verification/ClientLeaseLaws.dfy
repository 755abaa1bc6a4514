/**
 * packages/client/src/client.ts: what each step of acquiring and releasing a session does, stated over the events and
 * the state before: when requests are sent, when handles come about, and that no map entry outlives its purpose.
 */
module ClientLeaseLaws {
  import opened Basics
  import opened ClientLeases

  // ---------------------------------------------------------------- acquiring

  /** The call whose acquisition goes on in this step, after any detachment it had to wait for. */
  function Continues(s: State, e: Event): Option<nat>
    requires TokensExist(s) && Enabled(s, e)
  {
    match e
    case AcquireStarts(mode) =>
      if ReserveToken(s, mode).Some? && s.detachment.None? then Some(|s.acquires|) else None
    case AcquireResumes(k) => if s.acquires[k].pc.AwaitDetachment? then Some(k) else None
    case _ => None
  }

  /** A reconciliation the call was waiting for has succeeded. */
  predicate Reconciled(s: State, e: Event)
    requires Enabled(s, e)
  {
    && e.AcquireResumes? && s.acquires[e.call].pc.AwaitReconciliation?
    && s.reconciles[s.acquires[e.call].pc.reconciliation].request == Fulfilled
  }

  /** The call goes on to attach: a reconciliation came first, or none was needed and the session is not attached. */
  predicate GoesToAttach(s: State, e: Event)
    requires TokensExist(s) && Enabled(s, e)
  {
    Reconciled(s, e) || (Continues(s, e).Some? && !s.slots.cleanupRequired && !s.attached)
  }

  /** An attach that the call was waiting for has succeeded. */
  predicate Attached(s: State, e: Event)
    requires Enabled(s, e)
  {
    && e.AcquireResumes? && s.acquires[e.call].pc.AwaitAttachment?
    && s.attaches[s.acquires[e.call].pc.attach] == Fulfilled
  }

  /** The token for which a handle comes about in this step. */
  function HandedOut(s: State, e: Event): Option<nat>
    requires TokensExist(s) && Enabled(s, e)
  {
    match e
    case CreateFinishes => if ReserveToken(s, Exclusive).Some? then Some(|s.tokens|) else None
    case AcquireStarts(_) =>
      if Continues(s, e).Some? && !s.slots.cleanupRequired && s.attached then Some(|s.tokens|) else None
    case AcquireResumes(k) =>
      if Attached(s, e) || (Continues(s, e).Some? && !s.slots.cleanupRequired && s.attached)
      then Some(s.acquires[k].token) else None
    case _ => None
  }

  /** A handle comes about exactly so, active, and of the generation that is current then. */
  lemma HandlesComeExactly(s: State, e: Event)
    requires TokensExist(s) && Enabled(s, e)
    ensures |Step(s, e).handles| == |s.handles| + if HandedOut(s, e).Some? then 1 else 0
    ensures HandedOut(s, e).Some? ==>
      && Step(s, e).handles == s.handles + [Handle(HandedOut(s, e).value, s.slots.generation, Active, Idle)]
  {
    match e {
      case AcquireStarts(mode) => if ReserveToken(s, mode).Some? { StartHandsOut(s, mode); }
      case AcquireResumes(k) => ResumeHandsOut(s, k);
      case _ =>
    }
  }

  lemma AfterReconcileHandsOut(s: State, k: nat, reconciled: bool)
    requires k < |s.acquires|
    ensures AfterReconcile(s, k, reconciled).handles ==
      if !reconciled && s.attached then s.handles + [Handle(s.acquires[k].token, s.slots.generation, Active, Idle)]
      else s.handles
  {
  }

  lemma AfterDetachmentHandsOut(s: State, k: nat)
    requires k < |s.acquires|
    ensures AfterDetachment(s, k).handles ==
      if !s.slots.cleanupRequired && s.attached
      then s.handles + [Handle(s.acquires[k].token, s.slots.generation, Active, Idle)]
      else s.handles
  {
    AfterReconcileHandsOut(s, k, false);
  }

  lemma StartHandsOut(s: State, mode: Mode)
    requires TokensExist(s) && ReserveToken(s, mode).Some?
    ensures StartAcquire(s, mode).handles ==
      match HandedOut(s, AcquireStarts(mode))
      case Some(token) => s.handles + [Handle(token, s.slots.generation, Active, Idle)]
      case None => s.handles
  {
    AfterDetachmentHandsOut(Reserving(s, mode), |s.acquires|);
  }

  /** The call has its token and runs on to its first await. */
  function Reserving(s: State, mode: Mode): State
    requires ReserveToken(s, mode).Some?
  {
    var t := ReserveToken(s, mode).value;
    t.(acquires := t.acquires + [Acquire(|s.tokens|, AwaitDetachment(s.detachment.GetOr(0)))])
  }

  lemma ResumeHandsOut(s: State, k: nat)
    requires TokensExist(s) && Enabled(s, AcquireResumes(k))
    ensures ResumeAcquire(s, k).handles ==
      match HandedOut(s, AcquireResumes(k))
      case Some(token) => s.handles + [Handle(token, s.slots.generation, Active, Idle)]
      case None => s.handles
  {
    match s.acquires[k].pc {
      case AwaitDetachment(_) => AfterDetachmentHandsOut(s, k);
      case AwaitReconciliation(_) => AfterReconcileHandsOut(s, k, true);
      case AwaitAttachment(_) =>
    }
  }

  /** One attach request is sent exactly when a call goes on to attach and none is registered. */
  lemma AttachIsSentExactly(s: State, e: Event)
    requires TokensExist(s) && Enabled(s, e)
    ensures |Step(s, e).attaches| == |s.attaches| + if GoesToAttach(s, e) && s.attachment.None? then 1 else 0
    ensures GoesToAttach(s, e) ==>
      Step(s, e).attachment == if s.attachment.Some? then s.attachment else Some(|s.attaches|)
  {
    match e {
      case AcquireStarts(mode) =>
        if ReserveToken(s, mode).Some? { AfterDetachmentSends(Reserving(s, mode), |s.acquires|); }
      case AcquireResumes(k) => ResumeSends(s, k);
      case _ =>
    }
  }

  /** One reconciling request is sent exactly when a call goes on, a cleanup is required, and none is registered. */
  lemma ReconcileIsSentExactly(s: State, e: Event)
    requires TokensExist(s) && Enabled(s, e)
    ensures |Step(s, e).reconciles| == |s.reconciles| +
      (if Continues(s, e).Some? && s.slots.cleanupRequired && s.reconciliation.None? then 1 else 0)
  {
    match e {
      case AcquireStarts(mode) =>
        if ReserveToken(s, mode).Some? { AfterDetachmentSends(Reserving(s, mode), |s.acquires|); }
      case AcquireResumes(k) => ResumeSends(s, k);
      case _ =>
    }
  }

  lemma AfterReconcileSends(s: State, k: nat, reconciled: bool)
    requires k < |s.acquires|
    ensures var t := AfterReconcile(s, k, reconciled);
      && |t.attaches| == |s.attaches| + (if (reconciled || !s.attached) && s.attachment.None? then 1 else 0)
      && ((reconciled || !s.attached) ==>
            t.attachment == if s.attachment.Some? then s.attachment else Some(|s.attaches|))
      && t.reconciles == s.reconciles
  {
  }

  lemma AfterDetachmentSends(s: State, k: nat)
    requires k < |s.acquires|
    ensures var t, attaches := AfterDetachment(s, k), !s.slots.cleanupRequired && !s.attached;
      && |t.attaches| == |s.attaches| + (if attaches && s.attachment.None? then 1 else 0)
      && (attaches ==> t.attachment == if s.attachment.Some? then s.attachment else Some(|s.attaches|))
      && |t.reconciles| ==
           |s.reconciles| + (if s.slots.cleanupRequired && s.reconciliation.None? then 1 else 0)
  {
    AfterReconcileSends(s, k, false);
  }

  lemma ResumeSends(s: State, k: nat)
    requires TokensExist(s) && Enabled(s, AcquireResumes(k))
    ensures var e, t := AcquireResumes(k), ResumeAcquire(s, k);
      && |t.attaches| == |s.attaches| + (if GoesToAttach(s, e) && s.attachment.None? then 1 else 0)
      && (GoesToAttach(s, e) ==> t.attachment == if s.attachment.Some? then s.attachment else Some(|s.attaches|))
      && |t.reconciles| == |s.reconciles| +
           (if Continues(s, e).Some? && s.slots.cleanupRequired && s.reconciliation.None? then 1 else 0)
  {
    match s.acquires[k].pc {
      case AwaitDetachment(_) => AfterDetachmentSends(s, k);
      case AwaitReconciliation(_) => AfterReconcileSends(s, k, true);
      case AwaitAttachment(_) =>
    }
  }

  // ---------------------------------------------------------------- releasing

  /** The handle may be released: it is active, and the client is connected. */
  predicate Releasable(s: State, h: nat)
    requires h < |s.handles|
  {
    && s.handles[h].state == Active && s.handles[h].generation == s.slots.generation
    && s.connected && s.attached
  }

  /** A detach request is sent exactly when a handle is released that may be, with one lease counted at most. */
  lemma DetachIsSentExactly(s: State, e: Event)
    requires TokensExist(s) && Enabled(s, e)
    ensures |Step(s, e).detaches| == |s.detaches| +
      (if e.ReleaseStarts? && Releasable(s, e.handle) && CountOf(s.slots) <= 1 then 1 else 0)
  {
    if e.AcquireStarts? || e.AcquireResumes? { AcquiringKeepsDetaches(s, e); }
  }

  lemma AcquiringKeepsDetaches(s: State, e: Event)
    requires TokensExist(s) && Enabled(s, e) && (e.AcquireStarts? || e.AcquireResumes?)
    ensures Step(s, e).detaches == s.detaches
  {
  }

  /** Where a handle stands after its release has begun, and after its detach request has come back. */
  lemma ReleaseEndsExactly(s: State, h: nat, relinquish: bool)
    requires TokensExist(s) && h < |s.handles|
    ensures var t := Step(s, ReleaseStarts(h, relinquish));
      && (Releasable(s, h) ==> t.handles[h].state == if CountOf(s.slots) <= 1 then Releasing else Released)
      && (!Releasable(s, h) && s.handles[h].generation == s.slots.generation ==> t.handles[h] == s.handles[h])
    ensures Enabled(s, ReleaseResumes(h)) ==>
      var t, ok := Step(s, ReleaseResumes(h)), s.detaches[s.handles[h].pc.detach] == Fulfilled;
      && (ok ==> t.handles[h].state == Released && t.handles[h].pc == Idle)
      && (!ok ==> t.handles[h].state == s.handles[h].state && t.handles[h].pc.Catching?)
    ensures Enabled(s, ReleaseCatches(h)) && s.handles[h].state == Releasing ==>
      var t, current := Step(s, ReleaseCatches(h)), s.handles[h].generation == s.slots.generation;
      && t.handles[h].pc == Idle
      && t.handles[h].state ==
           if !current then Gone else if s.handles[h].pc.relinquish then Released else Active
  {
  }

  /** A cleanup is required from a relinquishing release that failed until a reconciliation or the next generation. */
  lemma CleanupIsRequiredExactly(s: State, e: Event)
    requires TokensExist(s) && Enabled(s, e)
    ensures Step(s, e).slots.cleanupRequired <==>
      || (&& e.ReleaseCatches? && s.handles[e.handle].pc.relinquish
          && Refreshed(s, s.handles[e.handle]).state != Gone)
      || (&& s.slots.cleanupRequired && !e.SessionRemoved? && !e.Disconnect?
          && !(e.ReconcileCleans? && s.reconciles[e.reconciliation].request == Fulfilled))
  {
    if e.AcquireStarts? || e.AcquireResumes? { AcquiringKeepsCleanup(s, e); }
  }

  lemma AcquiringKeepsCleanup(s: State, e: Event)
    requires TokensExist(s) && Enabled(s, e) && (e.AcquireStarts? || e.AcquireResumes?)
    ensures Step(s, e).slots.cleanupRequired == s.slots.cleanupRequired
  {
  }

  /** Releasing a token lifts no exclusive lease but its own, so a late release lets no shared lease in beside it. */
  lemma ReleaseKeepsOthersExclusive(s: State, token: nat, other: nat)
    requires token < |s.tokens| && s.slots.exclusive == Some(other)
    ensures Release(s, token).slots.exclusive == if token == other then None else Some(other)
    ensures token != other ==> ReserveToken(Release(s, token), Shared).None?
  {
  }

  // ---------------------------------------------------------------- attachment and connection

  /** Whether the session is attached, as the server's answers and the connection decide. */
  lemma AttachedExactly(s: State, e: Event)
    requires TokensExist(s) && Enabled(s, e)
    ensures Step(s, e).attached <==>
      match e
      case AttachSettles(_, ok, attached) => if ok then attached else s.attached
      case DetachSettles(_, ok) => s.attached && !ok
      case ReconcileRequestSettles(_, ok) => s.attached && !ok
      case AttachmentChanges(attached) => attached
      case SessionRemoved => false
      case Connect => false
      case Disconnect => false
      case _ => s.attached
  {
    if e.AcquireStarts? || e.AcquireResumes? { AcquiringKeepsAttached(s, e); }
  }

  lemma AcquiringKeepsAttached(s: State, e: Event)
    requires TokensExist(s) && Enabled(s, e) && (e.AcquireStarts? || e.AcquireResumes?)
    ensures Step(s, e).attached == s.attached
  {
  }

  /** When the connection is lost nothing stays unanswered, so every call and release that waits can go on. */
  lemma DisconnectAnswersAll(s: State)
    requires TokensExist(s)
    ensures var t := Step(s, Disconnect);
      && !t.connected && Unsettled !in t.detaches && Unsettled !in t.attaches
      && forall r :: 0 <= r < |t.reconciles| ==> t.reconciles[r].request != Unsettled
  {
    var t := Step(s, Disconnect);
    forall d | 0 <= d < |t.detaches| ensures t.detaches[d] != Unsettled {}
    forall a | 0 <= a < |t.attaches| ensures t.attaches[a] != Unsettled {}
  }

  // ---------------------------------------------------------------- no map entry outlives its purpose

  ghost predicate Awaited(s: State, a: nat) {
    exists k :: 0 <= k < |s.acquires| && s.acquires[k].pc == AwaitAttachment(a)
  }

  ghost predicate Detaching(s: State, d: nat) {
    exists h :: 0 <= h < |s.handles| && s.handles[h].pc.AwaitDetach? && s.handles[h].pc.detach == d
  }

  /** Each entry of the three maps has someone who will take it out. */
  ghost predicate EntriesLive(s: State) {
    && (s.attachment.Some? ==> Awaited(s, s.attachment.value))
    && (s.detachment.Some? ==> Detaching(s, s.detachment.value))
    && (s.reconciliation.Some? ==>
          s.reconciliation.value < |s.reconciles| && s.reconciles[s.reconciliation.value].stage != Finished)
  }

  lemma SetPcKeepsAwaited(s: State, k: nat, pc: AcquirePc, a: nat)
    requires k < |s.acquires|
    ensures pc == AwaitAttachment(a) ==> Awaited(SetPc(s, k, pc), a)
    ensures Awaited(s, a) && s.acquires[k].pc != AwaitAttachment(a) ==> Awaited(SetPc(s, k, pc), a)
  {
    var t := SetPc(s, k, pc);
    if pc == AwaitAttachment(a) { assert t.acquires[k].pc == AwaitAttachment(a); }
    if Awaited(s, a) && s.acquires[k].pc != AwaitAttachment(a) {
      var j :| 0 <= j < |s.acquires| && s.acquires[j].pc == AwaitAttachment(a);
      assert t.acquires[j].pc == AwaitAttachment(a);
    }
  }

  lemma SameReleasesKeepDetaching(s: State, t: State)
    requires s.handles <= t.handles
    ensures forall d: nat :: Detaching(s, d) ==> Detaching(t, d)
  {
    forall d: nat | Detaching(s, d) ensures Detaching(t, d) {
      var h :| 0 <= h < |s.handles| && s.handles[h].pc.AwaitDetach? && s.handles[h].pc.detach == d;
      assert t.handles[h] == s.handles[h];
    }
  }

  lemma AfterReconcileKeepsEntries(s: State, k: nat, reconciled: bool)
    requires EntriesLive(s) && k < |s.acquires| && !s.acquires[k].pc.AwaitAttachment?
    ensures EntriesLive(AfterReconcile(s, k, reconciled))
  {
    var t := AfterReconcile(s, k, reconciled);
    if reconciled || !s.attached {
      if s.attachment.Some? {
        SetPcKeepsAwaited(s, k, AwaitAttachment(s.attachment.value), s.attachment.value);
      } else {
        assert t.acquires[k].pc == AwaitAttachment(|s.attaches|);
      }
    } else if s.attachment.Some? {
      SetPcKeepsAwaited(MakeHandle(s, s.acquires[k].token), k, Acquired, s.attachment.value);
    }
    SameReleasesKeepDetaching(s, t);
  }

  lemma AfterDetachmentKeepsEntries(s: State, k: nat)
    requires EntriesLive(s) && k < |s.acquires| && !s.acquires[k].pc.AwaitAttachment?
    ensures EntriesLive(AfterDetachment(s, k))
  {
    if s.slots.cleanupRequired {
      var t := AfterDetachment(s, k);
      if s.attachment.Some? {
        SetPcKeepsAwaited(s, k, t.acquires[k].pc, s.attachment.value);
        assert t.acquires == SetPc(s, k, t.acquires[k].pc).acquires;
      }
      SameReleasesKeepDetaching(s, t);
    } else {
      AfterReconcileKeepsEntries(s, k, false);
    }
  }

  lemma StartAcquireKeepsEntries(s: State, mode: Mode)
    requires EntriesLive(s)
    ensures EntriesLive(StartAcquire(s, mode))
  {
    if ReserveToken(s, mode).Some? {
      var u := Reserving(s, mode);
      if s.attachment.Some? {
        var k :| 0 <= k < |s.acquires| && s.acquires[k].pc == AwaitAttachment(s.attachment.value);
        assert u.acquires[k] == s.acquires[k];
      }
      SameReleasesKeepDetaching(s, u);
      if s.detachment.None? { AfterDetachmentKeepsEntries(u, |s.acquires|); }
    }
  }

  lemma ResumeAcquireKeepsEntries(s: State, k: nat)
    requires TokensExist(s) && EntriesLive(s) && Enabled(s, AcquireResumes(k))
    ensures EntriesLive(ResumeAcquire(s, k))
  {
    match s.acquires[k].pc {
      case AwaitDetachment(_) => AfterDetachmentKeepsEntries(s, k);
      case AwaitReconciliation(r) =>
        AfterReconcileKeepsEntries(s, k, true);
        FailKeepsEntries(s, k);
      case AwaitAttachment(a) =>
        var t := if s.attachment == Some(a) then s.(attachment := None) else s;
        FinishKeepsEntries(t, k);
        FailKeepsEntries(t, k);
    }
  }

  lemma FinishKeepsEntries(s: State, k: nat)
    requires k < |s.acquires|
    requires s.detachment.Some? ==> Detaching(s, s.detachment.value)
    requires s.reconciliation.Some? ==>
      s.reconciliation.value < |s.reconciles| && s.reconciles[s.reconciliation.value].stage != Finished
    requires s.attachment.Some? ==>
      Awaited(s, s.attachment.value) && s.acquires[k].pc != AwaitAttachment(s.attachment.value)
    ensures EntriesLive(FinishAcquire(s, k))
  {
    SameReleasesKeepDetaching(s, FinishAcquire(s, k));
    if s.attachment.Some? { SetPcKeepsAwaited(MakeHandle(s, s.acquires[k].token), k, Acquired, s.attachment.value); }
  }

  lemma FailKeepsEntries(s: State, k: nat)
    requires k < |s.acquires| && s.acquires[k].token < |s.tokens|
    requires s.detachment.Some? ==> Detaching(s, s.detachment.value)
    requires s.reconciliation.Some? ==>
      s.reconciliation.value < |s.reconciles| && s.reconciles[s.reconciliation.value].stage != Finished
    requires s.attachment.Some? ==>
      Awaited(s, s.attachment.value) && s.acquires[k].pc != AwaitAttachment(s.attachment.value)
    ensures EntriesLive(FailAcquire(s, k))
  {
    SameReleasesKeepDetaching(s, FailAcquire(s, k));
    if s.attachment.Some? { SetPcKeepsAwaited(Release(s, s.acquires[k].token), k, AcquireFailed, s.attachment.value); }
  }

  /** One handle changes; only it can stop waiting for a detach request. */
  lemma HandleChangeKeepsDetaching(s: State, t: State, h: nat, d: nat)
    requires h < |s.handles| && |t.handles| == |s.handles| && Detaching(s, d)
    requires forall g :: 0 <= g < |s.handles| && g != h ==> t.handles[g] == s.handles[g]
    requires s.handles[h].pc.AwaitDetach? && s.handles[h].pc.detach == d ==> t.handles[h].pc == s.handles[h].pc
    ensures Detaching(t, d)
  {
    var g :| 0 <= g < |s.handles| && s.handles[g].pc.AwaitDetach? && s.handles[g].pc.detach == d;
    assert t.handles[g].pc == s.handles[g].pc;
  }

  lemma StartReleaseKeepsEntries(s: State, h: nat, relinquish: bool)
    requires HoldersValid(s) && EntriesLive(s) && h < |s.handles|
    ensures EntriesLive(StartRelease(s, h, relinquish))
  {
    var t := StartRelease(s, h, relinquish);
    assert HandleValid(s, s.handles[h]);
    if s.attachment.Some? { assert Awaited(t, s.attachment.value) by { assert t.acquires == s.acquires; } }
    if t.detachment != s.detachment {
      assert t.handles[h].pc == AwaitDetach(|s.detaches|, relinquish);
    } else if s.detachment.Some? {
      HandleChangeKeepsDetaching(s, t, h, s.detachment.value);
    }
  }

  lemma ResumeReleaseKeepsEntries(s: State, h: nat)
    requires TokensExist(s) && EntriesLive(s) && Enabled(s, ReleaseResumes(h))
    ensures EntriesLive(ResumeRelease(s, h))
  {
    ResumeReleaseKeepsRequests(s, h);
    OneHandleKeepsEntries(s, ResumeRelease(s, h), h);
  }

  /** Nothing but one handle and the detachment has changed, and that handle was not the one to end it. */
  lemma OneHandleKeepsEntries(s: State, t: State, h: nat)
    requires EntriesLive(s) && SameRequests(s, t) && h < |s.handles| && |t.handles| == |s.handles|
    requires forall g :: 0 <= g < |s.handles| && g != h ==> t.handles[g] == s.handles[g]
    requires t.detachment.Some? ==> t.detachment == s.detachment
    requires t.detachment.Some? ==>
      !(s.handles[h].pc.AwaitDetach? && t.detachment == Some(s.handles[h].pc.detach))
    ensures EntriesLive(t)
  {
    if s.attachment.Some? { assert Awaited(t, s.attachment.value); }
    if t.detachment.Some? { HandleChangeKeepsDetaching(s, t, h, t.detachment.value); }
  }

  lemma CatchReleaseKeepsEntries(s: State, h: nat)
    requires TokensExist(s) && EntriesLive(s) && Enabled(s, ReleaseCatches(h))
    ensures EntriesLive(CatchRelease(s, h))
  {
    CatchReleaseKeepsRequests(s, h);
    OneHandleKeepsEntries(s, CatchRelease(s, h), h);
  }

  lemma StepKeepsEntries(s: State, e: Event)
    requires HoldersValid(s) && FlightsValid(s) && EntriesLive(s) && Enabled(s, e)
    ensures EntriesLive(Step(s, e))
  {
    match e {
      case AcquireStarts(mode) => StartAcquireKeepsEntries(s, mode);
      case AcquireResumes(k) => ResumeAcquireKeepsEntries(s, k);
      case ReleaseStarts(h, relinquish) => StartReleaseKeepsEntries(s, h, relinquish);
      case ReleaseResumes(h) => ResumeReleaseKeepsEntries(s, h);
      case ReleaseCatches(h) => CatchReleaseKeepsEntries(s, h);
      case _ => OthersKeepEntries(s, e);
    }
  }

  lemma OthersKeepEntries(s: State, e: Event)
    requires TokensExist(s) && EntriesLive(s) && Enabled(s, e)
    requires !e.AcquireStarts? && !e.AcquireResumes? && !e.ReleaseStarts? && !e.ReleaseResumes? && !e.ReleaseCatches?
    ensures EntriesLive(Step(s, e))
  {
    var t := Step(s, e);
    assert t.acquires == s.acquires && s.handles <= t.handles;
    SameReleasesKeepDetaching(s, t);
    if s.attachment.Some? { assert Awaited(t, s.attachment.value); }
  }

  lemma {:induction false} RunKeepsEntries(s: State, events: seq<Event>)
    requires HoldersValid(s) && FlightsValid(s) && EntriesLive(s) && IsRun(s, events)
    ensures EntriesLive(Run(s, events))
    decreases |events|
  {
    if events != [] {
      StepKeepsHolders(s, events[0]);
      StepKeepsFlights(s, events[0]);
      StepKeepsEntries(s, events[0]);
      RunKeepsEntries(Step(s, events[0]), events[1..]);
    }
  }

  /**
   * In every run, an attach is registered only while some call waits for it, a detach only while some handle does,
   * and a reconciliation only until it has finished; with nobody waiting, nothing stays registered.
   */
  lemma EntriesAreTemporary(events: seq<Event>)
    requires IsRun(INITIAL, events)
    ensures EntriesLive(Run(INITIAL, events))
  {
    InitialIsValid();
    RunKeepsEntries(INITIAL, events);
  }
}
