/**
 * packages/ai/src/models.ts: refresh generations, abort controllers and the publication chain of one
 * provider. Each event is one stretch of code between two awaits; any interleaving of them is a run.
 */
module CatalogRefresh {
  import opened Basics

  type Catalog = int  // the content of a model list; nothing depends on what it is

  datatype Persist = Keep | Delete | Write(catalog: Catalog)

  /** Where one call of `publishProviderModels` stands. */
  datatype Phase = Waiting | Mutating | Settled

  /** `previous` is the chain tail the call found, if any; `refresh` names the refresh whose signal it holds. */
  datatype Publication = Publication(
    refresh: nat, persist: Persist, update: Option<Catalog>, previous: Option<nat>, phase: Phase)

  /** One pass of `refresh` over the provider. `aborted` is the state of its combined signal. */
  datatype Refresh = Refresh(generation: nat, aborted: bool)

  /** A value in the persistent or in the in-memory store, and the generation that put it there. */
  datatype Stamped = Stamped(generation: nat, catalog: Option<Catalog>)

  /** The provider's entries in refreshGenerations, refreshControllers and publicationChains. */
  datatype Slots = Slots(generation: nat, controller: Option<nat>, chain: Option<nat>)

  datatype State = State(
    slots: Slots,
    refreshes: seq<Refresh>,
    publications: seq<Publication>,
    stored: Option<Stamped>,    // modelsStore
    current: Option<Stamped>,   // the provider's in-memory list
    started: seq<nat>,          // generations of the store mutations begun so far, in order
    applied: seq<nat>)          // generations of the in-memory updates applied so far, in order

  const INITIAL := State(Slots(0, None, None), [], [], None, None, [], [])

  datatype Event =
    | Supersede                                                    // setProvider, deleteProvider, clearProviders
    | Begin                                                        // beginProviderRefresh
    | CallerAborts(refresh: nat)
    | Finish(refresh: nat)                                         // the finally block of refresh
    | Publish(refresh: nat, persist: Persist, update: Option<Catalog>)
    | Resume(publication: nat)                                     // the previous tail has settled
    | MutationSettles(publication: nat, landed: bool, ok: bool)    // the store call returns or throws
    | TailSettles(publication: nat)                                // tail.then

  /** `supersedeProviderRefresh` on the maps. */
  function Superseded(slots: Slots): Slots {
    slots.(generation := slots.generation + 1, controller := None)
  }

  function Abort(refreshes: seq<Refresh>, r: nat): seq<Refresh>
    requires r < |refreshes|
  {
    refreshes[r := refreshes[r].(aborted := true)]
  }

  /** The guard a publication checks twice: its signal is live and its generation is the newest. */
  predicate MayProceed(s: State, k: nat)
    requires k < |s.publications| && s.publications[k].refresh < |s.refreshes|
  {
    var r := s.refreshes[s.publications[k].refresh];
    !r.aborted && s.slots.generation == r.generation
  }

  function SetPhase(s: State, k: nat, phase: Phase): State
    requires k < |s.publications|
  {
    s.(publications := s.publications[k := s.publications[k].(phase := phase)])
  }

  function GenerationOf(s: State, k: nat): nat
    requires k < |s.publications| && s.publications[k].refresh < |s.refreshes|
  {
    s.refreshes[s.publications[k].refresh].generation
  }

  /** `publication.update?.()` and the settling of the promise. */
  function Apply(s: State, k: nat): State
    requires k < |s.publications| && s.publications[k].refresh < |s.refreshes|
  {
    var update, g := s.publications[k].update, GenerationOf(s, k);
    if update.None? then SetPhase(s, k, Settled)
    else SetPhase(s, k, Settled).(current := Some(Stamped(g, update)), applied := s.applied + [g])
  }

  function Start(s: State, k: nat): State
    requires k < |s.publications| && s.publications[k].refresh < |s.refreshes|
  {
    SetPhase(s, k, Mutating).(started := s.started + [GenerationOf(s, k)])
  }

  /** The effect of a store call, at whatever moment before it settles it takes place. */
  function Land(s: State, k: nat): State
    requires k < |s.publications| && s.publications[k].refresh < |s.refreshes|
  {
    var persist := s.publications[k].persist;
    s.(stored := Some(Stamped(GenerationOf(s, k), if persist.Write? then Some(persist.catalog) else None)))
  }

  predicate PreviousSettled(s: State, k: nat)
    requires k < |s.publications|
  {
    match s.publications[k].previous
    case None => true
    case Some(j) => j < |s.publications| && s.publications[j].phase == Settled
  }

  predicate WellFormed(s: State) {
    && (s.slots.controller.Some? ==> s.slots.controller.value < |s.refreshes|)
    && (forall k :: 0 <= k < |s.publications| ==> s.publications[k].refresh < |s.refreshes|)
  }

  predicate Enabled(s: State, e: Event)
    requires WellFormed(s)
  {
    match e
    case Supersede => true
    case Begin => true
    case CallerAborts(r) => r < |s.refreshes|
    case Finish(r) => r < |s.refreshes|
    case Publish(r, _, _) => r < |s.refreshes|
    case Resume(k) => k < |s.publications| && s.publications[k].phase == Waiting && PreviousSettled(s, k)
    case MutationSettles(k, _, _) => k < |s.publications| && s.publications[k].phase == Mutating
    case TailSettles(k) => k < |s.publications| && s.publications[k].phase == Settled
  }

  function SupersedeStep(s: State): State
    requires WellFormed(s)
  {
    s.(slots := Superseded(s.slots),
       refreshes := if s.slots.controller.Some? then Abort(s.refreshes, s.slots.controller.value) else s.refreshes)
  }

  function Step(s: State, e: Event): State
    requires WellFormed(s) && Enabled(s, e)
  {
    match e
    case Supersede => SupersedeStep(s)
    case Begin =>
      var t := SupersedeStep(s);
      t.(refreshes := t.refreshes + [Refresh(t.slots.generation, false)],
         slots := t.slots.(controller := Some(|t.refreshes|)))
    case CallerAborts(r) => s.(refreshes := Abort(s.refreshes, r))
    case Finish(r) =>
      if s.slots.controller == Some(r) then s.(slots := s.slots.(controller := None)) else s
    case Publish(r, persist, update) =>
      s.(publications := s.publications + [Publication(r, persist, update, s.slots.chain, Waiting)],
         slots := s.slots.(chain := Some(|s.publications|)))
    case Resume(k) =>
      if !MayProceed(s, k) then SetPhase(s, k, Settled)
      else if s.publications[k].persist == Keep then Apply(s, k)
      else Start(s, k)
    case MutationSettles(k, landed, ok) =>
      var t := if landed then Land(s, k) else s;
      if ok && MayProceed(s, k) then Apply(t, k) else SetPhase(t, k, Settled)
    case TailSettles(k) =>
      if s.slots.chain == Some(k) then s.(slots := s.slots.(chain := None)) else s
  }

  // ---------------------------------------------------------------- what every step keeps

  /** Each refresh has its own generation, and the registered controller belongs to the newest one. */
  ghost predicate RefreshesValid(s: State) {
    && WellFormed(s)
    && (forall r :: 0 <= r < |s.refreshes| ==> s.refreshes[r].generation <= s.slots.generation)
    && (forall q, r :: 0 <= q < r < |s.refreshes| ==> s.refreshes[q].generation < s.refreshes[r].generation)
    && (s.slots.controller.Some? ==>
          && s.slots.controller.value == |s.refreshes| - 1
          && s.refreshes[s.slots.controller.value].generation == s.slots.generation)
  }

  ghost predicate Blocked(pubs: seq<Publication>, i: nat, j: nat)
    requires i < j < |pubs|
  {
    && pubs[j].phase == Waiting
    && pubs[j].previous.Some?
    && i <= pubs[j].previous.value < j
    && pubs[pubs[j].previous.value].phase != Settled
  }

  /** An unsettled publication keeps every later one waiting. */
  ghost predicate Serial(pubs: seq<Publication>) {
    forall i, j :: 0 <= i < j < |pubs| && pubs[i].phase != Settled ==> Blocked(pubs, i, j)
  }

  /** The chain entry is the last publication, and is gone only when all have settled. */
  ghost predicate ChainValid(s: State) {
    match s.slots.chain
    case Some(t) => t == |s.publications| - 1
    case None => forall i :: 0 <= i < |s.publications| ==> s.publications[i].phase == Settled
  }

  ghost predicate NonDecreasing(gs: seq<nat>, bound: nat) {
    && (forall i :: 0 <= i < |gs| ==> gs[i] <= bound)
    && (forall i, j :: 0 <= i < j < |gs| ==> gs[i] <= gs[j])
  }

  /** Mutations start and updates apply in generation order; the stores hold no later generation than that. */
  ghost predicate OrderValid(s: State)
    requires WellFormed(s)
  {
    && NonDecreasing(s.started, s.slots.generation)
    && NonDecreasing(s.applied, s.slots.generation)
    && (s.stored.Some? ==> s.started != [] && s.stored.value.generation <= s.started[|s.started| - 1])
    && (s.current.Some? ==> s.applied != [] && s.current.value.generation == s.applied[|s.applied| - 1])
    && (forall k :: 0 <= k < |s.publications| && s.publications[k].phase == Mutating ==>
          s.started != [] && s.started[|s.started| - 1] == GenerationOf(s, k))
  }

  ghost predicate Inv(s: State) {
    RefreshesValid(s) && Serial(s.publications) && ChainValid(s) && OrderValid(s)
  }

  lemma SupersedeKeepsRefreshes(s: State)
    requires RefreshesValid(s)
    ensures RefreshesValid(SupersedeStep(s)) && |SupersedeStep(s).refreshes| == |s.refreshes|
  {
  }

  lemma StepKeepsRefreshes(s: State, e: Event)
    requires RefreshesValid(s) && Enabled(s, e)
    ensures RefreshesValid(Step(s, e))
  {
    match e {
      case Supersede => SupersedeKeepsRefreshes(s);
      case Begin => SupersedeKeepsRefreshes(s); BeginKeepsRefreshes(SupersedeStep(s), Step(s, Begin));
      case CallerAborts(_) =>
      case Finish(_) =>
      case _ => PublicationsKeepRefreshes(s, e);
    }
  }

  lemma PublicationsKeepRefreshes(s: State, e: Event)
    requires RefreshesValid(s) && Enabled(s, e)
    requires e.Publish? || e.Resume? || e.MutationSettles? || e.TailSettles?
    ensures RefreshesValid(Step(s, e))
  {
    var t := Step(s, e);
    assert t.refreshes == s.refreshes && t.slots.controller == s.slots.controller;
    assert forall k :: 0 <= k < |s.publications| ==> t.publications[k].refresh == s.publications[k].refresh;
  }

  lemma BeginKeepsRefreshes(s: State, t: State)
    requires RefreshesValid(s) && forall r :: 0 <= r < |s.refreshes| ==> s.refreshes[r].generation < s.slots.generation
    requires t == s.(refreshes := s.refreshes + [Refresh(s.slots.generation, false)],
                     slots := s.slots.(controller := Some(|s.refreshes|)))
    ensures RefreshesValid(t)
  {
  }

  lemma EarlierAreSettled(pubs: seq<Publication>, k: nat)
    requires Serial(pubs) && k < |pubs|
    requires pubs[k].phase == Waiting ==>
      match pubs[k].previous case None => true case Some(j) => j < |pubs| && pubs[j].phase == Settled
    ensures forall i :: 0 <= i < k ==> pubs[i].phase == Settled
  {
    forall i | 0 <= i < k ensures pubs[i].phase == Settled {
      assert pubs[i].phase != Settled ==> Blocked(pubs, i, k);
    }
  }

  lemma NothingBefore(s: State, k: nat)
    requires Serial(s.publications) && k < |s.publications| && s.publications[k].phase != Settled
    requires s.publications[k].phase == Waiting ==> PreviousSettled(s, k)
    ensures forall i :: 0 <= i < k ==> s.publications[i].phase == Settled
    ensures forall i :: k < i < |s.publications| ==> s.publications[i].phase == Waiting
  {
    EarlierAreSettled(s.publications, k);
    forall i | k < i < |s.publications| ensures s.publications[i].phase == Waiting {
      assert Blocked(s.publications, k, i);
    }
  }

  lemma SetPhaseKeepsSerial(s: State, k: nat, phase: Phase)
    requires Serial(s.publications) && ChainValid(s) && k < |s.publications| && s.publications[k].phase != Settled
    requires s.publications[k].phase == Waiting ==> PreviousSettled(s, k)
    ensures Serial(SetPhase(s, k, phase).publications) || phase == Waiting
    ensures ChainValid(SetPhase(s, k, phase))
  {
    NothingBefore(s, k);
    var t := SetPhase(s, k, phase);
    if phase != Waiting {
      forall i, j | 0 <= i < j < |t.publications| && t.publications[i].phase != Settled
        ensures Blocked(t.publications, i, j)
      {
        assert Blocked(s.publications, i, j);
      }
    }
  }

  lemma StepKeepsSerial(s: State, e: Event)
    requires Inv(s) && Enabled(s, e)
    ensures Serial(Step(s, e).publications) && ChainValid(Step(s, e))
  {
    match e {
      case Resume(k) => ResumeKeepsSerial(s, k);
      case MutationSettles(k, landed, ok) => MutationKeepsSerial(s, k, landed, ok);
      case Publish(r, persist, update) =>
        PublishKeepsSerial(s, Publication(r, persist, update, s.slots.chain, Waiting));
      case TailSettles(k) => EarlierAreSettled(s.publications, k);
      case _ =>
    }
  }

  lemma ResumeKeepsSerial(s: State, k: nat)
    requires Inv(s) && Enabled(s, Resume(k))
    ensures Serial(Step(s, Resume(k)).publications) && ChainValid(Step(s, Resume(k)))
  {
    SetPhaseKeepsSerial(s, k, Step(s, Resume(k)).publications[k].phase);
  }

  lemma MutationKeepsSerial(s: State, k: nat, landed: bool, ok: bool)
    requires Inv(s) && Enabled(s, MutationSettles(k, landed, ok))
    ensures var t := Step(s, MutationSettles(k, landed, ok)); Serial(t.publications) && ChainValid(t)
  {
    SetPhaseKeepsSerial(s, k, Settled);
  }

  lemma PublishKeepsSerial(s: State, publication: Publication)
    requires Serial(s.publications) && ChainValid(s)
    requires publication.previous == s.slots.chain && publication.phase == Waiting
    ensures Serial(s.publications + [publication])
  {
    var pubs := s.publications + [publication];
    forall i, j | 0 <= i < j < |pubs| && pubs[i].phase != Settled ensures Blocked(pubs, i, j) {
      if j < |s.publications| {
        assert Blocked(s.publications, i, j);
      } else if i < j - 1 {
        assert Blocked(s.publications, i, j - 1);
      }
    }
  }

  /** What the two log-writing operations and a landing store call do to the order. */
  lemma StartKeepsOrder(s: State, k: nat)
    requires Inv(s) && k < |s.publications| && s.publications[k].phase == Waiting
    requires PreviousSettled(s, k) && MayProceed(s, k)
    ensures OrderValid(Start(s, k)) && NoOlder(s.stored, Start(s, k).stored)
  {
    NothingBefore(s, k);
  }

  lemma ApplyKeepsOrder(s: State, k: nat)
    requires WellFormed(s) && OrderValid(s) && k < |s.publications| && MayProceed(s, k)
    ensures OrderValid(Apply(s, k)) && NoOlder(s.current, Apply(s, k).current)
  {
    SettleKeepsOrder(s, k);
    var t := Apply(s, k);
    if s.publications[k].update.Some? {
      SnocNonDecreasing(s.applied, s.slots.generation);
    }
  }

  lemma SnocNonDecreasing(gs: seq<nat>, bound: nat)
    requires NonDecreasing(gs, bound)
    ensures NonDecreasing(gs + [bound], bound)
  {
  }

  lemma LandKeepsOrder(s: State, k: nat)
    requires WellFormed(s) && OrderValid(s) && k < |s.publications| && s.publications[k].phase == Mutating
    ensures OrderValid(Land(s, k)) && NoOlder(s.stored, Land(s, k).stored)
  {
  }

  lemma SettleKeepsOrder(s: State, k: nat)
    requires WellFormed(s) && OrderValid(s) && k < |s.publications|
    ensures OrderValid(SetPhase(s, k, Settled))
  {
  }

  /**
   * The persistent and the in-memory store never go back to an older generation, and the logs of
   * started mutations and applied updates stay in generation order.
   */
  lemma StepKeepsOrder(s: State, e: Event)
    requires Inv(s) && Enabled(s, e)
    ensures WellFormed(Step(s, e)) && OrderValid(Step(s, e))
    ensures NoOlder(s.stored, Step(s, e).stored) && NoOlder(s.current, Step(s, e).current)
  {
    StepKeepsRefreshes(s, e);
    match e {
      case Resume(k) => ResumeKeepsOrder(s, k);
      case MutationSettles(k, landed, ok) => MutationKeepsOrder(s, k, landed, ok);
      case Publish(r, persist, update) => PublishKeepsOrder(s, r, persist, update);
      case _ => SlotsKeepOrder(s, Step(s, e));
    }
  }

  lemma ResumeKeepsOrder(s: State, k: nat)
    requires Inv(s) && Enabled(s, Resume(k))
    ensures var t := Step(s, Resume(k));
      WellFormed(t) && OrderValid(t) && NoOlder(s.current, t.current) && s.stored == t.stored
  {
    if !MayProceed(s, k) {
      SettleKeepsOrder(s, k);
    } else if s.publications[k].persist == Keep {
      ApplyKeepsOrder(s, k);
    } else {
      StartKeepsOrder(s, k);
    }
  }

  lemma MutationKeepsOrder(s: State, k: nat, landed: bool, ok: bool)
    requires WellFormed(s) && OrderValid(s) && Enabled(s, MutationSettles(k, landed, ok))
    ensures var t := Step(s, MutationSettles(k, landed, ok));
      WellFormed(t) && OrderValid(t) && NoOlder(s.current, t.current) && NoOlder(s.stored, t.stored)
  {
    if landed {
      LandKeepsOrder(s, k);
      ReturnKeepsOrder(Land(s, k), k, ok && MayProceed(s, k));
    } else {
      ReturnKeepsOrder(s, k, ok && MayProceed(s, k));
    }
  }

  /** A store call returns: the update is applied, or the publication ends without it. */
  lemma ReturnKeepsOrder(s: State, k: nat, applies: bool)
    requires WellFormed(s) && OrderValid(s) && k < |s.publications| && s.publications[k].phase == Mutating
    requires applies ==> MayProceed(s, k)
    ensures var t := if applies then Apply(s, k) else SetPhase(s, k, Settled);
      WellFormed(t) && OrderValid(t) && NoOlder(s.current, t.current) && t.stored == s.stored
  {
    if applies {
      ApplyKeepsOrder(s, k);
    } else {
      SettleKeepsOrder(s, k);
    }
  }

  lemma PublishKeepsOrder(s: State, r: nat, persist: Persist, update: Option<Catalog>)
    requires WellFormed(s) && OrderValid(s) && r < |s.refreshes|
    ensures var t := Step(s, Publish(r, persist, update)); WellFormed(t) && OrderValid(t)
  {
  }

  lemma SlotsKeepOrder(s: State, t: State)
    requires WellFormed(s) && OrderValid(s) && WellFormed(t)
    requires t.(slots := s.slots, refreshes := s.refreshes) == s && t.slots.generation >= s.slots.generation
    requires |t.refreshes| >= |s.refreshes|
    requires forall r :: 0 <= r < |s.refreshes| ==> t.refreshes[r].generation == s.refreshes[r].generation
    ensures OrderValid(t)
  {
    assert forall k :: 0 <= k < |s.publications| ==> GenerationOf(t, k) == GenerationOf(s, k);
  }

  /** What `publishProviderModels` lets through: only a live refresh of the newest generation starts or applies. */
  lemma OnlyTheNewestPublishes(s: State, e: Event)
    requires RefreshesValid(s) && Enabled(s, e)
    ensures var t := Step(s, e);
      && (t.started != s.started || t.applied != s.applied ==>
            exists k :: 0 <= k < |s.publications| && MayProceed(s, k)
              && (e == Resume(k) || (e.MutationSettles? && e.publication == k)))
      && (t.started == s.started || t.started == s.started + [s.slots.generation])
      && (t.applied == s.applied || t.applied == s.applied + [s.slots.generation])
      && (t.stored != s.stored ==> e.MutationSettles? && e.landed)
      && (t.current != s.current ==> t.current.Some? && t.current.value.generation == s.slots.generation)
  {
    match e {
      case Resume(k) =>
      case MutationSettles(k, _, _) =>
      case _ =>
    }
  }

  ghost predicate NoOlder(before: Option<Stamped>, after: Option<Stamped>) {
    before.Some? ==> after.Some? && before.value.generation <= after.value.generation
  }

  lemma StepKeepsInv(s: State, e: Event)
    requires Inv(s) && Enabled(s, e)
    ensures Inv(Step(s, e))
    ensures NoOlder(s.stored, Step(s, e).stored) && NoOlder(s.current, Step(s, e).current)
  {
    StepKeepsRefreshes(s, e);
    StepKeepsSerial(s, e);
    StepKeepsOrder(s, e);
  }

  // ---------------------------------------------------------------- every run

  /** The event sequences the code can produce from `s`. */
  ghost predicate IsRun(s: State, events: seq<Event>)
    decreases |events|
  {
    WellFormed(s) && (events != [] ==> Enabled(s, events[0]) && IsRun(Step(s, events[0]), events[1..]))
  }

  ghost function Run(s: State, events: seq<Event>): (t: State)
    requires IsRun(s, events)
    ensures WellFormed(t)
    decreases |events|
  {
    if events == [] then s else Run(Step(s, events[0]), events[1..])
  }

  lemma {:induction false} RunKeepsInv(s: State, events: seq<Event>)
    requires Inv(s) && IsRun(s, events)
    ensures Inv(Run(s, events))
    ensures NoOlder(s.stored, Run(s, events).stored) && NoOlder(s.current, Run(s, events).current)
    decreases |events|
  {
    if events != [] {
      StepKeepsInv(s, events[0]);
      RunKeepsInv(Step(s, events[0]), events[1..]);
    }
  }

  /**
   * In every run: publications run one at a time, store mutations start and updates apply in generation
   * order, and a registered controller belongs to the newest generation. From any point on, neither
   * store is overwritten by an older generation.
   */
  lemma NoStaleCatalog(before: seq<Event>, after: seq<Event>)
    requires IsRun(INITIAL, before) && IsRun(Run(INITIAL, before), after)
    ensures var s, t := Run(INITIAL, before), Run(Run(INITIAL, before), after);
      && NoOlder(s.stored, t.stored) && NoOlder(s.current, t.current)
      && (forall i, j :: 0 <= i < j < |t.publications| ==>
            t.publications[i].phase != Mutating || t.publications[j].phase != Mutating)
      && (forall i, j :: 0 <= i < j < |t.started| ==> t.started[i] <= t.started[j])
      && (forall i, j :: 0 <= i < j < |t.applied| ==> t.applied[i] <= t.applied[j])
      && (t.slots.controller.Some? ==>
            && t.slots.controller.value < |t.refreshes|
            && t.refreshes[t.slots.controller.value].generation == t.slots.generation)
  {
    RunKeepsInv(INITIAL, before);
    RunKeepsInv(Run(INITIAL, before), after);
    var t := Run(Run(INITIAL, before), after);
    forall i, j | 0 <= i < j < |t.publications| && t.publications[i].phase == Mutating
      ensures t.publications[j].phase != Mutating
    {
      assert Blocked(t.publications, i, j);
    }
  }

  // ---------------------------------------------------------------- what is published

  /** The publication's refresh has not been aborted and no later one has begun. */
  predicate IsNewestLive(s: State, k: nat)
    requires WellFormed(s) && k < |s.publications|
  {
    var r := s.refreshes[s.publications[k].refresh];
    !r.aborted && r.generation == s.slots.generation
  }

  /** The event is the last await of publication k returning without error: the store call, or the wait before none. */
  predicate Concludes(s: State, e: Event, k: nat)
    requires k < |s.publications|
  {
    (e.MutationSettles? && e.publication == k && e.ok) || (e == Resume(k) && s.publications[k].persist == Keep)
  }

  predicate AppliesNow(s: State, e: Event, k: int)
    requires WellFormed(s)
  {
    0 <= k < |s.publications| && Concludes(s, e, k) && IsNewestLive(s, k) && s.publications[k].update.Some?
  }

  /**
   * An update is applied if and only if the last await of its publication has returned without error, its refresh is
   * live and newest, and there is an update; the list is then exactly that update.
   */
  lemma AppliesExactly(s: State, e: Event)
    requires WellFormed(s) && Enabled(s, e)
    ensures var t := Step(s, e);
      && (t.applied == s.applied || t.applied == s.applied + [s.slots.generation])
      && (t.applied != s.applied <==> exists k :: AppliesNow(s, e, k))
      && (t.applied == s.applied ==> t.current == s.current)
      && forall k :: 0 <= k < |s.publications| && Concludes(s, e, k) && t.applied != s.applied ==>
            t.current == Some(Stamped(s.slots.generation, s.publications[k].update))
  {
    if e.Resume? || e.MutationSettles? {
      var k := e.publication;
      assert forall j :: AppliesNow(s, e, j) ==> j == k;
      assert Step(s, e).applied != s.applied <==> AppliesNow(s, e, k);
    }
  }

  /** A mutation of the store begins if and only if a publication that has one is resumed, live and newest. */
  lemma StartsExactly(s: State, e: Event)
    requires WellFormed(s) && Enabled(s, e)
    ensures var t := Step(s, e);
      && (t.started == s.started || t.started == s.started + [s.slots.generation])
      && (t.started != s.started <==>
            e.Resume? && s.publications[e.publication].persist != Keep && IsNewestLive(s, e.publication))
  {
  }

  /** Only publications that write or delete are ever in the middle of a store call. */
  ghost predicate MutatingValid(s: State) {
    forall k :: 0 <= k < |s.publications| && s.publications[k].phase == Mutating ==> s.publications[k].persist != Keep
  }

  lemma StepKeepsMutating(s: State, e: Event)
    requires WellFormed(s) && Enabled(s, e) && MutatingValid(s)
    ensures MutatingValid(Step(s, e))
  {
  }

  /** The store holds what a refresh of this generation has written, or nothing after it has deleted. */
  predicate Holds(stored: Option<Stamped>, generation: nat, persist: Persist) {
    match persist
    case Write(catalog) => stored == Some(Stamped(generation, Some(catalog)))
    case Delete => stored == Some(Stamped(generation, None))
    case Keep => false
  }

  /** The store changes if and only if a store call lands, and then holds what was written, or nothing. */
  lemma StoresExactly(s: State, e: Event)
    requires WellFormed(s) && MutatingValid(s) && Enabled(s, e)
    ensures var t := Step(s, e);
      && (!(e.MutationSettles? && e.landed) ==> t.stored == s.stored)
      && (e.MutationSettles? && e.landed ==>
            Holds(t.stored, GenerationOf(s, e.publication), s.publications[e.publication].persist))
  {
  }

  /** A publication ends when it is turned away, when it has nothing to store, and when its store call has returned. */
  lemma SettlesExactly(s: State, e: Event, k: nat)
    requires WellFormed(s) && Enabled(s, e) && k < |s.publications| && s.publications[k].phase != Settled
    ensures k < |Step(s, e).publications|
    ensures Step(s, e).publications[k].phase == Settled <==>
      || (e.MutationSettles? && e.publication == k)
      || (e == Resume(k) && (!IsNewestLive(s, k) || s.publications[k].persist == Keep))
    ensures Step(s, e).publications[k].phase == Mutating <==>
      || (s.publications[k].phase == Mutating && !(e.MutationSettles? && e.publication == k))
      || (e == Resume(k) && IsNewestLive(s, k) && s.publications[k].persist != Keep)
  {
  }

  /** Superseding aborts the registered refresh and makes every earlier one an old one; nothing else does. */
  lemma SupersedesExactly(s: State, e: Event)
    requires WellFormed(s) && Enabled(s, e)
    ensures var t := Step(s, e);
      && |s.refreshes| <= |t.refreshes|
      && t.slots.generation == s.slots.generation + (if e.Supersede? || e.Begin? then 1 else 0)
      && (e.Begin? <==> |t.refreshes| == |s.refreshes| + 1)
      && (e.Begin? ==> t.slots.controller == Some(|s.refreshes|)
                       && t.refreshes[|s.refreshes|] == Refresh(t.slots.generation, false))
      && (e.Supersede? ==> t.slots.controller == None)
      && (!e.Supersede? && !e.Begin? ==>
            t.slots.controller ==
              if e.Finish? && s.slots.controller == Some(e.refresh) then None else s.slots.controller)
      && (forall r :: 0 <= r < |s.refreshes| ==>
            && t.refreshes[r].generation == s.refreshes[r].generation
            && (t.refreshes[r].aborted <==> s.refreshes[r].aborted || e == CallerAborts(r)
                                            || ((e.Supersede? || e.Begin?) && s.slots.controller == Some(r))))
  {
  }

  /** The chain ends in the newest publication, and is dropped once that one has settled. */
  lemma ChainMovesExactly(s: State, e: Event)
    requires WellFormed(s) && Enabled(s, e)
    ensures Step(s, e).slots.chain ==
      if e.Publish? then Some(|s.publications|)
      else if e.TailSettles? && s.slots.chain == Some(e.publication) then None
      else s.slots.chain
    ensures e.Publish? ==>
      Step(s, e).publications ==
        s.publications + [Publication(e.refresh, e.persist, e.update, s.slots.chain, Waiting)]
  {
  }

  // ---------------------------------------------------------------- what a run leaves in the stores

  /** Nothing is in the middle of a store call. */
  ghost predicate NoneMutates(s: State) {
    forall k :: 0 <= k < |s.publications| ==> s.publications[k].phase != Mutating
  }

  lemma {:induction false} RunKeepsMutating(s: State, events: seq<Event>)
    requires IsRun(s, events) && MutatingValid(s)
    ensures MutatingValid(Run(s, events))
    decreases |events|
  {
    if events != [] {
      StepKeepsMutating(s, events[0]);
      RunKeepsMutating(Step(s, events[0]), events[1..]);
    }
  }

  /** The logs only grow. */
  lemma {:induction false} LogsGrow(s: State, events: seq<Event>)
    requires IsRun(s, events)
    ensures s.started <= Run(s, events).started && s.applied <= Run(s, events).applied
    decreases |events|
  {
    if events != [] {
      StartsExactly(s, events[0]);
      AppliesExactly(s, events[0]);
      LogsGrow(Step(s, events[0]), events[1..]);
    }
  }

  /** Between mutations and updates the stores hold what they held. */
  lemma {:induction false} StoresStay(s: State, events: seq<Event>)
    requires IsRun(s, events) && NoneMutates(s) && Run(s, events).started == s.started
    ensures Run(s, events).stored == s.stored
    ensures Run(s, events).applied == s.applied ==> Run(s, events).current == s.current
    decreases |events|
  {
    if events != [] {
      var t := Step(s, events[0]);
      StartsExactly(s, events[0]);
      AppliesExactly(s, events[0]);
      LogsGrow(t, events[1..]);
      StoresStayOnce(s, events[0]);
      StoresStay(t, events[1..]);
    }
  }

  lemma StoresStayOnce(s: State, e: Event)
    requires WellFormed(s) && Enabled(s, e) && NoneMutates(s) && Step(s, e).started == s.started
    ensures Step(s, e).stored == s.stored && NoneMutates(Step(s, e))
  {
  }

  /**
   * In every run: when the store call of a live refresh of the newest generation returns and has landed, the store
   * holds what this refresh wrote and the list is the one it published; and so they stay until another mutation
   * starts or another update is applied.
   */
  lemma NewestRefreshIsPublished(before: seq<Event>, k: nat, after: seq<Event>)
    requires IsRun(INITIAL, before) && k < |Run(INITIAL, before).publications|
    requires Run(INITIAL, before).publications[k].phase == Mutating && IsNewestLive(Run(INITIAL, before), k)
    requires Run(INITIAL, before).publications[k].update.Some?
    requires IsRun(Step(Run(INITIAL, before), MutationSettles(k, true, true)), after)
    ensures var s := Run(INITIAL, before);
      var t := Run(Step(s, MutationSettles(k, true, true)), after);
      && (t.started == s.started ==> Holds(t.stored, s.slots.generation, s.publications[k].persist))
      && (t.started == s.started && t.applied == s.applied + [s.slots.generation] ==>
            t.current == Some(Stamped(s.slots.generation, s.publications[k].update)))
  {
    var s, e := Run(INITIAL, before), MutationSettles(k, true, true);
    var u := Step(s, e);
    RunKeepsInv(INITIAL, before);
    RunKeepsMutating(INITIAL, before);
    StoresExactly(s, e);
    AppliesExactly(s, e);
    StartsExactly(s, e);
    NothingElseMutates(s, k);
    if Run(u, after).started == s.started { StoresStay(u, after); }
  }

  lemma NothingElseMutates(s: State, k: nat)
    requires Inv(s) && k < |s.publications| && s.publications[k].phase == Mutating
    ensures NoneMutates(Step(s, MutationSettles(k, true, true)))
  {
    NothingBefore(s, k);
  }

  /** Nothing else is under way. */
  ghost predicate Idle(s: State) {
    && (forall k :: 0 <= k < |s.publications| ==> s.publications[k].phase == Settled)
    && (s.slots.chain.Some? ==> s.slots.chain.value < |s.publications|)
  }

  lemma PublishWaits(s: State, r: nat, catalog: Catalog, update: Catalog)
    requires WellFormed(s) && Idle(s) && r < |s.refreshes|
    ensures var k, t := |s.publications|, Step(s, Publish(r, Write(catalog), Some(update)));
      && WellFormed(t) && k < |t.publications| && Enabled(t, Resume(k))
      && t.publications[k].(previous := None) == Publication(r, Write(catalog), Some(update), None, Waiting)
      && t.refreshes == s.refreshes && t.slots.generation == s.slots.generation
  {
  }

  lemma ResumeMutates(s: State, k: nat)
    requires WellFormed(s) && Enabled(s, Resume(k)) && IsNewestLive(s, k) && s.publications[k].persist != Keep
    ensures var t := Step(s, Resume(k));
      && WellFormed(t) && k < |t.publications| && t.publications[k] == s.publications[k].(phase := Mutating)
      && t.refreshes == s.refreshes && t.slots == s.slots
  {
  }

  lemma ReturnPublishes(s: State, k: nat)
    requires WellFormed(s) && k < |s.publications| && s.publications[k].phase == Mutating && IsNewestLive(s, k)
    requires s.publications[k].persist.Write? && s.publications[k].update.Some?
    ensures var g, t := s.slots.generation, Step(s, MutationSettles(k, true, true));
      && WellFormed(t) && t.stored == Some(Stamped(g, Some(s.publications[k].persist.catalog)))
      && t.current == Some(Stamped(g, s.publications[k].update))
  {
  }

  lemma RunCons(s: State, e: Event, t: State, rest: seq<Event>)
    requires WellFormed(s) && Enabled(s, e) && t == Step(s, e) && IsRun(t, rest)
    ensures IsRun(s, [e] + rest) && Run(s, [e] + rest) == Run(t, rest)
  {
    assert ([e] + rest)[1..] == rest;
  }

  /** When nothing else is under way, a live refresh of the newest generation gets through with what it publishes. */
  lemma PublicationGetsThrough(s: State, r: nat, catalog: Catalog, update: Catalog)
    requires WellFormed(s) && Idle(s) && r < |s.refreshes| && !s.refreshes[r].aborted
    requires s.refreshes[r].generation == s.slots.generation
    ensures var k := |s.publications|;
      var events := [Publish(r, Write(catalog), Some(update)), Resume(k), MutationSettles(k, true, true)];
      && IsRun(s, events)
      && Run(s, events).stored == Some(Stamped(s.slots.generation, Some(catalog)))
      && Run(s, events).current == Some(Stamped(s.slots.generation, Some(update)))
  {
    var k, publish := |s.publications|, Publish(r, Write(catalog), Some(update));
    PublishWaits(s, r, catalog, update);
    ResumeAndReturn(Step(s, publish), k);
    RunCons(s, publish, Step(s, publish), [Resume(k), MutationSettles(k, true, true)]);
    assert [publish] + [Resume(k), MutationSettles(k, true, true)]
        == [publish, Resume(k), MutationSettles(k, true, true)];
  }

  lemma ResumeAndReturn(s: State, k: nat)
    requires WellFormed(s) && Enabled(s, Resume(k)) && IsNewestLive(s, k)
    requires s.publications[k].persist.Write? && s.publications[k].update.Some?
    ensures var g, events := s.slots.generation, [Resume(k), MutationSettles(k, true, true)];
      && IsRun(s, events)
      && Run(s, events).stored == Some(Stamped(g, Some(s.publications[k].persist.catalog)))
      && Run(s, events).current == Some(Stamped(g, s.publications[k].update))
  {
    var t := Step(s, Resume(k));
    ResumeMutates(s, k);
    ReturnPublishes(t, k);
    RunCons(t, MutationSettles(k, true, true), Step(t, MutationSettles(k, true, true)), []);
    RunCons(s, Resume(k), t, [MutationSettles(k, true, true)]);
    assert [Resume(k)] + [MutationSettles(k, true, true)] == [Resume(k), MutationSettles(k, true, true)];
  }

  // ---------------------------------------------------------------- the maps of ModelsImpl

  /** The three maps, keyed by provider; each method changes the slots of one provider only. */
  class RefreshMaps {
    var refreshGenerations: map<string, nat>
    var refreshControllers: map<string, nat>
    var publicationChains: map<string, nat>

    function SlotsOf(provider: string): Slots
      reads this
    {
      Slots(if provider in refreshGenerations then refreshGenerations[provider] else 0,
            if provider in refreshControllers then Some(refreshControllers[provider]) else None,
            if provider in publicationChains then Some(publicationChains[provider]) else None)
    }

    constructor ()
      ensures forall p :: SlotsOf(p) == INITIAL.slots
    {
      refreshGenerations, refreshControllers, publicationChains := map[], map[], map[];
    }

    method SupersedeProviderRefresh(provider: string) returns (generation: nat, aborted: Option<nat>)
      modifies this
      ensures SlotsOf(provider) == Superseded(old(SlotsOf(provider)))
      ensures generation == SlotsOf(provider).generation && aborted == old(SlotsOf(provider).controller)
      ensures forall p :: p != provider ==> SlotsOf(p) == old(SlotsOf(p))
    {
      generation := (if provider in refreshGenerations then refreshGenerations[provider] else 0) + 1;
      refreshGenerations := refreshGenerations[provider := generation];
      aborted := None;
      if provider in refreshControllers {
        aborted := Some(refreshControllers[provider]);
        refreshControllers := refreshControllers - {provider};
      }
    }

    method BeginProviderRefresh(provider: string, controller: nat) returns (generation: nat, aborted: Option<nat>)
      modifies this
      ensures SlotsOf(provider) == Superseded(old(SlotsOf(provider))).(controller := Some(controller))
      ensures generation == SlotsOf(provider).generation && aborted == old(SlotsOf(provider).controller)
      ensures forall p :: p != provider ==> SlotsOf(p) == old(SlotsOf(p))
    {
      generation, aborted := SupersedeProviderRefresh(provider);
      refreshControllers := refreshControllers[provider := controller];
    }

    /** `clearProviders`: every known or refreshing provider is superseded once. */
    method ClearProviders(providers: set<string>)
      modifies this
      ensures var known := providers + old(refreshControllers.Keys);
        forall p :: SlotsOf(p) == if p in known then Superseded(old(SlotsOf(p))) else old(SlotsOf(p))
      ensures refreshControllers == map[]
    {
      ghost var known := providers + refreshControllers.Keys;
      var left := providers + refreshControllers.Keys;
      while left != {}
        invariant left <= known
        invariant refreshControllers.Keys <= left
        invariant forall p ::
          SlotsOf(p) == if p in known - left then Superseded(old(SlotsOf(p))) else old(SlotsOf(p))
        decreases |left|
      {
        var id :| id in left;
        left := left - {id};
        var _, _ := SupersedeProviderRefresh(id);
        assert id !in refreshControllers by { assert SlotsOf(id).controller == None; }
        forall p | p in refreshControllers ensures p in left {
          assert SlotsOf(p).controller.Some?;
        }
      }
    }
  }
}
