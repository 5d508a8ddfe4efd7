/** Any number of ceremonies racing on one account log: every write is a
    compare-and-swap on the head its attempt read, any run may stop after any
    step, and a run started again carries the same client's seeds. */
module AccountRuns {
  import opened Seqs
  import opened WebvhLog
  import opened Ladder
  import opened ClientRemoval
  import opened AccountEntries
  import opened AccountInvariant
  import opened AccountEffects

  type RunId = nat

  /** Where a self-enrollment stands. `base` indexes the head its next write is
      conditional on, `seenAt` the head its rung was attributed on. */
  datatype Phase =
    | Starting
    | RevealPlanned(base: nat, entry: Entry, rung: nat)
    | Rereading(seenAt: nat, rung: nat)
    | Holding(base: nat, seenAt: nat, rung: nat)
    | PendingPersisted(base: nat, seenAt: nat, rung: nat)
    | Finished(committed: bool)

  /** A self-enrollment, or a single-entry ceremony planned on the head at
      `base`; `invokedAs` is the enrolled client whose root authority carries the
      write, when it is not the credential's bridge. */
  datatype Run =
    | Enrolling(ladder: LadderId, client: ClientId, phase: Phase)
    | Single(cer: Ceremony, invokedAs: Option<ClientId>, base: nat)

  datatype Sys = Sys(log: Log, bound: set<LadderId>, runs: map<RunId, Run>, persisted: set<ClientId>)

  /** Whether the store hands back an ETag on a PUT -- without one the
      self-enrollment re-reads the head its add entry is built on -- and whether
      whatever appends refuses an entry stating a key the head does not commit. */
  datatype Store = Store(putServesEtag: bool, refusesUncommitted: bool)

  /** Either is enough for every add entry that lands to be one readers accept. */
  predicate Sound(store: Store) {
    store.putServesEtag || store.refusesUncommitted
  }

  datatype Step =
    | BeginEnrollment(ladder: LadderId, client: ClientId)
    | BeginSingle(cer: Ceremony, invokedAs: Option<ClientId>)
    | ReadHead
    | PutReveal
    | Reread
    | PersistPending
    | PutAdd
    | PutSingle
    | Crash

  ghost predicate Init(s: Sys) {
    && (exists ladder: LadderId :: s.log == GenesisLog(ladder) && s.bound == {ladder})
    && s.runs == map[] && s.persisted == {}
  }

  /** The strike and the install are published through the enrolled client's own
      store. */
  predicate Used(cer: Ceremony, invokedAs: Option<ClientId>) {
    cer.SetLadderVm? ==> invokedAs.Some?
  }

  /** The callers' side: a ladder ceremony is run by a bound credential, a bind
      names a fresh one, and a removal vouches for no staged hash of its client
      and strikes no standing hash but its client's own. */
  ghost predicate AskedRightly(cer: Ceremony, log: Log, bound: set<LadderId>) {
    if cer.SetLadderVm? then cer.ladder in bound else Admissible(cer, log, bound)
  }

  /** The server refuses a write invoked as a client the current document does
      not enroll. */
  predicate Authorized(invokedAs: Option<ClientId>, head: Entry) {
    invokedAs.Some? ==> invokedAs.value in head.clients
  }

  function WithPhase(s: Sys, id: RunId, phase: Phase): Sys
    requires id in s.runs && s.runs[id].Enrolling?
  {
    s.(runs := s.runs[id := s.runs[id].(phase := phase)])
  }

  function Ended(s: Sys, id: RunId): Sys {
    s.(runs := s.runs - {id})
  }

  /** What an attempt's read makes of the head; a log that does not verify is
      refused. */
  ghost function AfterRead(s: Sys, id: RunId): Sys
    requires id in s.runs && s.runs[id].Enrolling?
  {
    var run, base := s.runs[id], |s.log| - 1;
    if !Verifies(s.log) then Ended(s, id)
    else match PlanFor(RevealAndCommit(run.ladder, run.client), s.log)
      case Skip => WithPhase(s, id, Finished(false))
      case Refuse(_) => Ended(s, id)
      case Decline(a) => WithPhase(s, id, Holding(base, base, a.rung))
      case Publish(e) => WithPhase(s, id, RevealPlanned(base, e, e.signer.index))
  }

  /** The add entry a run carries, built on the head its write is conditional on. */
  function AddOf(s: Sys, run: Run): Entry
    requires run.Enrolling? && run.phase.PendingPersisted?
  {
    AddEntry(Head(s.log), run.ladder, run.phase.rung, run.client)
  }

  ghost predicate Next(store: Store, s: Sys, s': Sys, id: RunId, step: Step) {
    match step
    case BeginEnrollment(ladder, client) =>
      id !in s.runs && ladder in s.bound && s' == s.(runs := s.runs[id := Enrolling(ladder, client, Starting)])
    case BeginSingle(cer, invokedAs) =>
      id !in s.runs && s' == s.(runs := s.runs[id := Single(cer, invokedAs, |s.log| - 1)])
    case Crash =>
      id in s.runs && s' == Ended(s, id)
    case PutSingle =>
      && id in s.runs && s.runs[id].Single?
      && var run := s.runs[id];
         if run.base != |s.log| - 1
         then s' == s.(runs := s.runs[id := run.(base := |s.log| - 1)])
         else var plan := PlanFor(run.cer, s.log);
           if Verifies(s.log) && plan.Publish? && Authorized(run.invokedAs, Head(s.log))
           then Used(run.cer, run.invokedAs)
                && s' == Ended(s, id).(log := s.log + [plan.entry], bound := BoundAfter(run.cer, s.bound))
           else s' == Ended(s, id)
    case _ =>
      id in s.runs && s.runs[id].Enrolling? && EnrollmentNext(store, s, s', id, step)
  }

  ghost predicate EnrollmentNext(store: Store, s: Sys, s': Sys, id: RunId, step: Step)
    requires id in s.runs && s.runs[id].Enrolling?
  {
    var run := s.runs[id];
    match run.phase
    case Starting => step.ReadHead? && s' == AfterRead(s, id)
    case RevealPlanned(base, e, rung) =>
      step.PutReveal? &&
      (if base != |s.log| - 1 then s' == WithPhase(s, id, Starting)
       else s' == WithPhase(s, id, if store.putServesEtag then Holding(base + 1, base + 1, rung)
                                   else Rereading(base + 1, rung)).(log := s.log + [e]))
    case Rereading(seenAt, rung) =>
      step.Reread? &&
      (if Verifies(s.log) then s' == WithPhase(s, id, Holding(|s.log| - 1, seenAt, rung)) else s' == Ended(s, id))
    case Holding(base, seenAt, rung) =>
      step.PersistPending? &&
      s' == WithPhase(s, id, PendingPersisted(base, seenAt, rung)).(persisted := s.persisted + {run.client})
    case PendingPersisted(base, seenAt, rung) =>
      step.PutAdd? &&
      (if base != |s.log| - 1 then s' == WithPhase(s, id, Starting)
       else if store.refusesUncommitted && !Accepts(Head(s.log), AddOf(s, run)) then s' == Ended(s, id)
       else s' == WithPhase(s, id, Finished(true)).(log := s.log + [AddOf(s, run)]))
    case Finished(_) => false
  }

  /** A head on which the add entry may be built: the rung is acting and
      revealed, its successor and the client's hashes are committed, and the
      client is not in yet. */
  ghost predicate ReadyToAdd(e: Entry, ladder: LadderId, rung: nat, c: ClientId) {
    && ActsAt(ladder, e, Attributed(rung, Revealed))
    && HashOf(Rung(ladder, rung + 1)) in e.nextKeyHashes
    && HashOf(Active(c)) in e.nextKeyHashes && HashOf(Staged(c)) in e.nextKeyHashes
    && Active(c) !in e.updateKeys
  }

  /** What a run about to add holds: its rung was ready when attributed, has not
      been left behind, and the head it holds was read as verifying. */
  ghost predicate HeldOk(store: Store, s: Sys, base: nat, seenAt: nat, ladder: LadderId, rung: nat, c: ClientId) {
    && base < |s.log| && seenAt < |s.log| && Verifies(s.log[..base + 1])
    && (store.putServesEtag ==> base == seenAt)
    && ReadyToAdd(s.log[seenAt], ladder, rung, c)
    && Ahead(Head(s.log), ladder, rung)
  }

  ghost predicate RunOk(store: Store, s: Sys, run: Run) {
    match run
    case Single(_, _, base) => base < |s.log|
    case Enrolling(ladder, c, phase) =>
      ladder in s.bound && match phase
        case RevealPlanned(base, e, rung) =>
          && base < |s.log| && Verifies(s.log[..base + 1])
          && PlanFor(RevealAndCommit(ladder, c), s.log[..base + 1]) == Publish(e)
          && rung == e.signer.index
        case Rereading(seenAt, rung) =>
          && !store.putServesEtag && seenAt < |s.log|
          && ReadyToAdd(s.log[seenAt], ladder, rung, c) && Ahead(Head(s.log), ladder, rung)
        case Holding(base, seenAt, rung) => HeldOk(store, s, base, seenAt, ladder, rung, c)
        case PendingPersisted(base, seenAt, rung) =>
          HeldOk(store, s, base, seenAt, ladder, rung, c) && c in s.persisted
        case _ => true
  }

  /** A log one entry past a good one, which readers refuse: an add entry stating
      an uncommitted key. The ladders stand on it still. */
  ghost predicate Broken(log: Log, bound: set<LadderId>) {
    && 2 <= |log| && Inv(log[..|log| - 1], bound)
    && LaddersKept(Head(log), bound) && !Verifies(log)
  }

  ghost predicate LogOk(store: Store, log: Log, bound: set<LadderId>) {
    Inv(log, bound) || (!Sound(store) && Broken(log, bound))
  }

  ghost predicate SysInv(store: Store, s: Sys) {
    && LogOk(store, s.log, s.bound)
    && (forall id :: id in s.runs ==> RunOk(store, s, s.runs[id]))
    && (forall i :: 0 <= i < |s.log| ==> s.log[i].clients <= s.persisted)
  }

  // ---- Steps

  /** The log and the sets only grow, and no ladder falls back. */
  ghost predicate Grows(s: Sys, s': Sys) {
    && s.log <= s'.log && s.bound <= s'.bound && s.persisted <= s'.persisted
    && Advances(Head(s.log), Head(s'.log), s.bound)
  }

  lemma GrowsSame(s: Sys, s': Sys)
    requires s'.log == s.log && s.bound <= s'.bound && s.persisted <= s'.persisted
    ensures Grows(s, s')
  {
  }

  lemma HeldStable(store: Store, s: Sys, s': Sys, base: nat, seenAt: nat, ladder: LadderId, rung: nat, c: ClientId)
    requires HeldOk(store, s, base, seenAt, ladder, rung, c) && Grows(s, s') && ladder in s.bound
    ensures HeldOk(store, s', base, seenAt, ladder, rung, c)
  {
    assert s'.log[..base + 1] == s.log[..base + 1];
  }

  /** What a run knows of the log it read survives the log growing. */
  lemma RunOkStable(store: Store, s: Sys, s': Sys, run: Run)
    requires RunOk(store, s, run) && Grows(s, s')
    ensures RunOk(store, s', run)
  {
    match run
    case Single(_, _, _) =>
    case Enrolling(ladder, c, phase) =>
      match phase
      case RevealPlanned(base, _, _) => assert s'.log[..base + 1] == s.log[..base + 1];
      case Holding(base, seenAt, rung) => HeldStable(store, s, s', base, seenAt, ladder, rung, c);
      case PendingPersisted(base, seenAt, rung) => HeldStable(store, s, s', base, seenAt, ladder, rung, c);
      case _ =>
  }

  lemma OthersStable(store: Store, s: Sys, s': Sys, id: RunId)
    requires SysInv(store, s) && Grows(s, s')
    requires forall other :: other in s'.runs && other != id ==> other in s.runs && s'.runs[other] == s.runs[other]
    requires id in s'.runs ==> RunOk(store, s', s'.runs[id])
    ensures forall other :: other in s'.runs ==> RunOk(store, s', s'.runs[other])
  {
    forall other | other in s'.runs ensures RunOk(store, s', s'.runs[other]) {
      if other != id { RunOkStable(store, s, s', s.runs[other]); }
    }
  }

  lemma DeclinedIsReady(log: Log, ladder: LadderId, a: Attributed, c: ClientId)
    requires CarriesOver(Head(log)) && ActsAt(ladder, Head(log), a) && a.state == Revealed && Active(c) !in Head(log).updateKeys
    requires forall h :: h in NeededHashes(ladder, a, c) ==> h in Head(log).nextKeyHashes
    ensures ReadyToAdd(Head(log), ladder, a.rung, c)
  {
    var needed := NeededHashes(ladder, a, c);
    assert needed[0] in needed && needed[1] in needed && needed[2] in needed;
  }

  lemma RevealedIsReady(log: Log, bound: set<LadderId>, ladder: LadderId, a: Attributed, c: ClientId)
    requires Inv(log, bound) && ladder in bound && ActsAt(ladder, Head(log), a) && Active(c) !in Head(log).updateKeys
    ensures ReadyToAdd(RevealEntry(Head(log), ladder, a, c), ladder, a.rung, c)
  {
    assert CarriesOver(Head(log));
    var needed := NeededHashes(ladder, a, c);
    assert needed[0] in needed && needed[1] in needed && needed[2] in needed;
    SignedByActingRung(Head(log), bound, ladder, a, Unchanged(Head(log)).(commitHashes := needed), {});
    RevealEntryIs(Head(log), ladder, a, c);
  }

  /** A reveal that has nothing to publish, and one that just published, both
      leave a head the add entry may be built on. */
  lemma RevealLeavesReady(log: Log, bound: set<LadderId>, ladder: LadderId, c: ClientId)
    requires Inv(log, bound) && ladder in bound
    ensures var plan := PlanFor(RevealAndCommit(ladder, c), log);
            && (plan.Decline? ==> ReadyToAdd(Head(log), ladder, plan.at.rung, c))
            && (plan.Publish? ==> plan.entry.signer.Rung?
                                  && ReadyToAdd(plan.entry, ladder, plan.entry.signer.index, c)
                                  && plan.entry.clients == Head(log).clients)
  {
    var cer := RevealAndCommit(ladder, c);
    if !Settled(cer, log) && Attribute(ladder, Head(log)).Success? {
      var a := ActingRung(log, bound, ladder);
      assert CarriesOver(Head(log));
      if PlanFor(cer, log).Publish? {
        RevealedIsReady(log, bound, ladder, a, c);
      } else if PlanFor(cer, log).Decline? {
        DeclinedIsReady(log, ladder, a, c);
      }
    }
  }

  lemma ReadyIsAhead(e: Entry, ladder: LadderId, rung: nat, c: ClientId)
    requires ReadyToAdd(e, ladder, rung, c)
    ensures Ahead(e, ladder, rung)
  {
    assert AtOrPast(e, ladder, Attributed(rung, Revealed), rung);
  }

  lemma ReadGivesGoodRun(store: Store, s: Sys, id: RunId)
    requires Inv(s.log, s.bound) && id in s.runs && s.runs[id].Enrolling? && s.runs[id].ladder in s.bound
    ensures var s' := AfterRead(s, id); id in s'.runs ==> RunOk(store, s', s'.runs[id])
  {
    var run := s.runs[id];
    var plan := PlanFor(RevealAndCommit(run.ladder, run.client), s.log);
    RevealLeavesReady(s.log, s.bound, run.ladder, run.client);
    assert s.log[..|s.log|] == s.log;
    match plan
    case Decline(a) =>
      ReadyIsAhead(Head(s.log), run.ladder, a.rung, run.client);
      assert HeldOk(store, AfterRead(s, id), |s.log| - 1, |s.log| - 1, run.ladder, a.rung, run.client);
    case _ =>
  }

  lemma ReadKeeps(store: Store, s: Sys, id: RunId)
    requires SysInv(store, s) && id in s.runs && s.runs[id].Enrolling?
    ensures SysInv(store, AfterRead(s, id))
  {
    assert RunOk(store, s, s.runs[id]);
    if Verifies(s.log) { ReadGivesGoodRun(store, s, id); }
    GrowsSame(s, AfterRead(s, id));
    OthersStable(store, s, AfterRead(s, id), id);
  }

  /** The reveal lands on the head it was planned on, which then readies the add. */
  lemma RevealLands(store: Store, s: Sys, id: RunId)
    requires SysInv(store, s) && id in s.runs && s.runs[id].Enrolling? && s.runs[id].phase.RevealPlanned?
    requires s.runs[id].phase.base == |s.log| - 1
    ensures var run := s.runs[id];
            && Inv(s.log, s.bound) && Inv(s.log + [run.phase.entry], s.bound)
            && Advances(Head(s.log), run.phase.entry, s.bound)
            && ReadyToAdd(run.phase.entry, run.ladder, run.phase.rung, run.client)
            && run.phase.entry.clients == Head(s.log).clients
  {
    var run := s.runs[id];
    assert RunOk(store, s, run);
    assert s.log[..|s.log|] == s.log;
    var cer := RevealAndCommit(run.ladder, run.client);
    CeremonyKeepsInvariant(s.log, s.bound, cer);
    CeremonyAdvances(s.log, s.bound, cer);
    RevealLeavesReady(s.log, s.bound, run.ladder, run.client);
  }

  lemma PutRevealKeeps(store: Store, s: Sys, s': Sys, id: RunId)
    requires SysInv(store, s) && id in s.runs && s.runs[id].Enrolling?
    requires EnrollmentNext(store, s, s', id, PutReveal)
    ensures SysInv(store, s')
  {
    var run := s.runs[id];
    assert RunOk(store, s, run);
    if run.phase.base == |s.log| - 1 {
      RevealLands(store, s, id);
      ReadyIsAhead(run.phase.entry, run.ladder, run.phase.rung, run.client);
      assert s'.log[..|s'.log|] == s'.log;
    } else {
      GrowsSame(s, s');
    }
    OthersStable(store, s, s', id);
  }

  /** A re-read head that verifies is one the run may hold. */
  lemma RereadKeeps(store: Store, s: Sys, s': Sys, id: RunId)
    requires SysInv(store, s) && id in s.runs && s.runs[id].Enrolling?
    requires EnrollmentNext(store, s, s', id, Reread)
    ensures SysInv(store, s')
  {
    assert RunOk(store, s, s.runs[id]);
    assert s.log[..|s.log|] == s.log;
    GrowsSame(s, s');
    OthersStable(store, s, s', id);
  }

  /** The head a run's add entry lands on is one that verified, with the ladder at
      the run's rung or past it. */
  lemma AddHead(store: Store, s: Sys, id: RunId)
    requires SysInv(store, s) && id in s.runs && s.runs[id].Enrolling? && s.runs[id].phase.PendingPersisted?
    requires s.runs[id].phase.base == |s.log| - 1
    ensures Inv(s.log, s.bound) && s.runs[id].ladder in s.bound && s.runs[id].client in s.persisted
    ensures Ahead(Head(s.log), s.runs[id].ladder, s.runs[id].phase.rung)
    ensures CarriesOver(Head(s.log))
  {
    assert RunOk(store, s, s.runs[id]);
    assert s.log[..|s.log|] == s.log;
  }

  /** The add entry of a run whose head has not moved since its rung was
      attributed: it adds the client, which was not in; retires exactly the
      ladder's acting rung, leaving the next one acting; touches no other key,
      hash, client or ladder VM; and publishes only a client whose pending record
      was persisted. */
  lemma AddIsExact(store: Store, s: Sys, id: RunId)
    requires SysInv(store, s) && id in s.runs && s.runs[id].Enrolling? && s.runs[id].phase.PendingPersisted?
    requires s.runs[id].phase.base == |s.log| - 1 == s.runs[id].phase.seenAt
    ensures var run, head := s.runs[id], Head(s.log);
            var rung, c := run.phase.rung, run.client;
            var e := AddEntry(head, run.ladder, rung, c);
            && Inv(s.log + [e], s.bound)
            && c !in head.clients && e.clients == head.clients + {c} && c in s.persisted
            && ActsAt(run.ladder, head, Attributed(rung, Revealed))
            && ActsAt(run.ladder, e, Attributed(rung + 1, Committed))
            && (forall k :: k in e.updateKeys <==> k == Active(c) || (k in head.updateKeys && k != Rung(run.ladder, rung)))
            && (forall h :: h in e.nextKeyHashes <==> h in head.nextKeyHashes && h != HashOf(Rung(run.ladder, rung)))
            && e.ladderVms == head.ladderVms && e.pointer == head.pointer
  {
    var run, head := s.runs[id], Head(s.log);
    AddHead(store, s, id);
    assert RunOk(store, s, run) && ReadyToAdd(head, run.ladder, run.phase.rung, run.client);
    AddKeepsInvariant(s.log, s.bound, run.ladder, run.phase.rung, run.client);
    AddFrontier(head, run.ladder, Attributed(run.phase.rung, Revealed), run.phase.rung, run.client);
  }

  /** An add entry that lands: readers accept it exactly when the head it lands on
      commits its client's update-key hash; and if they do not, the log before it
      is good and its ladders stand. */
  lemma AddLands(store: Store, s: Sys, id: RunId)
    requires SysInv(store, s) && id in s.runs && s.runs[id].Enrolling? && s.runs[id].phase.PendingPersisted?
    requires s.runs[id].phase.base == |s.log| - 1
    ensures var run, head := s.runs[id], Head(s.log);
            var longer := s.log + [AddOf(s, run)];
            && Advances(head, AddOf(s, run), s.bound)
            && (Verifies(longer) <==> HashOf(Active(run.client)) in head.nextKeyHashes)
            && (Accepts(head, AddOf(s, run)) <==> HashOf(Active(run.client)) in head.nextKeyHashes)
            && (Verifies(longer) ==> Inv(longer, s.bound))
            && (!Verifies(longer) ==> Broken(longer, s.bound) && run.phase.base != run.phase.seenAt)
  {
    var run, head := s.runs[id], Head(s.log);
    var e := AddOf(s, run);
    AddHead(store, s, id);
    AddAcceptedIff(head, run.ladder, run.phase.rung, run.client);
    AddLadders(head, s.bound, run.ladder, run.phase.rung, run.client);
    AppendedVerifiesIff(s.log, e);
    if HashOf(Active(run.client)) in head.nextKeyHashes {
      AddKeepsInvariant(s.log, s.bound, run.ladder, run.phase.rung, run.client);
    } else {
      assert (s.log + [e])[..|s.log|] == s.log;
      assert RunOk(store, s, run);
    }
  }

  lemma AppendedVerifiesIff(log: Log, e: Entry)
    requires Verifies(log)
    ensures Verifies(log + [e]) <==> Accepts(Head(log), e)
  {
    var longer := log + [e];
    if Accepts(Head(log), e) { VerifiesExtended(log, e); }
    if Verifies(longer) { assert Accepts(longer[|log| - 1], longer[|log|]); }
  }

  /** The log an add entry leaves is good, or broken where nothing refuses it. */
  lemma AddedLog(store: Store, s: Sys, id: RunId)
    requires SysInv(store, s) && id in s.runs && s.runs[id].Enrolling? && s.runs[id].phase.PendingPersisted?
    requires s.runs[id].phase.base == |s.log| - 1
    requires Accepts(Head(s.log), AddOf(s, s.runs[id])) || !store.refusesUncommitted
    ensures LogOk(store, s.log + [AddOf(s, s.runs[id])], s.bound)
    ensures Advances(Head(s.log), AddOf(s, s.runs[id]), s.bound)
    ensures AddOf(s, s.runs[id]).clients <= s.persisted
  {
    AddLands(store, s, id);
    assert RunOk(store, s, s.runs[id]);
    assert Head(s.log).clients <= s.persisted;
  }

  lemma AddedKeeps(store: Store, s: Sys, s': Sys, id: RunId)
    requires SysInv(store, s) && id in s.runs && s.runs[id].Enrolling? && s.runs[id].phase.PendingPersisted?
    requires s.runs[id].phase.base == |s.log| - 1 && s.runs[id].ladder in s.bound
    requires s' == WithPhase(s, id, Finished(true)).(log := s.log + [AddOf(s, s.runs[id])])
    requires LogOk(store, s'.log, s'.bound) && Head(s'.log).clients <= s.persisted
    requires Advances(Head(s.log), Head(s'.log), s.bound)
    ensures SysInv(store, s')
  {
    assert Grows(s, s');
    OthersStable(store, s, s', id);
    forall i | 0 <= i < |s'.log| ensures s'.log[i].clients <= s'.persisted {
      if i < |s.log| { assert s'.log[i] == s.log[i]; }
    }
  }

  lemma PutAddKeeps(store: Store, s: Sys, s': Sys, id: RunId)
    requires SysInv(store, s) && id in s.runs && s.runs[id].Enrolling?
    requires EnrollmentNext(store, s, s', id, PutAdd)
    ensures SysInv(store, s')
  {
    assert RunOk(store, s, s.runs[id]);
    if s'.log == s.log {
      GrowsSame(s, s');
      OthersStable(store, s, s', id);
    } else {
      AddedLog(store, s, id);
      AddedKeeps(store, s, s', id);
    }
  }

  /** Only an entry the self-enrollment adds publishes a new client. */
  lemma SingleAddsNoClient(cer: Ceremony, log: Log)
    requires PlanFor(cer, log).Publish?
    ensures PlanFor(cer, log).entry.clients <= Head(log).clients
  {
  }

  /** Whether this step publishes a single-entry ceremony. */
  ghost predicate PublishesSingle(s: Sys, id: RunId, step: Step) {
    && step.PutSingle? && id in s.runs && s.runs[id].Single? && s.runs[id].base == |s.log| - 1
    && Verifies(s.log) && PlanFor(s.runs[id].cer, s.log).Publish? && Authorized(s.runs[id].invokedAs, Head(s.log))
  }

  /** A step whose caller keeps its side. */
  ghost predicate Careful(s: Sys, id: RunId, step: Step) {
    PublishesSingle(s, id, step) ==> AskedRightly(s.runs[id].cer, s.log, s.bound)
  }

  lemma PutSingleKeeps(store: Store, s: Sys, s': Sys, id: RunId)
    requires SysInv(store, s) && Next(store, s, s', id, PutSingle) && Careful(s, id, PutSingle)
    ensures SysInv(store, s')
  {
    var run := s.runs[id];
    if PublishesSingle(s, id, PutSingle) {
      assert Admissible(run.cer, s.log, s.bound);
      CeremonyKeepsInvariant(s.log, s.bound, run.cer);
      CeremonyAdvances(s.log, s.bound, run.cer);
      SingleAddsNoClient(run.cer, s.log);
    } else {
      GrowsSame(s, s');
    }
    OthersStable(store, s, s', id);
  }

  lemma PersistKeeps(store: Store, s: Sys, s': Sys, id: RunId)
    requires SysInv(store, s) && id in s.runs && s.runs[id].Enrolling?
    requires EnrollmentNext(store, s, s', id, PersistPending)
    ensures SysInv(store, s')
  {
    assert RunOk(store, s, s.runs[id]);
    GrowsSame(s, s');
    OthersStable(store, s, s', id);
  }

  /** Every step of every run keeps the invariant, on any store. */
  lemma StepKeeps(store: Store, s: Sys, s': Sys, id: RunId, step: Step)
    requires SysInv(store, s) && Next(store, s, s', id, step) && Careful(s, id, step)
    ensures SysInv(store, s')
  {
    match step
    case ReadHead => ReadKeeps(store, s, id);
    case PutReveal => PutRevealKeeps(store, s, s', id);
    case Reread => RereadKeeps(store, s, s', id);
    case PutAdd => PutAddKeeps(store, s, s', id);
    case PutSingle => PutSingleKeeps(store, s, s', id);
    case PersistPending => PersistKeeps(store, s, s', id);
    case _ =>
      GrowsSame(s, s');
      OthersStable(store, s, s', id);
  }

  // ---- Whole runs

  datatype Move = Move(id: RunId, step: Step)

  ghost predicate Execution(store: Store, states: seq<Sys>, moves: seq<Move>) {
    && |states| == |moves| + 1 && Init(states[0])
    && forall i :: 0 <= i < |moves| ==> Next(store, states[i], states[i + 1], moves[i].id, moves[i].step)
  }

  ghost predicate CarefulRuns(states: seq<Sys>, moves: seq<Move>)
    requires |states| == |moves| + 1
  {
    forall i :: 0 <= i < |moves| ==> Careful(states[i], moves[i].id, moves[i].step)
  }

  /** In every state any interleaving reaches, on any store, the whole invariant
      holds. */
  lemma {:induction false} EveryReachableStateIsSafe(store: Store, states: seq<Sys>, moves: seq<Move>, n: nat)
    requires Execution(store, states, moves) && CarefulRuns(states, moves) && n < |states|
    ensures SysInv(store, states[n])
    ensures Sound(store) ==> Inv(states[n].log, states[n].bound)
  {
    if n == 0 {
      var ladder: LadderId :| states[0].log == GenesisLog(ladder) && states[0].bound == {ladder};
      GenesisHolds(ladder);
    } else {
      EveryReachableStateIsSafe(store, states, moves, n - 1);
      StepKeeps(store, states[n - 1], states[n], moves[n - 1].id, moves[n - 1].step);
    }
  }

  /** An add entry landing on a head that does not commit its client's update-key
      hash. */
  ghost predicate UncommittedAdd(s: Sys, s': Sys, id: RunId, step: Step) {
    && step.PutAdd? && s'.log != s.log && id in s.runs && s.runs[id].Enrolling?
    && HashOf(Active(s.runs[id].client)) !in Head(s.log).nextKeyHashes
  }

  /** Only an uncommitted add makes a log readers refuse, and nothing is ever
      appended to such a log. */
  lemma VerifiesStep(store: Store, s: Sys, s': Sys, id: RunId, step: Step)
    requires SysInv(store, s) && Next(store, s, s', id, step) && Careful(s, id, step)
    ensures Verifies(s'.log) <==> Verifies(s.log) && !UncommittedAdd(s, s', id, step)
    ensures !Verifies(s.log) ==> s'.log == s.log
  {
    if Verifies(s.log) {
      StepKeeps(store, s, s', id, step);
      if step.PutAdd? && s'.log != s.log { AddLands(store, s, id); } else { NotAdded(store, s, s', id, step); }
    } else {
      Frozen(store, s, s', id, step);
    }
  }

  /** A head a run may still write on is one that verified. */
  lemma WritableVerifies(store: Store, s: Sys, id: RunId)
    requires SysInv(store, s) && id in s.runs && s.runs[id].Enrolling?
    requires match s.runs[id].phase
             case RevealPlanned(base, _, _) => base == |s.log| - 1
             case PendingPersisted(base, _, _) => base == |s.log| - 1
             case _ => false
    ensures Verifies(s.log)
  {
    assert RunOk(store, s, s.runs[id]);
    assert s.log[..|s.log|] == s.log;
  }

  lemma Frozen(store: Store, s: Sys, s': Sys, id: RunId, step: Step)
    requires SysInv(store, s) && Next(store, s, s', id, step) && !Verifies(s.log)
    ensures s'.log == s.log
  {
    if id in s.runs && s.runs[id].Enrolling? && (step.PutReveal? || step.PutAdd?)
       && (s.runs[id].phase.RevealPlanned? || s.runs[id].phase.PendingPersisted?)
       && s.runs[id].phase.base == |s.log| - 1 {
      WritableVerifies(store, s, id);
    }
  }

  lemma NotAdded(store: Store, s: Sys, s': Sys, id: RunId, step: Step)
    requires SysInv(store, s) && Next(store, s, s', id, step) && Careful(s, id, step)
    requires Verifies(s.log) && (!step.PutAdd? || s'.log == s.log)
    ensures Verifies(s'.log)
  {
    match step
    case PutReveal =>
      assert RunOk(store, s, s.runs[id]);
      if s.runs[id].phase.base == |s.log| - 1 { RevealLands(store, s, id); }
    case PutSingle =>
      if PublishesSingle(s, id, step) { CeremonyKeepsInvariant(s.log, s.bound, s.runs[id].cer); }
    case _ =>
  }

  lemma MoveVerifies(store: Store, states: seq<Sys>, moves: seq<Move>, i: nat)
    requires Execution(store, states, moves) && CarefulRuns(states, moves) && i < |moves|
    ensures Verifies(states[i + 1].log) <==>
            Verifies(states[i].log) && !UncommittedAdd(states[i], states[i + 1], moves[i].id, moves[i].step)
  {
    EveryReachableStateIsSafe(store, states, moves, i);
    VerifiesStep(store, states[i], states[i + 1], moves[i].id, moves[i].step);
  }

  ghost predicate AllAddsCommitted(states: seq<Sys>, moves: seq<Move>, n: nat)
    requires |states| == |moves| + 1 && n <= |moves|
  {
    forall i :: 0 <= i < n ==> !UncommittedAdd(states[i], states[i + 1], moves[i].id, moves[i].step)
  }

  lemma OneMoreAdd(states: seq<Sys>, moves: seq<Move>, n: nat)
    requires |states| == |moves| + 1 && n < |moves|
    ensures AllAddsCommitted(states, moves, n + 1) <==>
            AllAddsCommitted(states, moves, n) && !UncommittedAdd(states[n], states[n + 1], moves[n].id, moves[n].step)
  {
  }

  /** Every log any interleaving reaches verifies, entry by entry, exactly when no
      add entry landed on a re-read head that no longer committed its client's
      update-key hash; on a store whose PUTs answer with an ETag, or where the
      append is refused, none does. */
  lemma {:induction false} EveryLogVerifiesIff(store: Store, states: seq<Sys>, moves: seq<Move>, n: nat)
    requires Execution(store, states, moves) && CarefulRuns(states, moves) && n < |states|
    ensures Verifies(states[n].log) <==> AllAddsCommitted(states, moves, n)
    ensures Sound(store) ==> Verifies(states[n].log)
  {
    EveryReachableStateIsSafe(store, states, moves, n);
    if n > 0 {
      var k := n - 1;
      EveryLogVerifiesIff(store, states, moves, k);
      MoveVerifies(store, states, moves, k);
      OneMoreAdd(states, moves, k);
    }
  }

  /** What a run planned to reveal, it planned on the head it will insist on. */
  ghost predicate PlannedOk(log: Log, run: Run) {
    run.Enrolling? && run.phase.RevealPlanned? ==>
      && run.phase.base < |log|
      && PlanFor(RevealAndCommit(run.ladder, run.client), log[..run.phase.base + 1]) == Publish(run.phase.entry)
  }

  ghost predicate AnchorInv(s: Sys) {
    Anchored(Head(s.log)) && forall id :: id in s.runs ==> PlannedOk(s.log, s.runs[id])
  }

  lemma SingleAnchored(cer: Ceremony, log: Log)
    requires Anchored(Head(log)) && PlanFor(cer, log).Publish?
    requires cer.SetLadderVm? && !cer.present ==> Head(log).clients != {}
    ensures Anchored(PlanFor(cer, log).entry)
  {
    var head, e := Head(log), PlanFor(cer, log).entry;
    DocumentAfter(cer, log);
    if head.clients != {} {
      var d :| d in head.clients;
      if cer.Forget? && head.clients != {cer.client} {
        var other :| other in head.clients && other != cer.client;
        assert other in e.clients;
      } else if !Removes(cer, d) {
        assert d in e.clients;
      }
    } else {
      var vm :| vm in head.ladderVms;
      assert vm in e.ladderVms;
    }
  }

  lemma PlannedStable(log: Log, e: Entry, run: Run)
    requires PlannedOk(log, run)
    ensures PlannedOk(log + [e], run)
  {
    if run.Enrolling? && run.phase.RevealPlanned? {
      assert (log + [e])[..run.phase.base + 1] == log[..run.phase.base + 1];
    }
  }

  lemma AnchorReveal(store: Store, s: Sys, s': Sys, id: RunId)
    requires AnchorInv(s) && id in s.runs && s.runs[id].Enrolling? && EnrollmentNext(store, s, s', id, PutReveal)
    ensures Anchored(Head(s'.log))
  {
    if s.runs[id].phase.base == |s.log| - 1 {
      assert s.log[..|s.log|] == s.log;
      SingleAnchored(RevealAndCommit(s.runs[id].ladder, s.runs[id].client), s.log);
    }
  }

  lemma AnchorAdd(store: Store, s: Sys, s': Sys, id: RunId)
    requires AnchorInv(s) && id in s.runs && s.runs[id].Enrolling? && EnrollmentNext(store, s, s', id, PutAdd)
    ensures Anchored(Head(s'.log))
  {
    if s'.log != s.log { assert s.runs[id].client in Head(s'.log).clients; }
  }

  lemma AnchorSingle(store: Store, s: Sys, s': Sys, id: RunId)
    requires AnchorInv(s) && Next(store, s, s', id, PutSingle)
    ensures Anchored(Head(s'.log))
  {
    var run := s.runs[id];
    if PublishesSingle(s, id, PutSingle) {
      SingleAnchored(run.cer, s.log);
    }
  }

  /** A step appends at most one entry, and leaves other runs' plans as they are. */
  lemma PlansKept(store: Store, s: Sys, s': Sys, id: RunId, step: Step)
    requires (forall other :: other in s.runs ==> PlannedOk(s.log, s.runs[other])) && Next(store, s, s', id, step)
    ensures forall other :: other in s'.runs ==> PlannedOk(s'.log, s'.runs[other])
  {
    assert s'.log == s.log || (|s'.log| == |s.log| + 1 && s'.log == s.log + [Head(s'.log)]);
    assert s.log[..|s.log|] == s.log;
    forall other | other in s'.runs ensures PlannedOk(s'.log, s'.runs[other]) {
      if other != id { PlannedStable(s.log, Head(s'.log), s.runs[other]); }
    }
  }

  lemma AnchorStep(store: Store, s: Sys, s': Sys, id: RunId, step: Step)
    requires AnchorInv(s) && Next(store, s, s', id, step)
    ensures AnchorInv(s')
  {
    PlansKept(store, s, s', id, step);
    match step
    case PutReveal => AnchorReveal(store, s, s', id);
    case PutAdd => AnchorAdd(store, s, s', id);
    case PutSingle => AnchorSingle(store, s, s', id);
    case _ =>
  }

  /** The account is never stranded, on any store: whatever runs race and wherever
      they stop, an enrolled client or a ladder VM stands. */
  lemma {:induction false} AccountNeverStranded(store: Store, states: seq<Sys>, moves: seq<Move>, n: nat)
    requires Execution(store, states, moves) && n < |states|
    ensures AnchorInv(states[n])
    ensures Head(states[n].log).clients != {} || Head(states[n].log).ladderVms != {}
  {
    if n == 0 {
      var ladder: LadderId :| states[0].log == GenesisLog(ladder) && states[0].bound == {ladder};
      assert ladder in Head(states[0].log).ladderVms;
    } else {
      AccountNeverStranded(store, states, moves, n - 1);
      AnchorStep(store, states[n - 1], states[n], moves[n - 1].id, moves[n - 1].step);
    }
  }

  /** Every client published has its record, and every run about to publish one. */
  ghost predicate RecordInv(s: Sys) {
    && (forall i :: 0 <= i < |s.log| ==> s.log[i].clients <= s.persisted)
    && (forall id :: id in s.runs ==>
          PlannedOk(s.log, s.runs[id])
          && (s.runs[id].Enrolling? && s.runs[id].phase.PendingPersisted? ==> s.runs[id].client in s.persisted))
  }

  /** The clients of the entry a step appends have their records. */
  lemma RecordedEntry(store: Store, s: Sys, s': Sys, id: RunId, step: Step)
    requires RecordInv(s) && Next(store, s, s', id, step) && s'.log != s.log
    ensures |s'.log| == |s.log| + 1 && s'.log == s.log + [Head(s'.log)] && s'.persisted == s.persisted
    ensures Head(s'.log).clients <= s.persisted
  {
    assert s.log[..|s.log|] == s.log && Head(s.log).clients <= s.persisted;
    match step
    case PutReveal => SingleAddsNoClient(RevealAndCommit(s.runs[id].ladder, s.runs[id].client), s.log);
    case PutSingle => SingleAddsNoClient(s.runs[id].cer, s.log);
    case PutAdd =>
  }

  lemma RunsRecorded(store: Store, s: Sys, s': Sys, id: RunId, step: Step)
    requires RecordInv(s) && Next(store, s, s', id, step)
    ensures s.persisted <= s'.persisted
    ensures forall other :: other in s'.runs && s'.runs[other].Enrolling? && s'.runs[other].phase.PendingPersisted? ==>
              s'.runs[other].client in s'.persisted
  {
  }

  lemma RecordStep(store: Store, s: Sys, s': Sys, id: RunId, step: Step)
    requires RecordInv(s) && Next(store, s, s', id, step)
    ensures RecordInv(s')
  {
    RunsRecorded(store, s, s', id, step);
    PlansKept(store, s, s', id, step);
    if s'.log != s.log { RecordedEntry(store, s, s', id, step); }
  }

  /** No entry publishes a client before that client's pending record was
      persisted, on any store. */
  lemma {:induction false} NoClientBeforeItsRecord(store: Store, states: seq<Sys>, moves: seq<Move>, n: nat)
    requires Execution(store, states, moves) && n < |states|
    ensures RecordInv(states[n])
    ensures forall j :: 0 <= j < |states[n].log| ==> states[n].log[j].clients <= states[n].persisted
  {
    if n > 0 {
      NoClientBeforeItsRecord(store, states, moves, n - 1);
      RecordStep(store, states[n - 1], states[n], moves[n - 1].id, moves[n - 1].step);
    }
  }

  lemma LaddersStand(store: Store, s: Sys, ladder: LadderId)
    requires SysInv(store, s) && ladder in s.bound
    ensures Standing(ladder, Head(s.log))
  {
  }

  /** Every bound ladder acts at exactly one rung, on any store, and its credential
      is attributed that rung exactly while it lies inside the scanned range. */
  lemma LadderSignsWhileInRange(store: Store, states: seq<Sys>, moves: seq<Move>, i: nat, ladder: LadderId)
    returns (a: Attributed)
    requires Execution(store, states, moves) && CarefulRuns(states, moves) && i < |states| && ladder in states[i].bound
    ensures ActsAt(ladder, Head(states[i].log), a)
    ensures forall b :: ActsAt(ladder, Head(states[i].log), b) ==> b == a
    ensures Attribute(ladder, Head(states[i].log)) == Success(a) <==> a.rung < LADDER_MAX_SCAN
  {
    EveryReachableStateIsSafe(store, states, moves, i);
    LaddersStand(store, states[i], ladder);
    a :| ActsAt(ladder, Head(states[i].log), a);
    AttributionRecoversTheFrontier(ladder, Head(states[i].log), a);
  }

  lemma StepGrows(store: Store, s: Sys, s': Sys, id: RunId, step: Step)
    requires SysInv(store, s) && Next(store, s, s', id, step) && Careful(s, id, step)
    ensures s.bound <= s'.bound && Advances(Head(s.log), Head(s'.log), s.bound)
  {
    if s'.log == s.log {
    } else if step.PutReveal? {
      assert RunOk(store, s, s.runs[id]);
      RevealLands(store, s, id);
    } else if step.PutAdd? {
      AddLands(store, s, id);
    } else {
      assert PublishesSingle(s, id, step) && Admissible(s.runs[id].cer, s.log, s.bound);
      CeremonyAdvances(s.log, s.bound, s.runs[id].cer);
    }
  }

  lemma MoveGrows(store: Store, states: seq<Sys>, moves: seq<Move>, i: nat)
    requires Execution(store, states, moves) && CarefulRuns(states, moves) && i < |moves|
    ensures states[i].bound <= states[i + 1].bound
    ensures Advances(Head(states[i].log), Head(states[i + 1].log), states[i].bound)
  {
    EveryReachableStateIsSafe(store, states, moves, i);
    StepGrows(store, states[i], states[i + 1], moves[i].id, moves[i].step);
  }

  lemma AdvancesFurther(a: Entry, b: Entry, c: Entry, bound: set<LadderId>, bound': set<LadderId>)
    requires Advances(a, b, bound) && Advances(b, c, bound') && bound <= bound'
    ensures Advances(a, c, bound)
  {
    forall l: LadderId, rung: nat | l in bound && Ahead(a, l, rung) ensures Ahead(c, l, rung) {
      assert Ahead(b, l, rung);
    }
  }

  /** No bound ladder ever falls back, from any reachable state to any later one. */
  lemma {:induction false} LaddersOnlyAdvance(store: Store, states: seq<Sys>, moves: seq<Move>, i: nat, j: nat)
    requires Execution(store, states, moves) && CarefulRuns(states, moves) && i <= j < |states|
    ensures states[i].bound <= states[j].bound
    ensures Advances(Head(states[i].log), Head(states[j].log), states[i].bound)
    decreases j - i
  {
    if i < j {
      var n := j - 1;
      LaddersOnlyAdvance(store, states, moves, i, n);
      MoveGrows(store, states, moves, n);
      AdvancesFurther(Head(states[i].log), Head(states[n].log), Head(states[n + 1].log),
                      states[i].bound, states[n].bound);
    }
  }

  /** An add entry that lands, seen from its ladder and its client: whatever head
      it lands on, it adds the client, persisted beforehand, and spends the rung
      it carries exactly when that rung is acting there -- otherwise the ladder is
      past it, and it spends none. */
  ghost predicate AddLandsRight(s: Sys, s': Sys, run: Run, a: Attributed)
    requires run.Enrolling? && run.phase.PendingPersisted?
  {
    var head, e, rung := Head(s.log), AddOf(s, run), run.phase.rung;
    && s'.log == s.log + [e] && e.clients == head.clients + {run.client} && run.client in s.persisted
    && ActsAt(run.ladder, head, a) && rung <= a.rung
    && (a.rung == rung ==> a.state == Revealed)
    && ActsAt(run.ladder, e, if a.rung == rung then Attributed(rung + 1, Committed) else a)
    && (Verifies(s'.log) <==> HashOf(Active(run.client)) in head.nextKeyHashes)
  }

  /** Every add entry that lands in any interleaving lands right; and on a head
      that has not moved since its rung was attributed -- which is every head,
      where the store's PUTs answer with an ETag -- the client was not in, the
      rung acting there is the one spent, and readers accept it. */
  lemma EveryAddThatLandsIsExact(store: Store, states: seq<Sys>, moves: seq<Move>, i: nat)
    returns (run: Run, a: Attributed)
    requires Execution(store, states, moves) && CarefulRuns(states, moves)
    requires i < |moves| && moves[i].step == PutAdd && states[i + 1].log != states[i].log
    ensures moves[i].id in states[i].runs && run == states[i].runs[moves[i].id]
    ensures run.Enrolling? && run.phase.PendingPersisted? && AddLandsRight(states[i], states[i + 1], run, a)
    ensures store.putServesEtag ==> run.phase.base == run.phase.seenAt
    ensures run.phase.base == run.phase.seenAt ==>
              && run.client !in Head(states[i].log).clients
              && a == Attributed(run.phase.rung, Revealed) && Verifies(states[i + 1].log)
  {
    EveryReachableStateIsSafe(store, states, moves, i);
    assert Next(store, states[i], states[i + 1], moves[i].id, PutAdd);
    run, a := LandedAdd(store, states[i], states[i + 1], moves[i].id);
  }

  lemma AddShape(store: Store, s: Sys, s': Sys, id: RunId)
    requires Next(store, s, s', id, PutAdd) && s'.log != s.log
    ensures id in s.runs && s.runs[id].Enrolling? && s.runs[id].phase.PendingPersisted?
    ensures s.runs[id].phase.base == |s.log| - 1 && s'.log == s.log + [AddOf(s, s.runs[id])]
  {
  }

  lemma SpendsIfActing(head: Entry, ladder: LadderId, rung: nat, c: ClientId) returns (a: Attributed)
    requires Ahead(head, ladder, rung)
    ensures ActsAt(ladder, head, a) && rung <= a.rung && (a.rung == rung ==> a.state == Revealed)
    ensures ActsAt(ladder, AddEntry(head, ladder, rung, c),
                   if a.rung == rung then Attributed(rung + 1, Committed) else a)
  {
    a :| ActsAt(ladder, head, a) && AtOrPast(head, ladder, a, rung);
    AddFrontier(head, ladder, a, rung, c);
  }

  lemma LandsRight(store: Store, s: Sys, s': Sys, id: RunId) returns (a: Attributed)
    requires SysInv(store, s) && id in s.runs && s.runs[id].Enrolling? && s.runs[id].phase.PendingPersisted?
    requires s.runs[id].phase.base == |s.log| - 1 && s'.log == s.log + [AddOf(s, s.runs[id])]
    ensures AddLandsRight(s, s', s.runs[id], a)
  {
    var run := s.runs[id];
    AddHead(store, s, id);
    AddLands(store, s, id);
    a := SpendsIfActing(Head(s.log), run.ladder, run.phase.rung, run.client);
  }

  lemma UnmovedHead(store: Store, s: Sys, id: RunId, a: Attributed)
    requires SysInv(store, s) && id in s.runs && s.runs[id].Enrolling? && s.runs[id].phase.PendingPersisted?
    requires s.runs[id].phase.base == |s.log| - 1 && ActsAt(s.runs[id].ladder, Head(s.log), a)
    ensures store.putServesEtag ==> s.runs[id].phase.base == s.runs[id].phase.seenAt
    ensures s.runs[id].phase.base == s.runs[id].phase.seenAt ==>
              && s.runs[id].client !in Head(s.log).clients
              && a == Attributed(s.runs[id].phase.rung, Revealed)
              && Inv(s.log + [AddOf(s, s.runs[id])], s.bound)
  {
    assert RunOk(store, s, s.runs[id]);
    if s.runs[id].phase.base == s.runs[id].phase.seenAt {
      AddIsExact(store, s, id);
      AttributionRecoversTheFrontier(s.runs[id].ladder, Head(s.log), a);
    }
  }

  lemma LandedAdd(store: Store, s: Sys, s': Sys, id: RunId) returns (run: Run, a: Attributed)
    requires SysInv(store, s) && Next(store, s, s', id, PutAdd) && s'.log != s.log
    ensures id in s.runs && run == s.runs[id]
    ensures run.Enrolling? && run.phase.PendingPersisted? && AddLandsRight(s, s', run, a)
    ensures store.putServesEtag ==> run.phase.base == run.phase.seenAt
    ensures run.phase.base == run.phase.seenAt ==>
              && run.client !in Head(s.log).clients
              && a == Attributed(run.phase.rung, Revealed) && Verifies(s'.log)
  {
    AddShape(store, s, s', id);
    run := s.runs[id];
    a := LandsRight(store, s, s', id);
    UnmovedHead(store, s, id, a);
  }
}
