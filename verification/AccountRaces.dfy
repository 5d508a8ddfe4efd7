/** Interleavings, from an account's genesis, that reach what its ceremonies do not
    promise: an add entry that spends no rung, one that readers refuse, and a
    removal that takes another credential's ladder. */
module AccountRaces {
  import opened Seqs
  import opened WebvhLog
  import opened Ladder
  import opened ClientRemoval
  import opened AccountEntries
  import opened AccountInvariant
  import opened AccountEffects
  import opened AccountRuns
  import opened AccountLimits

  // ---- Building executions

  /** An execution so far, every caller of which kept its side. */
  ghost predicate Trace(store: Store, states: seq<Sys>, moves: seq<Move>, s: Sys) {
    && Execution(store, states, moves) && CarefulRuns(states, moves)
    && states[|moves|] == s
  }

  lemma OneMoreMove(store: Store, states: seq<Sys>, moves: seq<Move>, s': Sys, id: RunId, step: Step)
    requires Execution(store, states, moves) && Next(store, states[|moves|], s', id, step)
    ensures Execution(store, states + [s'], moves + [Move(id, step)])
    ensures (states + [s'])[|moves| + 1] == s'
    ensures CarefulRuns(states, moves) && Careful(states[|moves|], id, step) ==>
              CarefulRuns(states + [s'], moves + [Move(id, step)])
  {
    var states', moves' := states + [s'], moves + [Move(id, step)];
    assert states'[0] == states[0] && states'[|moves|] == states[|moves|];
    forall i | 0 <= i < |moves'| ensures Next(store, states'[i], states'[i + 1], moves'[i].id, moves'[i].step) {
      if i < |moves| {
        assert states'[i] == states[i] && states'[i + 1] == states[i + 1] && moves'[i] == moves[i];
        assert Next(store, states[i], states[i + 1], moves[i].id, moves[i].step);
      }
    }
    if CarefulRuns(states, moves) && Careful(states[|moves|], id, step) {
      forall i | 0 <= i < |moves'| ensures Careful(states'[i], moves'[i].id, moves'[i].step) {
        if i < |moves| {
          assert states'[i] == states[i] && moves'[i] == moves[i];
          assert Careful(states[i], moves[i].id, moves[i].step);
        }
      }
    }
  }

  lemma Moved(store: Store, states: seq<Sys>, moves: seq<Move>, s: Sys, s': Sys, id: RunId, step: Step)
    returns (states': seq<Sys>, moves': seq<Move>)
    requires Trace(store, states, moves, s) && Next(store, s, s', id, step) && Careful(s, id, step)
    ensures Trace(store, states', moves', s')
  {
    OneMoreMove(store, states, moves, s', id, step);
    states', moves' := states + [s'], moves + [Move(id, step)];
  }

  function Start(ladder: LadderId): Sys {
    Sys(GenesisLog(ladder), {ladder}, map[], {})
  }

  lemma Started(store: Store, ladder: LadderId) returns (states: seq<Sys>, moves: seq<Move>)
    ensures Trace(store, states, moves, Start(ladder))
    ensures Inv(GenesisLog(ladder), {ladder}) && ActsAt(ladder, Head(GenesisLog(ladder)), Attributed(0, Revealed))
  {
    states, moves := [Start(ladder)], [];
    GenesisHolds(ladder);
    GenesisActs(ladder);
  }

  function WithEnrolling(s: Sys, id: RunId, ladder: LadderId, c: ClientId, phase: Phase): Sys {
    s.(runs := s.runs[id := Enrolling(ladder, c, phase)])
  }

  lemma PhaseSet(s: Sys, id: RunId, ladder: LadderId, c: ClientId, phase: Phase, phase': Phase)
    ensures WithPhase(WithEnrolling(s, id, ladder, c, phase), id, phase') == WithEnrolling(s, id, ladder, c, phase')
  {
    var begun: map<RunId, Run> := s.runs[id := Enrolling(ladder, c, phase)];
    assert begun[id := Enrolling(ladder, c, phase')] == s.runs[id := Enrolling(ladder, c, phase')];
  }

  // ---- A self-enrollment's first half

  /** Where a run stands when its reveal at `at` has landed: holding that head on a
      store that answers a PUT with its ETag, else about to re-read it. */
  function RevealedPhase(store: Store, at: nat, rung: nat): Phase {
    if store.putServesEtag then Holding(at, at, rung) else Rereading(at, rung)
  }

  function AfterReveal(store: Store, s: Sys, id: RunId, ladder: LadderId, a: Attributed, c: ClientId): Sys {
    WithEnrolling(s.(log := s.log + [RevealEntry(Head(s.log), ladder, a, c)]), id, ladder, c,
                  RevealedPhase(store, |s.log|, a.rung))
  }

  function Planned(s: Sys, id: RunId, ladder: LadderId, a: Attributed, c: ClientId): Sys {
    WithEnrolling(s, id, ladder, c,
                  RevealPlanned(|s.log| - 1, RevealEntry(Head(s.log), ladder, a, c), a.rung))
  }

  lemma EnrollmentReads(store: Store, s: Sys, id: RunId, ladder: LadderId, a: Attributed, c: ClientId)
    requires Inv(s.log, s.bound) && ladder in s.bound && ActsAt(ladder, Head(s.log), a) && a.rung < LADDER_MAX_SCAN
    requires c !in Head(s.log).clients && HashOf(Active(c)) !in Head(s.log).nextKeyHashes
    ensures Next(store, WithEnrolling(s, id, ladder, c, Starting), Planned(s, id, ladder, a, c), id, ReadHead)
  {
    var started, e := WithEnrolling(s, id, ladder, c, Starting), RevealEntry(Head(s.log), ladder, a, c);
    RevealIsPlanned(s.log, s.bound, ladder, a, c);
    PhaseSet(s, id, ladder, c, Starting, RevealPlanned(|s.log| - 1, e, a.rung));
    assert e.signer == Rung(ladder, a.rung);
    assert AfterRead(started, id) == Planned(s, id, ladder, a, c);
  }

  lemma EnrollmentReveals(store: Store, s: Sys, id: RunId, ladder: LadderId, a: Attributed, c: ClientId)
    ensures Next(store, Planned(s, id, ladder, a, c), AfterReveal(store, s, id, ladder, a, c), id, PutReveal)
  {
    var e := RevealEntry(Head(s.log), ladder, a, c);
    PhaseSet(s, id, ladder, c, RevealPlanned(|s.log| - 1, e, a.rung), RevealedPhase(store, |s.log|, a.rung));
  }

  lemma RevealRun(store: Store, states: seq<Sys>, moves: seq<Move>, s: Sys, id: RunId, ladder: LadderId,
                  a: Attributed, c: ClientId)
    returns (states': seq<Sys>, moves': seq<Move>)
    requires Trace(store, states, moves, s) && id !in s.runs
    requires Inv(s.log, s.bound) && ladder in s.bound && ActsAt(ladder, Head(s.log), a) && a.rung < LADDER_MAX_SCAN
    requires c !in Head(s.log).clients && HashOf(Active(c)) !in Head(s.log).nextKeyHashes
    ensures Trace(store, states', moves', AfterReveal(store, s, id, ladder, a, c))
  {
    EnrollmentReads(store, s, id, ladder, a, c);
    EnrollmentReveals(store, s, id, ladder, a, c);
    states', moves' := Moved(store, states, moves, s, WithEnrolling(s, id, ladder, c, Starting), id,
                             BeginEnrollment(ladder, c));
    states', moves' := Moved(store, states', moves', WithEnrolling(s, id, ladder, c, Starting),
                             Planned(s, id, ladder, a, c), id, ReadHead);
    states', moves' := Moved(store, states', moves', Planned(s, id, ladder, a, c),
                             AfterReveal(store, s, id, ladder, a, c), id, PutReveal);
  }

  // ---- Its second half, on whatever head stands then

  function AfterAdd(s: Sys, id: RunId, ladder: LadderId, rung: nat, c: ClientId): Sys {
    WithEnrolling(s.(log := s.log + [AddEntry(Head(s.log), ladder, rung, c)], persisted := s.persisted + {c}),
                  id, ladder, c, Finished(true))
  }

  lemma EnrollmentAdds(store: Store, s: Sys, id: RunId, ladder: LadderId, rung: nat, seenAt: nat, c: ClientId)
    requires Verifies(s.log)
    requires store.refusesUncommitted ==> Accepts(Head(s.log), AddEntry(Head(s.log), ladder, rung, c))
    ensures var base := |s.log| - 1;
            var held := WithEnrolling(s, id, ladder, c, Holding(base, seenAt, rung));
            var pending := WithEnrolling(s.(persisted := s.persisted + {c}), id, ladder, c, PendingPersisted(base, seenAt, rung));
            && Next(store, WithEnrolling(s, id, ladder, c, Rereading(seenAt, rung)), held, id, Reread)
            && Next(store, held, pending, id, PersistPending)
            && Next(store, pending, AfterAdd(s, id, ladder, rung, c), id, PutAdd)
  {
    var base := |s.log| - 1;
    PhaseSet(s, id, ladder, c, Rereading(seenAt, rung), Holding(base, seenAt, rung));
    PhaseSet(s, id, ladder, c, Holding(base, seenAt, rung), PendingPersisted(base, seenAt, rung));
    PhaseSet(s.(persisted := s.persisted + {c}), id, ladder, c, PendingPersisted(base, seenAt, rung), Finished(true));
  }

  /** A run whose reveal landed, on the head it re-reads or already holds, adds. */
  lemma AddRun(store: Store, states: seq<Sys>, moves: seq<Move>, s: Sys, id: RunId, ladder: LadderId,
               phase: Phase, c: ClientId)
    returns (states': seq<Sys>, moves': seq<Move>)
    requires id in s.runs && s.runs[id] == Enrolling(ladder, c, phase)
    requires phase.Rereading? || (phase.Holding? && phase.base == |s.log| - 1)
    requires Trace(store, states, moves, s) && Verifies(s.log)
    requires store.refusesUncommitted ==> Accepts(Head(s.log), AddEntry(Head(s.log), ladder, phase.rung, c))
    ensures Trace(store, states', moves', AfterAdd(s, id, ladder, phase.rung, c))
  {
    var base, rung, seenAt := |s.log| - 1, phase.rung, phase.seenAt;
    var held := WithEnrolling(s, id, ladder, c, Holding(base, seenAt, rung));
    var pending := WithEnrolling(s.(persisted := s.persisted + {c}), id, ladder, c, PendingPersisted(base, seenAt, rung));
    assert s.runs[id := Enrolling(ladder, c, phase)] == s.runs;
    EnrollmentAdds(store, s, id, ladder, rung, seenAt, c);
    states', moves' := states, moves;
    if phase.Rereading? { states', moves' := Moved(store, states, moves, s, held, id, Reread); }
    states', moves' := Moved(store, states', moves', held, pending, id, PersistPending);
    states', moves' := Moved(store, states', moves', pending, AfterAdd(s, id, ladder, rung, c), id, PutAdd);
  }

  // ---- A single-entry ceremony

  function AfterSingle(s: Sys, cer: Ceremony): Sys
    requires PlanFor(cer, s.log).Publish?
  {
    s.(log := s.log + [PlanFor(cer, s.log).entry], bound := BoundAfter(cer, s.bound))
  }

  lemma SingleSteps(store: Store, s: Sys, id: RunId, cer: Ceremony)
    requires id !in s.runs && Verifies(s.log) && PlanFor(cer, s.log).Publish? && !cer.SetLadderVm?
    ensures var begun := s.(runs := s.runs[id := Single(cer, None, |s.log| - 1)]);
            Next(store, s, begun, id, BeginSingle(cer, None)) && Next(store, begun, AfterSingle(s, cer), id, PutSingle)
  {
    var begun := s.(runs := s.runs[id := Single(cer, None, |s.log| - 1)]);
    assert begun.runs - {id} == s.runs;
  }

  lemma SingleRun(store: Store, states: seq<Sys>, moves: seq<Move>, s: Sys, id: RunId, cer: Ceremony)
    returns (states': seq<Sys>, moves': seq<Move>)
    requires Trace(store, states, moves, s) && id !in s.runs && Verifies(s.log)
    requires PlanFor(cer, s.log).Publish? && !cer.SetLadderVm? && Admissible(cer, s.log, s.bound)
    ensures Trace(store, states', moves', AfterSingle(s, cer))
  {
    var begun := s.(runs := s.runs[id := Single(cer, None, |s.log| - 1)]);
    SingleSteps(store, s, id, cer);
    states', moves' := Moved(store, states, moves, s, begun, id, BeginSingle(cer, None));
    states', moves' := Moved(store, states', moves', begun, AfterSingle(s, cer), id, PutSingle);
  }

  // ---- Two adds, one rung

  lemma RevealReadiesBoth(log: Log, bound: set<LadderId>, ladder: LadderId, rung: nat, c: ClientId, d: ClientId)
    requires Inv(log, bound) && ladder in bound && ReadyToAdd(Head(log), ladder, rung, c) && rung < LADDER_MAX_SCAN
    requires c != d && d !in Head(log).clients && HashOf(Active(d)) !in Head(log).nextKeyHashes
    ensures var e := RevealEntry(Head(log), ladder, Attributed(rung, Revealed), d);
            Inv(log + [e], bound) && ReadyToAdd(e, ladder, rung, c) && ReadyToAdd(e, ladder, rung, d)
  {
    var a := Attributed(rung, Revealed);
    RevealKeeps(log, bound, ladder, a, d);
    RevealHashes(Head(log), ladder, a, d, HashOf(Active(c)));
    RevealHashes(Head(log), ladder, a, d, HashOf(Staged(c)));
    RevealKeys(Head(log), ladder, a, d, Active(c));
  }

  /** Two enrollments at the re-read of one verified head that is ready for both. */
  ghost predicate BothReady(s: Sys, ladder: LadderId, c: ClientId, d: ClientId) {
    && 0 in s.runs && s.runs[0] == Enrolling(ladder, c, Rereading(1, 0))
    && 1 in s.runs && s.runs[1] == Enrolling(ladder, d, Rereading(2, 0))
    && |s.log| == 3 && s.bound == {ladder} && Inv(s.log, {ladder}) && Head(s.log).clients == {}
    && ReadyToAdd(Head(s.log), ladder, 0, c) && ReadyToAdd(Head(s.log), ladder, 0, d)
  }

  lemma RevealedPending(ladder: LadderId, c: ClientId)
    ensures var e := RevealEntry(Head(GenesisLog(ladder)), ladder, Attributed(0, Revealed), c);
            var log := GenesisLog(ladder) + [e];
            && Inv(log, {ladder}) && ActsAt(ladder, e, Attributed(0, Revealed))
            && KeyGone(e, c) && e.clients == {}
  {
    var g, a := GenesisLog(ladder), Attributed(0, Revealed);
    GenesisHolds(ladder);
    GenesisActs(ladder);
    RevealKeeps(g, {ladder}, ladder, a, c);
    var e := RevealEntry(Head(g), ladder, a, c);
    assert Head(g + [e]) == e;
  }

  lemma OneRevealed(store: Store, ladder: LadderId, c: ClientId)
    returns (states: seq<Sys>, moves: seq<Move>, s: Sys)
    requires !store.putServesEtag
    ensures Trace(store, states, moves, s)
    ensures s.runs == map[0 := Enrolling(ladder, c, Rereading(1, 0))] && |s.log| == 2 && s.bound == {ladder}
    ensures Inv(s.log, {ladder}) && ReadyToAdd(Head(s.log), ladder, 0, c) && Head(s.log).clients == {}
    ensures forall d :: d != c ==> HashOf(Active(d)) !in Head(s.log).nextKeyHashes
  {
    var s0, a := Start(ladder), Attributed(0, Revealed);
    states, moves := Started(store, ladder);
    states, moves := RevealRun(store, states, moves, s0, 0, ladder, a, c);
    s := AfterReveal(store, s0, 0, ladder, a, c);
    RevealedPending(ladder, c);
    RevealKeeps(s0.log, {ladder}, ladder, a, c);
    forall d | d != c ensures HashOf(Active(d)) !in RevealEntry(Head(s0.log), ladder, a, c).nextKeyHashes {
      RevealMarks(Head(s0.log), ladder, a, c, d);
    }
  }

  lemma BothRevealed(store: Store, ladder: LadderId, c: ClientId, d: ClientId)
    returns (states: seq<Sys>, moves: seq<Move>, s: Sys)
    requires !store.putServesEtag && c != d
    ensures Trace(store, states, moves, s) && BothReady(s, ladder, c, d)
  {
    var s1: Sys;
    states, moves, s1 := OneRevealed(store, ladder, c);
    var a := Attributed(0, Revealed);
    RevealReadiesBoth(s1.log, {ladder}, ladder, 0, c, d);
    states, moves := RevealRun(store, states, moves, s1, 1, ladder, a, d);
    s := AfterReveal(store, s1, 1, ladder, a, d);
    assert Head(s.log) == RevealEntry(Head(s1.log), ladder, a, d);
  }

  lemma FirstAdd(log: Log, bound: set<LadderId>, ladder: LadderId, rung: nat, c: ClientId, d: ClientId)
    requires Inv(log, bound) && ladder in bound && c != d
    requires ReadyToAdd(Head(log), ladder, rung, c) && HashOf(Active(d)) in Head(log).nextKeyHashes
    ensures var first := AddEntry(Head(log), ladder, rung, c);
            && Inv(log + [first], bound) && Accepts(Head(log), first)
            && ActsAt(ladder, first, Attributed(rung + 1, Committed)) && HashOf(Active(d)) in first.nextKeyHashes
  {
    AddClimbs(log, bound, ladder, rung, c);
    assert CarriesOver(Head(log));
    AddAcceptedIff(Head(log), ladder, rung, c);
    AddMarks(Head(log), ladder, rung, c, d);
  }

  lemma LaterAdd(log: Log, bound: set<LadderId>, ladder: LadderId, rung: nat, d: ClientId)
    requires Inv(log, bound) && ladder in bound && ActsAt(ladder, Head(log), Attributed(rung + 1, Committed))
    requires HashOf(Active(d)) in Head(log).nextKeyHashes
    ensures var second := AddEntry(Head(log), ladder, rung, d);
            && Inv(log + [second], bound) && Accepts(Head(log), second)
            && ActsAt(ladder, second, Attributed(rung + 1, Committed))
  {
    assert CarriesOver(Head(log));
    assert AtOrPast(Head(log), ladder, Attributed(rung + 1, Committed), rung);
    AddAcceptedIff(Head(log), ladder, rung, d);
    AddKeepsInvariant(log, bound, ladder, rung, d);
    AddFrontier(Head(log), ladder, Attributed(rung + 1, Committed), rung, d);
  }

  /** The first of the two adds lands, and spends the rung. */
  lemma OneAdded(store: Store, ladder: LadderId, c: ClientId, d: ClientId)
    returns (states: seq<Sys>, moves: seq<Move>, s: Sys)
    requires !store.putServesEtag && c != d
    ensures Trace(store, states, moves, s)
    ensures 1 in s.runs && s.runs[1] == Enrolling(ladder, d, Rereading(2, 0))
    ensures |s.log| == 4 && Inv(s.log, {ladder}) && Head(s.log).clients == {c}
    ensures ActsAt(ladder, Head(s.log), Attributed(1, Committed)) && HashOf(Active(d)) in Head(s.log).nextKeyHashes
  {
    var s2: Sys;
    states, moves, s2 := BothRevealed(store, ladder, c, d);
    FirstAdd(s2.log, {ladder}, ladder, 0, c, d);
    states, moves := AddRun(store, states, moves, s2, 0, ladder, Rereading(1, 0), c);
    s := AfterAdd(s2, 0, ladder, 0, c);
    assert Head(s.log) == AddEntry(Head(s2.log), ladder, 0, c);
  }

  /** Two self-enrollments of one credential, each revealing, then each re-reading
      the head its add entry is built on: both clients are in, the log verifies,
      and one rung was spent. */
  lemma TwoAddsSpendOneRung(store: Store, ladder: LadderId, c: ClientId, d: ClientId)
    returns (states: seq<Sys>, moves: seq<Move>)
    requires !store.putServesEtag && c != d
    ensures Execution(store, states, moves) && CarefulRuns(states, moves)
    ensures var s := states[|moves|];
            && |s.log| == 5 && Verifies(s.log) && Head(s.log).clients == {c, d}
            && ActsAt(ladder, Head(s.log), Attributed(1, Committed))
  {
    var s3: Sys;
    states, moves, s3 := OneAdded(store, ladder, c, d);
    LaterAdd(s3.log, {ladder}, ladder, 0, d);
    states, moves := AddRun(store, states, moves, s3, 1, ladder, Rereading(2, 0), d);
    var s := AfterAdd(s3, 1, ladder, 0, d);
    assert Head(s.log) == AddEntry(Head(s3.log), ladder, 0, d);
  }

  // ---- A pending client forgotten under its own enrollment

  lemma PlanAttributed(cer: Ceremony, log: Log, a: Attributed)
    requires !cer.MovePointerAsClient? && !cer.BindAsClient?
    requires !Settled(cer, log) && Inadmissible(cer, log) == None && Attribute(cer.ladder, Head(log)) == Success(a)
    ensures PlanFor(cer, log) == PlanAsLadder(cer, cer.ladder, log, a)
  {
  }

  lemma RemovalAsLadder(cer: Ceremony, log: Log, a: Attributed)
    requires cer.Forget? || cer.ForgetLast?
    ensures PlanAsLadder(cer, cer.ladder, log, a) ==
            PlanRemoval(log, cer.ladder, a, cer.client, cer.vouched, cer.derived)
  {
  }

  lemma ForgetPlan(log: Log, ladder: LadderId, a: Attributed, c: ClientId)
    requires ActsAt(ladder, Head(log), a) && a.rung < LADDER_MAX_SCAN
    requires HashOf(Active(c)) in Head(log).nextKeyHashes && Head(log).clients != {c}
    ensures PlanFor(Forget(ladder, c, {}, {}), log) == PlanRemoval(log, ladder, a, c, {}, {})
  {
    AttributionRecoversTheFrontier(ladder, Head(log), a);
    PlanAttributed(Forget(ladder, c, {}, {}), log, a);
    RemovalAsLadder(Forget(ladder, c, {}, {}), log, a);
  }

  /** Forgetting a client whose hashes stand without its key takes its update-key
      hash out. */
  lemma PendingForgotten(log: Log, bound: set<LadderId>, ladder: LadderId, a: Attributed, c: ClientId)
    requires Inv(log, bound) && ladder in bound && ActsAt(ladder, Head(log), a) && a.rung < LADDER_MAX_SCAN
    requires KeyGone(Head(log), c) && Head(log).clients != {c}
    ensures var cer := Forget(ladder, c, {}, {});
            && PlanFor(cer, log).Publish? && Admissible(cer, log, bound)
            && Inv(log + [PlanFor(cer, log).entry], bound)
            && HashOf(Active(c)) !in PlanFor(cer, log).entry.nextKeyHashes
  {
    var cer := Forget(ladder, c, {}, {});
    ForgetPlan(log, ladder, a, c);
    RemovalPlan(log, bound, ladder, a, c, {}, {});
    CeremonyKeepsInvariant(log, bound, cer);
  }

  lemma RefusedAdd(log: Log, ladder: LadderId, rung: nat, c: ClientId)
    requires Verifies(log) && CarriesOver(Head(log)) && HashOf(Active(c)) !in Head(log).nextKeyHashes
    ensures !Verifies(log + [AddEntry(Head(log), ladder, rung, c)])
  {
    AddAcceptedIff(Head(log), ladder, rung, c);
    AppendedVerifiesIff(log, AddEntry(Head(log), ladder, rung, c));
  }

  lemma ReadyPending(e: Entry, ladder: LadderId, rung: nat, c: ClientId)
    requires ReadyToAdd(e, ladder, rung, c)
    ensures KeyGone(e, c)
  {
  }

  lemma PendingGone(store: Store, ladder: LadderId, c: ClientId)
    returns (states: seq<Sys>, moves: seq<Move>, s: Sys)
    requires !store.putServesEtag
    ensures Trace(store, states, moves, s)
    ensures 0 in s.runs && s.runs[0] == Enrolling(ladder, c, Rereading(1, 0))
    ensures Inv(s.log, {ladder}) && HashOf(Active(c)) !in Head(s.log).nextKeyHashes
  {
    var s1: Sys;
    states, moves, s1 := OneRevealed(store, ladder, c);
    var cer := Forget(ladder, c, {}, {});
    ReadyPending(Head(s1.log), ladder, 0, c);
    PendingForgotten(s1.log, {ladder}, ladder, Attributed(0, Revealed), c);
    states, moves := SingleRun(store, states, moves, s1, 1, cer);
    s := AfterSingle(s1, cer);
    assert Head(s.log) == PlanFor(cer, s1.log).entry;
  }

  /** A self-enrollment reveals; its pending client is forgotten; it re-reads the
      head, which verifies, and adds: where nothing refuses the append, the log
      verifies no more -- though every caller kept its side. */
  lemma ForgottenPendingBreaksTheLog(store: Store, ladder: LadderId, c: ClientId)
    returns (states: seq<Sys>, moves: seq<Move>)
    requires !Sound(store)
    ensures Execution(store, states, moves) && CarefulRuns(states, moves)
    ensures !Verifies(states[|moves|].log)
  {
    var s2: Sys;
    states, moves, s2 := PendingGone(store, ladder, c);
    assert CarriesOver(Head(s2.log));
    RefusedAdd(s2.log, ladder, 0, c);
    states, moves := AddRun(store, states, moves, s2, 0, ladder, Rereading(1, 0), c);
  }

  // ---- A ladder taken with a client

  /** `ladder` revealed at its first rung, `other` committed at its first. */
  ghost predicate BothActing(e: Entry, ladder: LadderId, other: LadderId) {
    && ActsAt(ladder, e, Attributed(0, Revealed)) && ActsAt(other, e, Attributed(0, Committed))
    && ladder in e.ladderVms
  }

  lemma SameRungsAct(l: LadderId, before: Entry, after: Entry, a: Attributed)
    requires forall j: nat :: Rung(l, j) in after.updateKeys <==> Rung(l, j) in before.updateKeys
    requires forall j: nat :: HashOf(Rung(l, j)) in after.nextKeyHashes <==> HashOf(Rung(l, j)) in before.nextKeyHashes
    requires ActsAt(l, before, a)
    ensures ActsAt(l, after, a)
  {
  }

  lemma RevealLeavesOthers(head: Entry, ladder: LadderId, a: Attributed, c: ClientId, l: LadderId, b: Attributed)
    requires l != ladder && ActsAt(l, head, b)
    ensures ActsAt(l, RevealEntry(head, ladder, a, c), b)
  {
    var e := RevealEntry(head, ladder, a, c);
    forall j: nat ensures Rung(l, j) in e.updateKeys <==> Rung(l, j) in head.updateKeys {
      RevealKeys(head, ladder, a, c, Rung(l, j));
    }
    forall j: nat ensures HashOf(Rung(l, j)) in e.nextKeyHashes <==> HashOf(Rung(l, j)) in head.nextKeyHashes {
      RevealHashes(head, ladder, a, c, HashOf(Rung(l, j)));
    }
    SameRungsAct(l, head, e, b);
  }

  lemma AddLeavesOthers(head: Entry, ladder: LadderId, rung: nat, c: ClientId, l: LadderId, b: Attributed)
    requires l != ladder && ActsAt(l, head, b)
    ensures ActsAt(l, AddEntry(head, ladder, rung, c), b)
  {
    var e := AddEntry(head, ladder, rung, c);
    forall j: nat
      ensures Rung(l, j) in e.updateKeys <==> Rung(l, j) in head.updateKeys
      ensures HashOf(Rung(l, j)) in e.nextKeyHashes <==> HashOf(Rung(l, j)) in head.nextKeyHashes
    {
      AddOtherRungs(head, ladder, rung, c, l, j);
    }
    SameRungsAct(l, head, e, b);
  }

  lemma RemovalLeavesOthers(head: Entry, ladder: LadderId, rung: nat, c: ClientId, f: Fields, l: LadderId, b: Attributed)
    requires l != ladder && ActsAt(l, head, b) && TakesOut(head, c, f)
    ensures ActsAt(l, SignedAs(Rung(ladder, rung), f), b)
  {
    SameRungsAct(l, head, SignedAs(Rung(ladder, rung), f), b);
  }

  lemma BindPlan(ladder: LadderId, other: LadderId)
    requires ladder != other
    ensures var cer, log := Bind(ladder, other), GenesisLog(ladder);
            && PlanFor(cer, log).Publish? && Admissible(cer, log, {ladder})
            && BothActing(PlanFor(cer, log).entry, ladder, other) && PlanFor(cer, log).entry.clients == {}
            && (forall c: ClientId :: HashOf(Active(c)) !in PlanFor(cer, log).entry.nextKeyHashes)
            && (forall c: ClientId :: HashOf(Staged(c)) !in PlanFor(cer, log).entry.nextKeyHashes)
  {
    var g := Head(GenesisLog(ladder));
    GenesisActs(ladder);
    AttributionRecoversTheFrontier(ladder, g, Attributed(0, Revealed));
    BoundEntry(ladder, other);
  }

  lemma BoundEntry(ladder: LadderId, other: LadderId)
    requires ladder != other
    ensures var g := Head(GenesisLog(ladder));
            var e := SignedAs(Rung(ladder, 0), Unchanged(g).(
              commitHashes := [HashOf(Rung(other, 0))], ladderVms := g.ladderVms + {other}));
            && BothActing(e, ladder, other)
            && (forall c: ClientId :: HashOf(Active(c)) !in e.nextKeyHashes)
            && (forall c: ClientId :: HashOf(Staged(c)) !in e.nextKeyHashes)
  {
  }

  lemma OtherBound(store: Store, ladder: LadderId, other: LadderId)
    returns (states: seq<Sys>, moves: seq<Move>, s: Sys)
    requires ladder != other
    ensures Trace(store, states, moves, s) && s.runs == map[] && s.bound == {ladder, other} && |s.log| == 2
    ensures Inv(s.log, s.bound) && BothActing(Head(s.log), ladder, other) && Head(s.log).clients == {}
    ensures forall c: ClientId :: HashOf(Active(c)) !in Head(s.log).nextKeyHashes
    ensures forall c: ClientId :: HashOf(Staged(c)) !in Head(s.log).nextKeyHashes
  {
    var s0, cer := Start(ladder), Bind(ladder, other);
    states, moves := Started(store, ladder);
    BindPlan(ladder, other);
    CeremonyKeepsInvariant(s0.log, {ladder}, cer);
    states, moves := SingleRun(store, states, moves, s0, 0, cer);
    s := AfterSingle(s0, cer);
    assert Head(s.log) == PlanFor(cer, s0.log).entry;
    assert {ladder} + {other} == {ladder, other};
  }

  lemma OtherPending(store: Store, ladder: LadderId, other: LadderId, c: ClientId)
    returns (states: seq<Sys>, moves: seq<Move>, s: Sys)
    requires ladder != other
    ensures Trace(store, states, moves, s) && 1 !in s.runs && 2 !in s.runs && s.bound == {ladder, other}
    ensures Inv(s.log, s.bound) && BothActing(Head(s.log), ladder, other) && Head(s.log).clients == {}
    ensures KeyGone(Head(s.log), c)
  {
    var s1: Sys;
    states, moves, s1 := OtherBound(store, ladder, other);
    var a := Attributed(0, Revealed);
    states, moves := RevealRun(store, states, moves, s1, 0, ladder, a, c);
    s := AfterReveal(store, s1, 0, ladder, a, c);
    var e := RevealEntry(Head(s1.log), ladder, a, c);
    RevealKeeps(s1.log, s1.bound, ladder, a, c);
    RevealLeavesOthers(Head(s1.log), ladder, a, c, other, Attributed(0, Committed));
    assert Head(s.log) == e;
    ReadyPending(e, ladder, 0, c);
  }

  lemma ForgottenActs(log: Log, bound: set<LadderId>, ladder: LadderId, other: LadderId, c: ClientId)
    requires Inv(log, bound) && ladder in bound && ladder != other && BothActing(Head(log), ladder, other)
    requires KeyGone(Head(log), c)
    ensures PlanRemoval(log, ladder, Attributed(0, Revealed), c, {}, {}).Publish?
    ensures var e := PlanRemoval(log, ladder, Attributed(0, Revealed), c, {}, {}).entry;
            BothActing(e, ladder, other) && SplitPair(e, c) && e.clients == Head(log).clients - {c}
  {
    var a := Attributed(0, Revealed);
    var vouched := {} + LadderHashes(ladder, a);
    assert CarriesOver(Head(log));
    RemovalTakesOutOneClient(log, c, vouched, {});
    assert Traced(log, c);
    RemovalSplitsIff(log, bound, ladder, a, c, {}, {});
    var f := RemovalFields(log, c, vouched, {}).value;
    SignedByActingRung(Head(log), bound, ladder, a, f, {});
    RemovalLeavesOthers(Head(log), ladder, 0, c, f, other, Attributed(0, Committed));
  }

  /** The bound credential's client, forgotten while pending: its pair is split. */
  lemma PairSplit(store: Store, ladder: LadderId, other: LadderId, c: ClientId)
    returns (states: seq<Sys>, moves: seq<Move>, s: Sys)
    requires ladder != other
    ensures Trace(store, states, moves, s) && 1 !in s.runs && 2 !in s.runs && s.bound == {ladder, other}
    ensures Inv(s.log, s.bound) && BothActing(Head(s.log), ladder, other) && Head(s.log).clients == {}
    ensures SplitPair(Head(s.log), c)
  {
    var s1: Sys;
    states, moves, s1 := OtherPending(store, ladder, other, c);
    var cer := Forget(ladder, c, {}, {});
    PendingForgotten(s1.log, s1.bound, ladder, Attributed(0, Revealed), c);
    ForgetPlan(s1.log, ladder, Attributed(0, Revealed), c);
    ForgottenActs(s1.log, s1.bound, ladder, other, c);
    states, moves := SingleRun(store, states, moves, s1, 1, cer);
    s := AfterSingle(s1, cer);
    assert Head(s.log) == PlanFor(cer, s1.log).entry;
  }

  lemma SplitReveal(log: Log, bound: set<LadderId>, ladder: LadderId, other: LadderId, c: ClientId)
    requires Inv(log, bound) && {ladder, other} <= bound && ladder != other && BothActing(Head(log), ladder, other)
    requires SplitPair(Head(log), c) && c !in Head(log).clients
    ensures var e := RevealEntry(Head(log), other, Attributed(0, Committed), c);
            && Inv(log + [e], bound) && ReadyToAdd(e, other, 0, c)
            && ActsAt(ladder, e, Attributed(0, Revealed)) && ladder in e.ladderVms && e.clients == Head(log).clients
  {
    RevealKeeps(log, bound, other, Attributed(0, Committed), c);
    RevealLeavesOthers(Head(log), other, Attributed(0, Committed), c, ladder, Attributed(0, Revealed));
  }

  lemma SplitAdd(log: Log, bound: set<LadderId>, ladder: LadderId, other: LadderId, c: ClientId)
    requires Inv(log, bound) && {ladder, other} <= bound && ladder != other
    requires ReadyToAdd(Head(log), other, 0, c)
    requires ActsAt(ladder, Head(log), Attributed(0, Revealed)) && ladder in Head(log).ladderVms
    ensures var f := AddEntry(Head(log), other, 0, c);
            && Inv(log + [f], bound) && Accepts(Head(log), f)
            && ActsAt(ladder, f, Attributed(0, Revealed)) && ladder in f.ladderVms && f.clients == Head(log).clients + {c}
  {
    AddClimbs(log, bound, other, 0, c);
    assert CarriesOver(Head(log));
    AddAcceptedIff(Head(log), other, 0, c);
    AddLeavesOthers(Head(log), other, 0, c, ladder, Attributed(0, Revealed));
  }

  /** `other` reveals for the client again, beside the staged hash left standing. */
  lemma SplitRevealed(store: Store, ladder: LadderId, other: LadderId, c: ClientId)
    returns (states: seq<Sys>, moves: seq<Move>, s: Sys, before: Log)
    requires ladder != other
    ensures Trace(store, states, moves, s) && 2 !in s.runs && s.bound == {ladder, other} && Inv(s.log, s.bound)
    ensures 1 in s.runs && s.runs[1] == Enrolling(other, c, RevealedPhase(store, |before|, 0))
    ensures ActsAt(ladder, Head(s.log), Attributed(0, Revealed)) && ladder in Head(s.log).ladderVms
    ensures Head(s.log).clients == {} && ReadyToAdd(Head(s.log), other, 0, c)
    ensures SplitPair(Head(before), c) && ActsAt(other, Head(before), Attributed(0, Committed))
    ensures s.log == before + [RevealEntry(Head(before), other, Attributed(0, Committed), c)]
  {
    var s3: Sys;
    states, moves, s3 := PairSplit(store, ladder, other, c);
    var a := Attributed(0, Committed);
    before := s3.log;
    SplitReveal(before, s3.bound, ladder, other, c);
    states, moves := RevealRun(store, states, moves, s3, 1, other, a, c);
    s := AfterReveal(store, s3, 1, other, a, c);
    assert Head(s.log) == RevealEntry(Head(before), other, a, c);
  }

  lemma EnrolledOnceIs(before: Log, revealed: Log, ladder: LadderId, a: Attributed, c: ClientId)
    requires revealed == before + [RevealEntry(Head(before), ladder, a, c)]
    ensures revealed + [AddEntry(Head(revealed), ladder, a.rung, c)] == EnrolledOnce(before, ladder, a, c)
  {
  }

  lemma SplitAdded(s4: Sys, s: Sys, before: Log, ladder: LadderId, other: LadderId, c: ClientId)
    requires Inv(s4.log, s4.bound) && {ladder, other} <= s4.bound && ladder != other && Head(s4.log).clients == {}
    requires ReadyToAdd(Head(s4.log), other, 0, c)
    requires ActsAt(ladder, Head(s4.log), Attributed(0, Revealed)) && ladder in Head(s4.log).ladderVms
    requires s4.log == before + [RevealEntry(Head(before), other, Attributed(0, Committed), c)]
    requires s == AfterAdd(s4, 1, other, 0, c)
    ensures Inv(s.log, s.bound) && s.log == EnrolledOnce(before, other, Attributed(0, Committed), c)
    ensures ActsAt(ladder, Head(s.log), Attributed(0, Revealed)) && ladder in Head(s.log).ladderVms
    ensures Head(s.log).clients == {c}
  {
    SplitAdd(s4.log, s4.bound, ladder, other, c);
    EnrolledOnceIs(before, s4.log, other, Attributed(0, Committed), c);
    assert Head(s.log) == AddEntry(Head(s4.log), other, 0, c);
  }

  /** And adds it. */
  lemma SplitReenrolls(store: Store, ladder: LadderId, other: LadderId, c: ClientId)
    returns (states: seq<Sys>, moves: seq<Move>, s: Sys, before: Log)
    requires ladder != other
    ensures Trace(store, states, moves, s) && 2 !in s.runs && s.bound == {ladder, other} && Inv(s.log, s.bound)
    ensures ActsAt(ladder, Head(s.log), Attributed(0, Revealed)) && ladder in Head(s.log).ladderVms
    ensures Head(s.log).clients == {c}
    ensures SplitPair(Head(before), c) && ActsAt(other, Head(before), Attributed(0, Committed))
    ensures s.log == EnrolledOnce(before, other, Attributed(0, Committed), c)
  {
    var s4: Sys;
    states, moves, s4, before := SplitRevealed(store, ladder, other, c);
    SplitAdd(s4.log, s4.bound, ladder, other, c);
    states, moves := AddRun(store, states, moves, s4, 1, other, RevealedPhase(store, |before|, 0), c);
    s := AfterAdd(s4, 1, other, 0, c);
    SplitAdded(s4, s, before, ladder, other, c);
  }

  lemma OthersNextUnvouched(ladder: LadderId, other: LadderId)
    requires ladder != other
    ensures NextRungHash(other, Attributed(0, Committed)) !in {} + LadderHashes(ladder, Attributed(0, Revealed))
  {
  }

  lemma ForgetLastPlan(log: Log, ladder: LadderId, a: Attributed, c: ClientId, derived: set<Hash>)
    requires ActsAt(ladder, Head(log), a) && a.rung < LADDER_MAX_SCAN
    requires c in Head(log).clients && ladder in Head(log).ladderVms
    ensures PlanFor(ForgetLast(ladder, c, {}, derived), log) == PlanRemoval(log, ladder, a, c, {}, derived)
  {
    AttributionRecoversTheFrontier(ladder, Head(log), a);
    PlanAttributed(ForgetLast(ladder, c, {}, derived), log, a);
    RemovalAsLadder(ForgetLast(ladder, c, {}, derived), log, a);
  }

  lemma NoRungSigned(ladder: LadderId, other: LadderId, f: Fields)
    requires NoRung(other, f) && f.commitHashes == [] && ladder != other
    ensures !Standing(other, SignedAs(Rung(ladder, 0), f))
  {
  }

  lemma LadderTaken(log: Log, before: Log, bound: set<LadderId>, ladder: LadderId, other: LadderId, c: ClientId,
                    derived: set<Hash>)
    requires Inv(log, bound) && ladder != other && log == EnrolledOnce(before, other, Attributed(0, Committed), c)
    requires SplitPair(Head(before), c) && ActsAt(other, Head(before), Attributed(0, Committed))
    requires ActsAt(ladder, Head(log), Attributed(0, Revealed)) && ladder in Head(log).ladderVms
    requires c in Head(log).clients
    ensures var plan := PlanFor(ForgetLast(ladder, c, {}, derived), log);
            plan.Publish? && !Standing(other, plan.entry)
  {
    var a := Attributed(0, Revealed);
    OthersNextUnvouched(ladder, other);
    var _, _ := SplitPairLosesALadder(before, other, Attributed(0, Committed), c, {} + LadderHashes(ladder, a), derived);
    ForgetLastPlan(log, ladder, a, c, derived);
    assert CarriesOver(Head(log));
    NoRungSigned(ladder, other, RemovalFields(log, c, {} + LadderHashes(ladder, a), derived).value);
  }

  /** The removal that takes a ladder is one its own log told apart. */
  lemma TakingRemovesTwo(log: Log, bound: set<LadderId>, ladder: LadderId, other: LadderId, c: ClientId,
                         derived: set<Hash>)
    requires Inv(log, bound) && {ladder, other} <= bound
    requires var plan := PlanFor(ForgetLast(ladder, c, {}, derived), log);
             plan.Publish? && !Standing(other, plan.entry)
    ensures !RemovesOneClient(log, ladder, c, {})
  {
    var cer := ForgetLast(ladder, c, {}, derived);
    assert Head(log + [PlanFor(cer, log).entry]) == PlanFor(cer, log).entry;
    if RemovesOneClient(log, ladder, c, {}) { CeremonyKeepsInvariant(log, bound, cer); }
  }

  lemma LastSingle(store: Store, states: seq<Sys>, moves: seq<Move>, s: Sys, id: RunId, cer: Ceremony)
    returns (states': seq<Sys>, moves': seq<Move>)
    requires Trace(store, states, moves, s) && id !in s.runs && Verifies(s.log)
    requires PlanFor(cer, s.log).Publish? && !cer.SetLadderVm?
    ensures Execution(store, states', moves') && 0 < |moves'|
    ensures CarefulRuns(states'[..|moves'|], moves'[..|moves'| - 1])
    ensures states'[|moves'|] == AfterSingle(s, cer) && states'[|moves'| - 1].log == s.log
  {
    var begun := s.(runs := s.runs[id := Single(cer, None, |s.log| - 1)]);
    SingleSteps(store, s, id, cer);
    states', moves' := Moved(store, states, moves, s, begun, id, BeginSingle(cer, None));
    OneMoreMove(store, states', moves', AfterSingle(s, cer), id, PutSingle);
    assert (states' + [AfterSingle(s, cer)])[..|moves'| + 1] == states';
    assert (moves' + [Move(id, PutSingle)])[..|moves'|] == moves';
    states', moves' := states' + [AfterSingle(s, cer)], moves' + [Move(id, PutSingle)];
  }

  /** A client's enrollment reveals and is forgotten; another credential enrolls
      the client; the first forgets it again, deriving whatever it likes from the
      log walk: the other credential's ladder is gone from the log. Every caller
      but the last kept its side, and the last one's fault stands in the log it
      read: what was added beside the client's update-key hash was a rung's. */
  lemma ForgettingTakesALadder(store: Store, ladder: LadderId, other: LadderId, c: ClientId, derived: set<Hash>)
    returns (states: seq<Sys>, moves: seq<Move>)
    requires ladder != other
    ensures Execution(store, states, moves) && 0 < |moves|
    ensures CarefulRuns(states[..|moves|], moves[..|moves| - 1])
    ensures !RemovesOneClient(states[|moves| - 1].log, ladder, c, {})
    ensures other in states[|moves|].bound && !Standing(other, Head(states[|moves|].log))
  {
    var s: Sys, before: Log;
    states, moves, s, before := SplitReenrolls(store, ladder, other, c);
    LadderTaken(s.log, before, s.bound, ladder, other, c, derived);
    TakingRemovesTwo(s.log, s.bound, ladder, other, c, derived);
    states, moves := LastSingle(store, states, moves, s, 2, ForgetLast(ladder, c, {}, derived));
  }
}
