/** Where the account-log ceremonies stop short of what their documentation
    promises, each with the condition under which they meet it. */
module AccountLimits {
  import opened Seqs
  import opened WebvhLog
  import opened Ladder
  import opened ClientRemoval
  import opened AccountEntries
  import opened AccountInvariant
  import opened AccountEffects
  import opened AccountRuns

  // ---- The scanned range

  /** The log after one uncontended self-enrollment of `c`: the reveal by the
      acting rung, then the add entry that spends it. */
  function EnrolledOnce(log: Log, ladder: LadderId, a: Attributed, c: ClientId): Log {
    var e := RevealEntry(Head(log), ladder, a, c);
    log + [e] + [AddEntry(e, ladder, a.rung, c)]
  }

  lemma RevealIsPlanned(log: Log, bound: set<LadderId>, ladder: LadderId, a: Attributed, c: ClientId)
    requires Inv(log, bound) && ladder in bound && ActsAt(ladder, Head(log), a) && a.rung < LADDER_MAX_SCAN
    requires c !in Head(log).clients && HashOf(Active(c)) !in Head(log).nextKeyHashes
    ensures PlanFor(RevealAndCommit(ladder, c), log) == Publish(RevealEntry(Head(log), ladder, a, c))
  {
    AttributionRecoversTheFrontier(ladder, Head(log), a);
    assert NeededHashes(ladder, a, c)[0] in NeededHashes(ladder, a, c);
    assert CarriesOver(Head(log));
  }

  lemma AddIsReady(log: Log, bound: set<LadderId>, ladder: LadderId, a: Attributed, c: ClientId)
    requires Inv(log, bound) && ladder in bound && ActsAt(ladder, Head(log), a) && a.rung < LADDER_MAX_SCAN
    requires c !in Head(log).clients && HashOf(Active(c)) !in Head(log).nextKeyHashes
    ensures ReadyToAdd(RevealEntry(Head(log), ladder, a, c), ladder, a.rung, c)
  {
    RevealIsPlanned(log, bound, ladder, a, c);
    RevealLeavesReady(log, bound, ladder, c);
  }

  lemma RevealKeeps(log: Log, bound: set<LadderId>, ladder: LadderId, a: Attributed, c: ClientId)
    requires Inv(log, bound) && ladder in bound && ActsAt(ladder, Head(log), a) && a.rung < LADDER_MAX_SCAN
    requires c !in Head(log).clients && HashOf(Active(c)) !in Head(log).nextKeyHashes
    ensures var e := RevealEntry(Head(log), ladder, a, c);
            Inv(log + [e], bound) && ReadyToAdd(e, ladder, a.rung, c)
  {
    RevealAndCommitKeeps(log, bound, ladder, a, c);
    AddIsReady(log, bound, ladder, a, c);
  }

  lemma AddClimbs(log: Log, bound: set<LadderId>, ladder: LadderId, rung: nat, c: ClientId)
    requires Inv(log, bound) && ladder in bound && ReadyToAdd(Head(log), ladder, rung, c)
    ensures var e := AddEntry(Head(log), ladder, rung, c);
            Inv(log + [e], bound) && ActsAt(ladder, e, Attributed(rung + 1, Committed))
  {
    ReadyIsAhead(Head(log), ladder, rung, c);
    AddKeepsInvariant(log, bound, ladder, rung, c);
    AddFrontier(Head(log), ladder, Attributed(rung, Revealed), rung, c);
  }

  /** One uncontended self-enrollment -- the reveal planned on the head, then the
      add -- moves the acting rung up by one. */
  lemma EnrollmentClimbs(log: Log, bound: set<LadderId>, ladder: LadderId, a: Attributed, c: ClientId)
    requires Inv(log, bound) && ladder in bound && ActsAt(ladder, Head(log), a) && a.rung < LADDER_MAX_SCAN
    requires c !in Head(log).clients && HashOf(Active(c)) !in Head(log).nextKeyHashes
    ensures var log' := EnrolledOnce(log, ladder, a, c);
            Inv(log', bound) && ActsAt(ladder, Head(log'), Attributed(a.rung + 1, Committed))
  {
    var revealed: Log := log + [RevealEntry(Head(log), ladder, a, c)];
    RevealKeeps(log, bound, ladder, a, c);
    assert Head(revealed) == RevealEntry(Head(log), ladder, a, c);
    AddClimbs(revealed, bound, ladder, a.rung, c);
    assert EnrolledOnce(log, ladder, a, c) == revealed + [AddEntry(Head(revealed), ladder, a.rung, c)];
  }

  lemma RevealMarks(head: Entry, ladder: LadderId, a: Attributed, c: ClientId, d: ClientId)
    ensures HashOf(Active(d)) in RevealEntry(head, ladder, a, c).nextKeyHashes <==>
            d == c || HashOf(Active(d)) in head.nextKeyHashes
  {
    assert NeededHashes(ladder, a, c)[0] in NeededHashes(ladder, a, c);
  }

  lemma EnrolledMembers(log: Log, ladder: LadderId, a: Attributed, c: ClientId, d: ClientId)
    ensures d in Head(EnrolledOnce(log, ladder, a, c)).clients <==> d == c || d in Head(log).clients
    ensures HashOf(Active(d)) in Head(EnrolledOnce(log, ladder, a, c)).nextKeyHashes <==>
            d == c || HashOf(Active(d)) in Head(log).nextKeyHashes
  {
    var e := RevealEntry(Head(log), ladder, a, c);
    RevealMarks(Head(log), ladder, a, c, d);
    AddMarks(e, ladder, a.rung, c, d);
  }

  /** After as many self-enrollments as the scan covers, the ladder's frontier
      still stands, and no ceremony signed by the ladder gets past the
      attribution. */
  lemma LadderRunsOutOfScan(ladder: LadderId) returns (log: Log)
    ensures Inv(log, {ladder}) && ActsAt(ladder, Head(log), Attributed(LADDER_MAX_SCAN, Committed))
    ensures forall cer: Ceremony :: !cer.MovePointerAsClient? && !cer.BindAsClient? && cer.ladder == ladder
              && !Settled(cer, log) && Inadmissible(cer, log).None?
              ==> PlanFor(cer, log) == Refuse(Attribution(Uncommitted))
  {
    log := EnrolledUpTo(ladder, LADDER_MAX_SCAN);
    AttributionRecoversTheFrontier(ladder, Head(log), Attributed(LADDER_MAX_SCAN, Committed));
  }

  function ActingAfter(n: nat): Attributed {
    Attributed(n, if n == 0 then Revealed else Committed)
  }

  ghost predicate EnrolledExactly(e: Entry, n: nat) {
    && (forall c: ClientId :: c in e.clients <==> c < n)
    && (forall c: ClientId :: HashOf(Active(c)) in e.nextKeyHashes <==> c < n)
  }

  lemma OneMore(log: Log, ladder: LadderId, n: nat)
    requires EnrolledExactly(Head(log), n)
    ensures EnrolledExactly(Head(EnrolledOnce(log, ladder, ActingAfter(n), n)), n + 1)
  {
    forall d: ClientId { EnrolledMembers(log, ladder, ActingAfter(n), n, d); }
  }

  /** The log `n` uncontended self-enrollments leave. */
  ghost predicate Climbed(log: Log, ladder: LadderId, n: nat) {
    && Inv(log, {ladder}) && ActsAt(ladder, Head(log), ActingAfter(n)) && EnrolledExactly(Head(log), n)
  }

  lemma Climb(shorter: Log, ladder: LadderId, n: nat) returns (log: Log)
    requires Climbed(shorter, ladder, n) && n < LADDER_MAX_SCAN
    ensures log == EnrolledOnce(shorter, ladder, ActingAfter(n), n) && Climbed(log, ladder, n + 1)
  {
    EnrollmentClimbs(shorter, {ladder}, ladder, ActingAfter(n), n);
    OneMore(shorter, ladder, n);
    log := EnrolledOnce(shorter, ladder, ActingAfter(n), n);
  }

  lemma GenesisActs(ladder: LadderId)
    ensures ActsAt(ladder, Head(GenesisLog(ladder)), ActingAfter(0)) && EnrolledExactly(Head(GenesisLog(ladder)), 0)
    ensures Climbed(GenesisLog(ladder), ladder, 0)
  {
    GenesisHolds(ladder);
  }

  lemma {:induction false} EnrolledUpTo(ladder: LadderId, n: nat) returns (log: Log)
    requires n <= LADDER_MAX_SCAN
    ensures Climbed(log, ladder, n)
  {
    if n == 0 {
      log := GenesisLog(ladder);
      GenesisActs(ladder);
    } else {
      var shorter := EnrolledUpTo(ladder, n - 1);
      log := Climb(shorter, ladder, n - 1);
    }
  }

  // ---- The rung an add entry carries

  lemma AddKeepsHash(head: Entry, ladder: LadderId, rung: nat, c: ClientId, h: Hash)
    requires h in head.nextKeyHashes && h != HashOf(Rung(ladder, rung))
    ensures h in AddEntry(head, ladder, rung, c).nextKeyHashes
  {
  }

  /** The add entry moves its ladder up exactly when the rung it carries is the
      one acting on the head it lands on; otherwise it retires nothing. */
  lemma AddSpendsItsRungIffActing(log: Log, bound: set<LadderId>, ladder: LadderId, a: Attributed,
                                  rung: nat, c: ClientId)
    requires Inv(log, bound) && ladder in bound && ActsAt(ladder, Head(log), a)
    requires a.state == Revealed || a.rung != rung
    requires a.state == Revealed ==> HashOf(Rung(ladder, a.rung + 1)) in Head(log).nextKeyHashes && rung <= a.rung
    ensures var e := AddEntry(Head(log), ladder, rung, c);
            && (ActsAt(ladder, e, Attributed(a.rung + 1, Committed)) <==> a == Attributed(rung, Revealed))
            && (a != Attributed(rung, Revealed) && (a.state == Committed ==> rung < a.rung) ==> ActsAt(ladder, e, a))
  {
    if a == Attributed(rung, Revealed) || rung < a.rung {
      AddFrontier(Head(log), ladder, a, rung, c);
    }
    if a.rung != rung {
      AddKeepsHash(Head(log), ladder, rung, c, HashOf(Rung(ladder, a.rung)));
    }
  }

  /** On a head whose ladder has moved on, the add entry spends no rung. */
  lemma SpentAddSpendsNothing(first: Entry, ladder: LadderId, rung: nat, d: ClientId)
    requires CarriesOver(first) && HashOf(Active(d)) in first.nextKeyHashes
    requires ActsAt(ladder, first, Attributed(rung + 1, Committed))
    ensures var second := AddEntry(first, ladder, rung, d);
            && Accepts(first, second) && second.clients == first.clients + {d}
            && ActsAt(ladder, second, Attributed(rung + 1, Committed))
  {
    AddAcceptedIff(first, ladder, rung, d);
    AddFrontier(first, ladder, Attributed(rung + 1, Committed), rung, d);
  }

  /** Two self-enrollments ready on one head: the second add entry, built on the
      first one's head with the rung it attributed before, is accepted and spends
      no rung. A run reaches that head only by re-reading it, which it does only
      on a store whose PUT answers without an ETag. */
  lemma RereadAddSpendsNothing(head: Entry, ladder: LadderId, rung: nat, c: ClientId, d: ClientId)
    requires CarriesOver(head) && c != d
    requires ReadyToAdd(head, ladder, rung, c) && ReadyToAdd(head, ladder, rung, d)
    ensures var first := AddEntry(head, ladder, rung, c);
            var second := AddEntry(first, ladder, rung, d);
            && Accepts(first, second) && second.clients == head.clients + {c, d}
            && ActsAt(ladder, first, Attributed(rung + 1, Committed))
            && ActsAt(ladder, second, Attributed(rung + 1, Committed))
  {
    var first := AddEntry(head, ladder, rung, c);
    AddAcceptedIff(head, ladder, rung, c);
    AddMarks(head, ladder, rung, c, d);
    AddFrontier(head, ladder, Attributed(rung, Revealed), rung, c);
    SpentAddSpendsNothing(first, ladder, rung, d);
  }

  // ---- The strike through the bridge

  /** A ladder-VM strike keeps the account anchored exactly when an enrolled
      client, or another credential's VM, stands beside it. */
  lemma StrikeStrandsIffAlone(log: Log, bound: set<LadderId>, ladder: LadderId)
    requires Inv(log, bound) && ladder in bound && ladder in Head(log).ladderVms
    requires PlanFor(SetLadderVm(ladder, false), log).Publish?
    ensures Anchored(PlanFor(SetLadderVm(ladder, false), log).entry) <==>
            Head(log).clients != {} || Head(log).ladderVms != {ladder}
  {
    var e := PlanFor(SetLadderVm(ladder, false), log).entry;
    if Head(log).ladderVms != {ladder} {
      var other :| other in Head(log).ladderVms && other != ladder;
      assert other in e.ladderVms;
    }
  }

  /** So a strike invoked through anything but an enrolled client's store can
      strand the account: on a fresh account it does. */
  lemma BridgeStrikeStrands(ladder: LadderId)
    ensures Inv(GenesisLog(ladder), {ladder})
    ensures var plan := PlanFor(SetLadderVm(ladder, false), GenesisLog(ladder));
            plan.Publish? && !Anchored(plan.entry)
  {
    GenesisHolds(ladder);
    var head := Head(GenesisLog(ladder));
    AttributionRecoversTheFrontier(ladder, head, Attributed(0, Revealed));
  }

  // ---- A removal that strikes another hash, or leaves its client's own

  /** A removal leaves its client's staged hash alone standing exactly when that hash
      stands and the key is gone, or what was added beside the update-key hash is
      another. */
  lemma RemovalSplitsIff(log: Log, bound: set<LadderId>, ladder: LadderId, a: Attributed, c: ClientId,
                         vouched: set<Hash>, derived: set<Hash>)
    requires Inv(log, bound) && ladder in bound && ActsAt(ladder, Head(log), a) && HashOf(Staged(c)) !in vouched
    ensures var r := RemovalFields(log, c, vouched + LadderHashes(ladder, a), derived);
            && r.Success?
            && (SplitPair(SignedAs(Rung(ladder, a.rung), r.value), c) <==>
                  HashOf(Staged(c)) in Head(log).nextKeyHashes
                  && !(Active(c) in Head(log).updateKeys && Neighbour(log, c) == Some(HashOf(Staged(c)))))
  {
    var vouches := vouched + LadderHashes(ladder, a);
    RemovalStrikes(log, c, vouches, derived);
    FieldsStrike(Head(log), c, Struck(log, c, vouches));
    SignedHashes(Rung(ladder, a.rung), FieldsWithout(Head(log), c, Struck(log, c, vouches)), HashOf(Staged(c)));
    SignedHashes(Rung(ladder, a.rung), FieldsWithout(Head(log), c, Struck(log, c, vouches)), HashOf(Active(c)));
  }

  /** So of a client whose hashes were committed together it does exactly when they
      stand without its key. */
  lemma RemovalSplitsIffKeyGone(log: Log, bound: set<LadderId>, ladder: LadderId, a: Attributed, c: ClientId,
                                vouched: set<Hash>, derived: set<Hash>)
    requires Inv(log, bound) && ladder in bound && ActsAt(ladder, Head(log), a) && HashOf(Staged(c)) !in vouched
    requires Paired(log, c)
    ensures var r := RemovalFields(log, c, vouched + LadderHashes(ladder, a), derived);
            && r.Success?
            && (SplitPair(SignedAs(Rung(ladder, a.rung), r.value), c) <==>
                  HashOf(Active(c)) in Head(log).nextKeyHashes && Active(c) !in Head(log).updateKeys)
  {
    RemovalSplitsIff(log, bound, ladder, a, c, vouched, derived);
    if HashOf(Active(c)) in Head(log).nextKeyHashes { PairResolves(log, CommitIndex(log, c), c, {}, {}); }
    assert CarriesOver(Head(log));
  }

  /** A hash a removal strikes of another ladder is one that ladder stands on. */
  lemma StrikeTakesARung(log: Log, bound: set<LadderId>, ladder: LadderId, a: Attributed, c: ClientId,
                         vouched: set<Hash>) returns (l: LadderId, j: nat, b: Attributed)
    requires Inv(log, bound) && ladder in bound && ActsAt(ladder, Head(log), a) && HashOf(Staged(c)) !in vouched
    requires !Spares(log, c, vouched + LadderHashes(ladder, a))
    ensures Struck(log, c, vouched + LadderHashes(ladder, a)) == Some(HashOf(Rung(l, j)))
    ensures l in bound && l != ladder && ActsAt(l, Head(log), b) && (j == b.rung || (b.state == Revealed && j == b.rung + 1))
    ensures HashOf(Rung(l, j)) in Head(log).nextKeyHashes
  {
    var vouches := vouched + LadderHashes(ladder, a);
    assert Traced(log, c);
    AttributesTheNeighbour(log, c, vouches, {});
    var n := Struck(log, c, vouches).value;
    l, j := n.key.ladder, n.key.index;
    assert n == HashOf(Rung(l, j));
    OwnHashesVouched(Head(log), ladder, a);
    HashesAreBound(Head(log), bound, l, j);
    assert Standing(l, Head(log));
    b :| ActsAt(l, Head(log), b);
  }

  lemma OwnHashesVouched(e: Entry, ladder: LadderId, a: Attributed)
    requires ActsAt(ladder, e, a)
    ensures forall j: nat :: HashOf(Rung(ladder, j)) in e.nextKeyHashes ==> HashOf(Rung(ladder, j)) in LadderHashes(ladder, a)
  {
  }

  lemma HashesAreBound(e: Entry, bound: set<LadderId>, l: LadderId, j: nat)
    requires LaddersKept(e, bound) && HashOf(Rung(l, j)) in e.nextKeyHashes
    ensures l in bound
  {
    forall k | k !in bound ensures k != l { assert Unbound(k, e); }
  }

  /** A ladder one of whose hashes is gone has fallen back, if it stands. */
  lemma FallsBack(head: Entry, e: Entry, bound: set<LadderId>, l: LadderId, j: nat, b: Attributed)
    requires l in bound && ActsAt(l, head, b) && (j == b.rung || (b.state == Revealed && j == b.rung + 1))
    requires HashOf(Rung(l, j)) in head.nextKeyHashes && HashOf(Rung(l, j)) !in e.nextKeyHashes
    requires forall i: nat :: Rung(l, i) in e.updateKeys <==> Rung(l, i) in head.updateKeys
    requires forall i: nat :: HashOf(Rung(l, i)) in e.nextKeyHashes ==> HashOf(Rung(l, i)) in head.nextKeyHashes
    ensures !(CarriesOver(e) && LaddersKept(e, bound) && Advances(head, e, bound))
  {
    if b.state == Committed {
      forall d ensures !ActsAt(l, e, d) {
        assert ActsAt(l, e, d) ==> HashOf(Rung(l, d.rung)) in head.nextKeyHashes;
      }
      assert !Standing(l, e);
    } else if j == b.rung {
      assert Rung(l, j) in e.updateKeys;
    } else {
      assert AtOrPast(head, l, b, b.rung) && Ahead(head, l, b.rung);
      forall d ensures !(ActsAt(l, e, d) && AtOrPast(e, l, d, b.rung)) {
        assert Rung(l, b.rung) in e.updateKeys;
      }
      assert !Ahead(e, l, b.rung);
    }
  }

  lemma StruckEntry(log: Log, bound: set<LadderId>, ladder: LadderId, a: Attributed, c: ClientId,
                    vouched: set<Hash>, e: Entry)
    requires Inv(log, bound) && ladder in bound && ActsAt(ladder, Head(log), a) && HashOf(Staged(c)) !in vouched
    requires !Spares(log, c, vouched + LadderHashes(ladder, a))
    requires e == SignedAs(Rung(ladder, a.rung),
                           FieldsWithout(Head(log), c, Struck(log, c, vouched + LadderHashes(ladder, a))))
    ensures !(CarriesOver(e) && LaddersKept(e, bound) && Advances(Head(log), e, bound))
  {
    var struck := Struck(log, c, vouched + LadderHashes(ladder, a));
    var f := FieldsWithout(Head(log), c, struck);
    var l, j, b := StrikeTakesARung(log, bound, ladder, a, c, vouched);
    FieldsStrike(Head(log), c, struck);
    forall i: nat ensures HashOf(Rung(l, i)) in e.nextKeyHashes <==> HashOf(Rung(l, i)) in f.nextKeyHashes {
      SignedHashes(Rung(ladder, a.rung), f, HashOf(Rung(l, i)));
    }
    FallsBack(Head(log), e, bound, l, j, b);
  }

  lemma SparingKeeps(log: Log, bound: set<LadderId>, ladder: LadderId, a: Attributed, c: ClientId,
                     vouched: set<Hash>, derived: set<Hash>)
    requires Inv(log, bound) && ladder in bound && ActsAt(ladder, Head(log), a) && HashOf(Staged(c)) !in vouched
    requires Head(log).clients != {c} || ladder in Head(log).ladderVms
    requires Spares(log, c, vouched + LadderHashes(ladder, a))
    ensures var r := RemovalFields(log, c, vouched + LadderHashes(ladder, a), derived);
            && r.Success?
            && Inv(log + [SignedAs(Rung(ladder, a.rung), r.value)], bound)
            && Advances(Head(log), SignedAs(Rung(ladder, a.rung), r.value), bound)
  {
    var vouches := vouched + LadderHashes(ladder, a);
    RemovalKeeps(log, bound, ladder, a, c, vouched, derived);
    assert CarriesOver(Head(log)) && Traced(log, c);
    RemovalTakesOutOneClient(log, c, vouches, derived);
    RemovalAdvances(Head(log), bound, ladder, a, c, RemovalFields(log, c, vouches, derived).value);
  }

  lemma BrokenHead(log: Log, bound: set<LadderId>, e: Entry)
    requires !(CarriesOver(e) && LaddersKept(e, bound) && Advances(Head(log), e, bound))
    ensures !(Inv(log + [e], bound) && Advances(Head(log), e, bound))
  {
    assert (log + [e])[|log|] == e;
  }

  /** A removal keeps the account's invariant and takes no ladder back exactly when
      what was added beside the client's update-key hash is the client's staged hash,
      a vouched one, or one no longer standing -- or the client's key is gone. The log
      it reads says which. */
  lemma RemovalKeepsIff(log: Log, bound: set<LadderId>, ladder: LadderId, a: Attributed, c: ClientId,
                        vouched: set<Hash>, derived: set<Hash>)
    requires Inv(log, bound) && ladder in bound && ActsAt(ladder, Head(log), a) && HashOf(Staged(c)) !in vouched
    requires Head(log).clients != {c} || ladder in Head(log).ladderVms
    ensures var r := RemovalFields(log, c, vouched + LadderHashes(ladder, a), derived);
            && r.Success?
            && var e := SignedAs(Rung(ladder, a.rung), r.value);
               (Inv(log + [e], bound) && Advances(Head(log), e, bound) <==>
                  Spares(log, c, vouched + LadderHashes(ladder, a)))
  {
    var vouches := vouched + LadderHashes(ladder, a);
    RemovalStrikes(log, c, vouches, derived);
    var e := SignedAs(Rung(ladder, a.rung), FieldsWithout(Head(log), c, Struck(log, c, vouches)));
    if Spares(log, c, vouches) {
      SparingKeeps(log, bound, ladder, a, c, vouched, derived);
    } else {
      StruckEntry(log, bound, ladder, a, c, vouched, e);
      BrokenHead(log, bound, e);
    }
  }

  lemma RevealHashes(head: Entry, ladder: LadderId, a: Attributed, c: ClientId, h: Hash)
    ensures h in RevealEntry(head, ladder, a, c).nextKeyHashes <==>
            h in head.nextKeyHashes || h == HashOf(Rung(ladder, a.rung)) || h == NextRungHash(ladder, a)
            || h == HashOf(Active(c)) || h == HashOf(Staged(c))
  {
    var needed := NeededHashes(ladder, a, c);
    assert needed[0] in needed && needed[1] in needed && needed[2] in needed;
  }

  lemma RevealKeys(head: Entry, ladder: LadderId, a: Attributed, c: ClientId, k: Key)
    ensures k in RevealEntry(head, ladder, a, c).updateKeys <==> k in head.updateKeys || k == Rung(ladder, a.rung)
  {
  }

  lemma RevealActs(head: Entry, ladder: LadderId, a: Attributed, c: ClientId)
    requires ActsAt(ladder, head, a)
    ensures var e := RevealEntry(head, ladder, a, c);
            ActsAt(ladder, e, Attributed(a.rung, Revealed)) && AtOrPast(e, ladder, Attributed(a.rung, Revealed), a.rung)
  {
    var e := RevealEntry(head, ladder, a, c);
    forall j: nat ensures Rung(ladder, j) in e.updateKeys <==> j == a.rung {
      RevealKeys(head, ladder, a, c, Rung(ladder, j));
    }
    forall j: nat ensures HashOf(Rung(ladder, j)) in e.nextKeyHashes <==> j == a.rung || j == a.rung + 1 {
      RevealHashes(head, ladder, a, c, HashOf(Rung(ladder, j)));
    }
  }

  lemma AddMembers(head: Entry, ladder: LadderId, rung: nat, c: ClientId)
    ensures var e := AddEntry(head, ladder, rung, c);
            && Active(c) in e.updateKeys
            && (HashOf(Active(c)) in head.nextKeyHashes ==> HashOf(Active(c)) in e.nextKeyHashes)
            && (HashOf(Staged(c)) in head.nextKeyHashes ==> HashOf(Staged(c)) in e.nextKeyHashes)
  {
  }

  lemma SplitEnrolledHead(head: Entry, ladder: LadderId, a: Attributed, c: ClientId)
    requires SplitPair(head, c) && ActsAt(ladder, head, a)
    ensures var e := AddEntry(RevealEntry(head, ladder, a, c), ladder, a.rung, c);
            && ActsAt(ladder, e, Attributed(a.rung + 1, Committed))
            && HashOf(Staged(c)) in e.nextKeyHashes && HashOf(Active(c)) in e.nextKeyHashes
            && Active(c) in e.updateKeys
  {
    var revealed := RevealEntry(head, ladder, a, c);
    RevealActs(head, ladder, a, c);
    RevealHashes(head, ladder, a, c, HashOf(Active(c)));
    RevealHashes(head, ladder, a, c, HashOf(Staged(c)));
    AddFrontier(revealed, ladder, Attributed(a.rung, Revealed), a.rung, c);
    AddMembers(revealed, ladder, a.rung, c);
  }

  /** The next rung's hash, unless it stood already. */
  function NewlyCommitted(log: Log, ladder: LadderId, a: Attributed): Option<Hash> {
    var next := NextRungHash(ladder, a);
    if next in Head(log).nextKeyHashes then None else Some(next)
  }

  lemma NewlyCommittedIs(log: Log, ladder: LadderId, a: Attributed)
    ensures NewlyCommitted(log, ladder, a).None? || NewlyCommitted(log, ladder, a) == Some(HashOf(Rung(ladder, a.rung + 1)))
  {
  }

  /** What the reveal adds where the staged hash stands alone. */
  lemma HalfRevealed(log: Log, ladder: LadderId, a: Attributed, c: ClientId)
    requires SplitPair(Head(log), c) && HashOf(Rung(ladder, a.rung)) in Head(log).nextKeyHashes
    ensures var longer := log + [RevealEntry(Head(log), ladder, a, c)];
            && HalfAt(longer, |log|, c)
            && PositionalSuccessor(longer, |log|, HashOf(Active(c))) == NewlyCommitted(log, ladder, a)
  {
    var u, next := HashOf(Active(c)), NextRungHash(ladder, a);
    HalfAdded(log, ladder, a, c);
    assert IndexOf([u], u) == 0 && IndexOf([u] + [next], u) == 0;
  }

  lemma AddedSame(log: Log, longer: Log, i: nat, c: ClientId)
    requires i < |log| && i < |longer| && OrderedAdded(longer, i) == OrderedAdded(log, i)
    ensures HalfAt(longer, i, c) <==> HalfAt(log, i, c)
    ensures PositionalSuccessor(longer, i, HashOf(Active(c))) == PositionalSuccessor(log, i, HashOf(Active(c)))
  {
  }

  /** A key revealed by the last entry, its hash committed by the one before. */
  lemma RisesLast(log: Log, e: Entry, f: Entry, c: ClientId)
    requires HashOf(Active(c)) !in Head(log).nextKeyHashes && Active(c) !in e.updateKeys
    requires HashOf(Active(c)) in e.nextKeyHashes && HashOf(Active(c)) in f.nextKeyHashes && Active(c) in f.updateKeys
    ensures var longer := log + [e] + [f];
            && RevealIndex(longer, c) == |log| + 1 && CommitIndex(longer, c) == |log|
            && LatestRise(HashFlags(longer, HashOf(Active(c))), RevealIndex(longer, c)) == CommitIndex(longer, c)
  {
    var longer := log + [e] + [f];
    assert longer[|log| + 1] == f && longer[|log|] == e && longer[|log| - 1] == Head(log);
    RiseAtLast(KeyFlags(longer, Active(c)));
    RiseBeforeLast(HashFlags(longer, HashOf(Active(c))));
  }

  lemma AddsNoHash(log: Log, e: Entry, f: Entry)
    requires forall h :: h in f.nextKeyHashes ==> h in e.nextKeyHashes
    ensures OrderedAdded(log + [e] + [f], |log| + 1) == []
    ensures OrderedAdded(log + [e] + [f], |log|) == OrderedAdded(log + [e], |log|)
  {
    AddedByLast(log + [e], f);
    WithoutAll(f.nextKeyHashes, SetOf(e.nextKeyHashes));
  }

  lemma CommittedThenRevealed(log: Log, e: Entry, f: Entry, c: ClientId)
    requires HashOf(Active(c)) !in Head(log).nextKeyHashes && Active(c) !in e.updateKeys
    requires HashOf(Active(c)) in e.nextKeyHashes && HashOf(Active(c)) in f.nextKeyHashes
    requires Active(c) in f.updateKeys && HalfAt(log + [e], |log|, c)
    requires forall h :: h in f.nextKeyHashes ==> h in e.nextKeyHashes
    ensures HalfRead(log + [e] + [f], c)
    ensures Neighbour(log + [e] + [f], c) == PositionalSuccessor(log + [e], |log|, HashOf(Active(c)))
  {
    RisesLast(log, e, f, c);
    AddsNoHash(log, e, f);
    AddedSame(log + [e], log + [e] + [f], |log|, c);
  }

  lemma ReenrolledAttribution(log: Log, e: Entry, f: Entry, c: ClientId, next: Option<Hash>,
                              vouched: set<Hash>, derived: set<Hash>)
    requires HashOf(Active(c)) !in Head(log).nextKeyHashes && Active(c) !in e.updateKeys
    requires HashOf(Active(c)) in e.nextKeyHashes && HashOf(Active(c)) in f.nextKeyHashes
    requires Active(c) in f.updateKeys && HalfAt(log + [e], |log|, c)
    requires PositionalSuccessor(log + [e], |log|, HashOf(Active(c))) == next
    requires forall h :: h in f.nextKeyHashes ==> h in e.nextKeyHashes
    ensures AttributeStagedHash(log + [e] + [f], Active(c), vouched, derived) == Success(Unvouched(next, vouched))
  {
    var longer: Log := log + [e] + [f];
    CommittedThenRevealed(log, e, f, c);
    HalfAttributed(longer, c, vouched, derived);
  }

  lemma ReenrollmentMarks(head: Entry, ladder: LadderId, a: Attributed, c: ClientId)
    requires SplitPair(head, c) && ActsAt(ladder, head, a)
    ensures var e := RevealEntry(head, ladder, a, c);
            var f := AddEntry(e, ladder, a.rung, c);
            && Active(c) !in e.updateKeys && HashOf(Active(c)) in e.nextKeyHashes
            && Active(c) in f.updateKeys && HashOf(Active(c)) in f.nextKeyHashes
            && (forall h :: h in f.nextKeyHashes ==> h in e.nextKeyHashes)
  {
    SplitEnrolledHead(head, ladder, a, c);
    RevealHashes(head, ladder, a, c, HashOf(Active(c)));
    RevealKeys(head, ladder, a, c, Active(c));
    AddMarks(RevealEntry(head, ladder, a, c), ladder, a.rung, c, c);
  }

  /** The re-enrolled client is attributed the next rung's hash exactly when that hash
      did not stand before and nobody vouches for it; otherwise nothing. */
  lemma SplitPairAttributed(log: Log, ladder: LadderId, a: Attributed, c: ClientId,
                            vouched: set<Hash>, derived: set<Hash>)
    requires SplitPair(Head(log), c) && ActsAt(ladder, Head(log), a)
    ensures AttributeStagedHash(EnrolledOnce(log, ladder, a, c), Active(c), vouched, derived) ==
            Success(Unvouched(NewlyCommitted(log, ladder, a), vouched))
  {
    var e := RevealEntry(Head(log), ladder, a, c);
    HalfRevealed(log, ladder, a, c);
    ReenrollmentMarks(Head(log), ladder, a, c);
    ReenrolledAttribution(log, e, AddEntry(e, ladder, a.rung, c), c, NewlyCommitted(log, ladder, a), vouched, derived);
  }

  lemma RemovalStrikesAttributed(log: Log, c: ClientId, struck: Option<Hash>, vouched: set<Hash>, derived: set<Hash>)
    requires Active(c) in Head(log).updateKeys
    requires AttributeStagedHash(log, Active(c), vouched, derived) == Success(struck)
    ensures RemovalFields(log, c, vouched, derived) == Success(FieldsWithout(Head(log), c, struck))
  {
  }

  ghost predicate NoRung(ladder: LadderId, f: Fields) {
    && (forall j: nat :: HashOf(Rung(ladder, j)) !in f.nextKeyHashes)
    && (forall j: nat :: Rung(ladder, j) !in f.updateKeys)
  }

  lemma NoRungIffStruck(ladder: LadderId, e: Entry, rung: nat, c: ClientId, struck: Option<Hash>)
    requires ActsAt(ladder, e, Attributed(rung, Committed))
    ensures NoRung(ladder, FieldsWithout(e, c, struck)) <==> struck == Some(HashOf(Rung(ladder, rung)))
  {
    FieldsStrike(e, c, struck);
  }

  lemma SplitReenrolledHead(log: Log, ladder: LadderId, a: Attributed, c: ClientId)
    requires SplitPair(Head(log), c) && ActsAt(ladder, Head(log), a)
    ensures var head := Head(EnrolledOnce(log, ladder, a, c));
            && ActsAt(ladder, head, Attributed(a.rung + 1, Committed))
            && Active(c) in head.updateKeys && HashOf(Staged(c)) in head.nextKeyHashes
  {
    SplitEnrolledHead(Head(log), ladder, a, c);
  }

  lemma SplitRemovalFields(head: Entry, ladder: LadderId, rung: nat, c: ClientId, struck: Option<Hash>)
    requires ActsAt(ladder, head, Attributed(rung, Committed)) && HashOf(Staged(c)) in head.nextKeyHashes
    requires struck.Some? ==> struck.value.key.Rung?
    ensures var f := FieldsWithout(head, c, struck);
            HashOf(Staged(c)) in f.nextKeyHashes && (NoRung(ladder, f) <==> struck == Some(HashOf(Rung(ladder, rung))))
  {
    NoRungIffStruck(ladder, head, rung, c, struck);
    FieldsStrike(head, c, struck);
  }

  /** A removal attributed `next` unless it is vouched for, where `next` is the
      ladder's only rung if anything. */
  lemma AttributedRemoval(log: Log, ladder: LadderId, rung: nat, c: ClientId, next: Option<Hash>,
                          vouched: set<Hash>, derived: set<Hash>) returns (f: Fields)
    requires ActsAt(ladder, Head(log), Attributed(rung, Committed)) && (next.None? || next == Some(HashOf(Rung(ladder, rung))))
    requires Active(c) in Head(log).updateKeys && HashOf(Staged(c)) in Head(log).nextKeyHashes
    requires AttributeStagedHash(log, Active(c), vouched, derived) == Success(Unvouched(next, vouched))
    ensures RemovalFields(log, c, vouched, derived) == Success(f) && HashOf(Staged(c)) in f.nextKeyHashes
    ensures NoRung(ladder, f) <==> next.Some? && next.value !in vouched
  {
    RemovalStrikesAttributed(log, c, Unvouched(next, vouched), vouched, derived);
    SplitRemovalFields(Head(log), ladder, rung, c, Unvouched(next, vouched));
    f := FieldsWithout(Head(log), c, Unvouched(next, vouched));
  }

  /** Once the pair is split, re-enrolling the client and forgetting it again takes
      the ladder's only commitment -- the removal states no rung of the ladder at all
      -- exactly when the next rung's hash did not stand at the re-enrollment and the
      remover does not vouch for it. Either way the client's staged hash stays
      committed. */
  lemma SplitPairLosesALadder(log: Log, ladder: LadderId, a: Attributed, c: ClientId,
                              vouched: set<Hash>, derived: set<Hash>) returns (log': Log, f: Fields)
    requires SplitPair(Head(log), c) && ActsAt(ladder, Head(log), a)
    ensures log' == EnrolledOnce(log, ladder, a, c)
    ensures ActsAt(ladder, Head(log'), Attributed(a.rung + 1, Committed))
    ensures RemovalFields(log', c, vouched, derived) == Success(f) && HashOf(Staged(c)) in f.nextKeyHashes
    ensures NoRung(ladder, f) <==>
            NextRungHash(ladder, a) !in Head(log).nextKeyHashes && NextRungHash(ladder, a) !in vouched
  {
    log' := EnrolledOnce(log, ladder, a, c);
    NewlyCommittedIs(log, ladder, a);
    SplitReenrolledHead(log, ladder, a, c);
    SplitPairAttributed(log, ladder, a, c, vouched, derived);
    f := AttributedRemoval(log', ladder, a.rung + 1, c, NewlyCommitted(log, ladder, a), vouched, derived);
  }
}
