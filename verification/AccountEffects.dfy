/** What each ceremony's entry changes of the account, and that a landed one is
    done: started again, it publishes nothing. */
module AccountEffects {
  import opened Seqs
  import opened WebvhLog
  import opened Ladder
  import opened ClientRemoval
  import opened AccountEntries
  import opened AccountInvariant

  /** The client a removal names. */
  predicate Removes(cer: Ceremony, c: ClientId) {
    match cer
    case Forget(_, d, _, _) => c == d
    case ForgetLast(_, d, _, _) => c == d
    case _ => false
  }

  function Joining(cer: Ceremony): set<LadderId> {
    match cer
    case Bind(_, bound) => {bound}
    case BindAsClient(_, bound) => {bound}
    case _ => {}
  }

  lemma RemovalDocument(log: Log, ladder: LadderId, a: Attributed, c: ClientId, vouched: set<Hash>, derived: set<Hash>)
    requires PlanRemoval(log, ladder, a, c, vouched, derived).Publish?
    ensures var head, e := Head(log), PlanRemoval(log, ladder, a, c, vouched, derived).entry;
            e.pointer == head.pointer && e.clients == head.clients - {c} && e.ladderVms == head.ladderVms
  {
  }

  predicate Points(cer: Ceremony) {
    cer.MovePointer? || cer.MovePointerAsClient?
  }

  /** A pointer ceremony moves the pointer alone, to where it is asked and from
      where it was expected. */
  lemma PointerDocument(cer: Ceremony, log: Log)
    requires Points(cer) && PlanFor(cer, log).Publish?
    ensures var head, e := Head(log), PlanFor(cer, log).entry;
            && e.pointer == Some(cer.generation) && e.clients == head.clients && e.ladderVms == head.ladderVms
            && head.pointer != Some(cer.generation) && (cer.expected.Some? ==> head.pointer == cer.expected)
  {
  }

  lemma OtherDocument(cer: Ceremony, log: Log)
    requires !Points(cer) && !cer.Forget? && !cer.ForgetLast? && PlanFor(cer, log).Publish?
    ensures var head, e := Head(log), PlanFor(cer, log).entry;
            && e.pointer == head.pointer && e.clients == head.clients
            && e.ladderVms == (if !cer.SetLadderVm? then head.ladderVms + Joining(cer)
                               else if cer.present then head.ladderVms + {cer.ladder} else head.ladderVms - {cer.ladder})
  {
  }

  /** The document's members after an entry: the pointer moves only under a pointer
      ceremony; clients leave only by their own removal; ladder VMs change only by
      an install, a strike or a bind. */
  lemma DocumentAfter(cer: Ceremony, log: Log)
    requires PlanFor(cer, log).Publish?
    ensures var head, e := Head(log), PlanFor(cer, log).entry;
            && e.pointer == (if Points(cer) then Some(cer.generation) else head.pointer)
            && (forall c :: c in e.clients <==> c in head.clients && !Removes(cer, c))
            && e.ladderVms == (if !cer.SetLadderVm? then head.ladderVms + Joining(cer)
                               else if cer.present then head.ladderVms + {cer.ladder} else head.ladderVms - {cer.ladder})
  {
    if Points(cer) {
      PointerDocument(cer, log);
    } else if cer.Forget? || cer.ForgetLast? {
      RemovalDocument(log, cer.ladder, Attribute(cer.ladder, Head(log)).value, cer.client, cer.vouched, cer.derived);
    } else {
      OtherDocument(cer, log);
    }
  }

  lemma RemovalKeys(log: Log, ladder: LadderId, a: Attributed, c: ClientId, vouched: set<Hash>, derived: set<Hash>, k: Key)
    requires PlanRemoval(log, ladder, a, c, vouched, derived).Publish?
    ensures var e := PlanRemoval(log, ladder, a, c, vouched, derived).entry;
            k in e.updateKeys <==> k == e.signer || (k in Head(log).updateKeys && k != Active(c))
  {
  }

  /** The keys after an entry: those that stood, less a removed client's, plus the
      signer's own. */
  lemma KeysAfter(cer: Ceremony, log: Log, k: Key)
    requires PlanFor(cer, log).Publish?
    ensures var head, e := Head(log), PlanFor(cer, log).entry;
            k in e.updateKeys <==> k == e.signer || (k in head.updateKeys && !(k.Active? && Removes(cer, k.client)))
  {
    if cer.Forget? || cer.ForgetLast? {
      var a := Attribute(cer.ladder, Head(log)).value;
      RemovalKeys(log, cer.ladder, a, cer.client, cer.vouched, cer.derived, k);
    } else {
      AdditiveKeys(cer, log, k);
    }
  }

  predicate SignsAsLadder(cer: Ceremony) {
    !cer.MovePointerAsClient? && !cer.BindAsClient?
  }

  lemma SignedKeys(key: Key, f: Fields, k: Key)
    ensures k in SignedAs(key, f).updateKeys <==> k == key || k in f.updateKeys
  {
  }

  /** A ladder's entry other than a removal states the head's keys, signed. */
  lemma LadderEntrySigned(cer: Ceremony, log: Log, a: Attributed) returns (f: Fields)
    requires SignsAsLadder(cer) && !cer.Forget? && !cer.ForgetLast? && PlanAsLadder(cer, cer.ladder, log, a).Publish?
    ensures PlanAsLadder(cer, cer.ladder, log, a).entry == SignedAs(Rung(cer.ladder, a.rung), f)
    ensures f.updateKeys == Head(log).updateKeys && f.nextKeyHashes == Head(log).nextKeyHashes
    ensures match cer
            case RevealAndCommit(ladder, c) => f.commitHashes == NeededHashes(ladder, a, c)
            case RevealRung(ladder) => f.commitHashes == [NextRungHash(ladder, a)]
            case MovePointer(ladder, _, _) =>
              f.commitHashes == if a.state == Committed then [NextRungHash(ladder, a)] else []
            case SetLadderVm(_, _) => f.commitHashes == []
            case Bind(_, bound) => f.commitHashes == [HashOf(Rung(bound, 0))]
            case _ => true
  {
    var e := PlanAsLadder(cer, cer.ladder, log, a).entry;
    match cer
    case RevealAndCommit(ladder, c) => f := Unchanged(Head(log)).(commitHashes := NeededHashes(ladder, a, c));
    case RevealRung(ladder) => f := Unchanged(Head(log)).(commitHashes := [NextRungHash(ladder, a)]);
    case MovePointer(ladder, generation, _) =>
      f := PointedAt(Head(log), generation, if a.state == Committed then [NextRungHash(ladder, a)] else []);
    case SetLadderVm(_, _) => f := Unchanged(Head(log)).(ladderVms := e.ladderVms);
    case Bind(_, bound) => f := Unchanged(Head(log)).(commitHashes := [HashOf(Rung(bound, 0))], ladderVms := e.ladderVms);
  }

  lemma AdditiveKeys(cer: Ceremony, log: Log, k: Key)
    requires PlanFor(cer, log).Publish? && !cer.Forget? && !cer.ForgetLast?
    ensures var e := PlanFor(cer, log).entry; k in e.updateKeys <==> k == e.signer || k in Head(log).updateKeys
  {
    if SignsAsLadder(cer) {
      var a := Attribute(cer.ladder, Head(log)).value;
      var f := LadderEntrySigned(cer, log, a);
      SignedKeys(Rung(cer.ladder, a.rung), f, k);
    }
  }

  /** Hashes only a removal takes away. */
  lemma HashesStay(cer: Ceremony, log: Log, h: Hash)
    requires PlanFor(cer, log).Publish? && !cer.Forget? && !cer.ForgetLast?
    ensures h in Head(log).nextKeyHashes ==> h in PlanFor(cer, log).entry.nextKeyHashes
  {
  }

  lemma SignerActsOn(cer: Ceremony, log: Log, bound: set<LadderId>) returns (a: Attributed)
    requires Inv(log, bound) && SignsAsLadder(cer) && cer.ladder in bound && PlanFor(cer, log).Publish?
    ensures ActsAt(cer.ladder, Head(log), a) && a.rung < LADDER_MAX_SCAN && Attribute(cer.ladder, Head(log)) == Success(a)
    ensures PlanAsLadder(cer, cer.ladder, log, a) == PlanFor(cer, log) && CarriesOver(Head(log))
    ensures PlanFor(cer, log).entry.signer == Rung(cer.ladder, a.rung)
  {
    a := ActingRung(log, bound, cer.ladder);
    AttributionRecoversTheFrontier(cer.ladder, Head(log), a);
  }

  lemma RevealedNext(ladder: LadderId, head: Entry, a: Attributed, e: Entry)
    requires ActsAt(ladder, head, a) && a.rung < LADDER_MAX_SCAN
    requires ActsAt(ladder, e, Attributed(a.rung, Revealed))
    ensures Attribute(ladder, e) == Success(Attributed(a.rung, Revealed))
  {
    AttributionRecoversTheFrontier(ladder, e, Attributed(a.rung, Revealed));
  }

  lemma DeclinesWhenCommitted(log: Log, ladder: LadderId, a: Attributed, c: ClientId)
    requires Attribute(ladder, Head(log)) == Success(a) && a.state == Revealed && Active(c) !in Head(log).updateKeys
    requires forall h :: h in NeededHashes(ladder, a, c) ==> h in Head(log).nextKeyHashes
    ensures PlanFor(RevealAndCommit(ladder, c), log) == Decline(a)
  {
  }

  lemma RevealEntryIs(head: Entry, ladder: LadderId, a: Attributed, c: ClientId)
    ensures var e := RevealEntry(head, ladder, a, c);
            && (Active(c) in e.updateKeys <==> Active(c) in head.updateKeys)
            && forall h :: h in NeededHashes(ladder, Attributed(a.rung, Revealed), c) ==> h in e.nextKeyHashes
  {
  }

  /** A landed reveal-and-commit leaves the reveal nothing to publish. */
  lemma RevealLanded(log: Log, bound: set<LadderId>, ladder: LadderId, c: ClientId)
    requires Inv(log, bound) && ladder in bound && PlanFor(RevealAndCommit(ladder, c), log).Publish?
    ensures var longer := log + [PlanFor(RevealAndCommit(ladder, c), log).entry];
            PlanFor(RevealAndCommit(ladder, c), longer).Decline?
  {
    var cer := RevealAndCommit(ladder, c);
    var a := SignerActsOn(cer, log, bound);
    var e := RevealEntry(Head(log), ladder, a, c);
    assert PlanFor(cer, log) == Publish(e);
    SignedByActingRung(Head(log), bound, ladder, a, Unchanged(Head(log)).(commitHashes := NeededHashes(ladder, a, c)), {});
    RevealedNext(ladder, Head(log), a, e);
    RevealEntryIs(Head(log), ladder, a, c);
    assert Head(log + [e]) == e;
    DeclinesWhenCommitted(log + [e], ladder, Attributed(a.rung, Revealed), c);
  }

  /** A landed entry of the acting rung that commits at most its successor leaves
      the ladder attributed to that rung, revealed. */
  lemma ActsRevealed(log: Log, bound: set<LadderId>, ladder: LadderId, a: Attributed, f: Fields)
    requires Inv(log, bound) && ladder in bound && ActsAt(ladder, Head(log), a) && a.rung < LADDER_MAX_SCAN
    requires f == Unchanged(Head(log)).(commitHashes := f.commitHashes, pointer := f.pointer)
    requires f.commitHashes == [NextRungHash(ladder, a)] || f.commitHashes == []
    ensures Attribute(ladder, SignedAs(Rung(ladder, a.rung), f)) == Success(Attributed(a.rung, Revealed))
  {
    assert CarriesOver(Head(log));
    SignedByActingRung(Head(log), bound, ladder, a, f, {});
    RevealedNext(ladder, Head(log), a, SignedAs(Rung(ladder, a.rung), f));
  }

  lemma RungRevealLanded(log: Log, bound: set<LadderId>, ladder: LadderId)
    requires Inv(log, bound) && ladder in bound && PlanFor(RevealRung(ladder), log).Publish?
    ensures PlanFor(RevealRung(ladder), log + [PlanFor(RevealRung(ladder), log).entry]).Decline?
  {
    var a := SignerActsOn(RevealRung(ladder), log, bound);
    ActsRevealed(log, bound, ladder, a, Unchanged(Head(log)).(commitHashes := [NextRungHash(ladder, a)]));
  }

  lemma PointerLanded(log: Log, bound: set<LadderId>, cer: Ceremony)
    requires Inv(log, bound) && cer.MovePointer? && cer.ladder in bound && PlanFor(cer, log).Publish?
    ensures PlanFor(cer, log + [PlanFor(cer, log).entry]).Decline?
  {
    var a := SignerActsOn(cer, log, bound);
    ActsRevealed(log, bound, cer.ladder, a,
                 PointedAt(Head(log), cer.generation, if a.state == Committed then [NextRungHash(cer.ladder, a)] else []));
  }

  lemma RemovalPlan(log: Log, bound: set<LadderId>, ladder: LadderId, a: Attributed, c: ClientId,
                    vouched: set<Hash>, derived: set<Hash>)
    requires Inv(log, bound) && ladder in bound && ActsAt(ladder, Head(log), a)
    requires HashOf(Staged(c)) !in vouched && Spares(log, c, vouched + LadderHashes(ladder, a))
    ensures PlanRemoval(log, ladder, a, c, vouched, derived).Publish?
    ensures var e := PlanRemoval(log, ladder, a, c, vouched, derived).entry;
            c !in e.clients && Active(c) !in e.updateKeys && HashOf(Active(c)) !in e.nextKeyHashes
  {
    assert CarriesOver(Head(log));
    RemovalTakesOutOneClient(log, c, vouched + LadderHashes(ladder, a), derived);
    RemovedMarks(Head(log), ladder, a.rung, c, RemovalFields(log, c, vouched + LadderHashes(ladder, a), derived).value);
  }

  /** The removed client is nowhere in the entry its removal publishes. */
  lemma RemovalLanded(log: Log, bound: set<LadderId>, cer: Ceremony, c: ClientId)
    requires Inv(log, bound) && (cer.Forget? || cer.ForgetLast?) && cer.client == c && Admissible(cer, log, bound)
    requires PlanFor(cer, log).Publish?
    ensures !Present(log + [PlanFor(cer, log).entry], c)
  {
    var a := SignerActsOn(cer, log, bound);
    RemovalPlan(log, bound, cer.ladder, a, c, cer.vouched, cer.derived);
    assert PlanAsLadder(cer, cer.ladder, log, a) == PlanRemoval(log, cer.ladder, a, c, cer.vouched, cer.derived);
  }

  // ---- The hashes, exactly

  /** `a` is where the ladder that signs acts, if one does. */
  ghost predicate SignerActs(cer: Ceremony, log: Log, bound: set<LadderId>, a: Attributed) {
    SignsAsLadder(cer) ==> cer.ladder in bound && ActsAt(cer.ladder, Head(log), a)
  }

  lemma SignedHashes(key: Key, f: Fields, h: Hash)
    ensures h in SignedAs(key, f).nextKeyHashes <==> h in f.nextKeyHashes || h == HashOf(key) || h in f.commitHashes
  {
  }

  /** What an entry other than a removal adds to the hashes that stood. */
  lemma LadderHashesAfter(cer: Ceremony, log: Log, bound: set<LadderId>, a: Attributed, h: Hash)
    requires Inv(log, bound) && SignsAsLadder(cer) && SignerActs(cer, log, bound, a) && PlanFor(cer, log).Publish?
    requires !cer.Forget? && !cer.ForgetLast?
    ensures var was, stands := h in Head(log).nextKeyHashes, h in PlanFor(cer, log).entry.nextKeyHashes;
            match cer
            case RevealAndCommit(ladder, c) =>
              stands <==> was || h == HashOf(Rung(ladder, a.rung + 1)) || h == HashOf(Active(c)) || h == HashOf(Staged(c))
            case RevealRung(ladder) => stands <==> was || h == HashOf(Rung(ladder, a.rung + 1))
            case MovePointer(ladder, _, _) =>
              stands <==> was || (a.state == Committed && h == HashOf(Rung(ladder, a.rung + 1)))
            case SetLadderVm(_, _) => stands <==> was
            case Bind(_, joining) => stands <==> was || h == HashOf(Rung(joining, 0))
            case _ => true
  {
    var b := SignerActsOn(cer, log, bound);
    AttributionRecoversTheFrontier(cer.ladder, Head(log), a);
    var f := LadderEntrySigned(cer, log, a);
    SignedHashes(Rung(cer.ladder, a.rung), f, h);
  }

  lemma RemovalHashesAfter(cer: Ceremony, log: Log, bound: set<LadderId>, a: Attributed, h: Hash)
    requires Inv(log, bound) && SignerActs(cer, log, bound, a) && PlanFor(cer, log).Publish?
    requires (cer.Forget? || cer.ForgetLast?) && HashOf(Staged(cer.client)) !in cer.vouched
    ensures h in PlanFor(cer, log).entry.nextKeyHashes <==>
            h == HashOf(Rung(cer.ladder, a.rung))
            || (h in Head(log).nextKeyHashes && h != HashOf(Active(cer.client))
                && Some(h) != Struck(log, cer.client, cer.vouched + LadderHashes(cer.ladder, a)))
  {
    var b := SignerActsOn(cer, log, bound);
    var vouched := cer.vouched + LadderHashes(cer.ladder, a);
    AttributionRecoversTheFrontier(cer.ladder, Head(log), a);
    assert Traced(log, cer.client);
    RemovalStrikes(log, cer.client, vouched, cer.derived);
    var struck := Struck(log, cer.client, vouched);
    FieldsStrike(Head(log), cer.client, struck);
    SignedHashes(Rung(cer.ladder, a.rung), FieldsWithout(Head(log), cer.client, struck), h);
  }

  lemma ClientHashesAfter(cer: Ceremony, log: Log, h: Hash)
    requires !SignsAsLadder(cer) && PlanFor(cer, log).Publish?
    ensures h in PlanFor(cer, log).entry.nextKeyHashes <==>
            h in Head(log).nextKeyHashes || (cer.BindAsClient? && h == HashOf(Rung(cer.bound, 0)))
  {
  }

  /** The hashes after an entry: a reveal, and a pointer move off a committed rung,
      add the signer's next rung's; an enrollment's reveal also the client's two; a
      bind exactly the joining ladder's first; a strike, an install, a pointer move
      off a revealed rung or by a client none. A removal takes the client's
      update-key hash and what stood beside it. */
  lemma HashesAfter(cer: Ceremony, log: Log, bound: set<LadderId>, a: Attributed, h: Hash)
    requires Inv(log, bound) && SignerActs(cer, log, bound, a) && PlanFor(cer, log).Publish?
    requires (cer.Forget? || cer.ForgetLast?) ==> HashOf(Staged(cer.client)) !in cer.vouched
    ensures var was, stands := h in Head(log).nextKeyHashes, h in PlanFor(cer, log).entry.nextKeyHashes;
            match cer
            case RevealAndCommit(ladder, c) =>
              stands <==> was || h == HashOf(Rung(ladder, a.rung + 1)) || h == HashOf(Active(c)) || h == HashOf(Staged(c))
            case RevealRung(ladder) => stands <==> was || h == HashOf(Rung(ladder, a.rung + 1))
            case MovePointer(ladder, _, _) =>
              stands <==> was || (a.state == Committed && h == HashOf(Rung(ladder, a.rung + 1)))
            case MovePointerAsClient(_, _, _) => stands <==> was
            case SetLadderVm(_, _) => stands <==> was
            case Forget(ladder, c, vouched, _) =>
              stands <==> h == HashOf(Rung(ladder, a.rung))
                          || (was && h != HashOf(Active(c)) && Some(h) != Struck(log, c, vouched + LadderHashes(ladder, a)))
            case ForgetLast(ladder, c, vouched, _) =>
              stands <==> h == HashOf(Rung(ladder, a.rung))
                          || (was && h != HashOf(Active(c)) && Some(h) != Struck(log, c, vouched + LadderHashes(ladder, a)))
            case Bind(_, joining) => stands <==> was || h == HashOf(Rung(joining, 0))
            case BindAsClient(_, joining) => stands <==> was || h == HashOf(Rung(joining, 0))
  {
    if !SignsAsLadder(cer) {
      ClientHashesAfter(cer, log, h);
    } else if cer.Forget? || cer.ForgetLast? {
      RemovalHashesAfter(cer, log, bound, a, h);
    } else {
      LadderHashesAfter(cer, log, bound, a, h);
    }
  }

  /** An entry a ladder signs is signed by its acting rung and leaves that rung
      revealed; one that reveals it leaves its successor committed as well. */
  lemma SignerAfter(cer: Ceremony, log: Log, bound: set<LadderId>, a: Attributed)
    requires Inv(log, bound) && SignsAsLadder(cer) && SignerActs(cer, log, bound, a) && PlanFor(cer, log).Publish?
    requires Admissible(cer, log, bound)
    ensures var e := PlanFor(cer, log).entry;
            && e.signer == Rung(cer.ladder, a.rung) && ActsAt(cer.ladder, e, Attributed(a.rung, Revealed))
            && (cer.RevealAndCommit? || cer.RevealRung? || (cer.MovePointer? && a.state == Committed) ==>
                  Ahead(e, cer.ladder, a.rung))
  {
    var e := PlanFor(cer, log).entry;
    var b := SignerActsOn(cer, log, bound);
    AttributionRecoversTheFrontier(cer.ladder, Head(log), a);
    CeremonyKeepsInvariant(log, bound, cer);
    assert Head(log + [e]) == e && cer.ladder in BoundAfter(cer, bound);
    assert Standing(cer.ladder, e);
    var c :| ActsAt(cer.ladder, e, c);
    KeysAfter(cer, log, Rung(cer.ladder, a.rung));
    assert c == Attributed(a.rung, Revealed);
    var next := HashOf(Rung(cer.ladder, a.rung + 1));
    if cer.RevealAndCommit? || cer.RevealRung? || (cer.MovePointer? && a.state == Committed) {
      HashesAfter(cer, log, bound, a, next);
      assert AtOrPast(e, cer.ladder, c, a.rung);
    }
  }

  // ---- When there is an entry to publish

  /** A ceremony's end state, as the log it reads shows it. */
  ghost predicate Done(cer: Ceremony, log: Log, a: Attributed) {
    var head := Head(log);
    match cer
    case RevealAndCommit(ladder, c) =>
      || c in head.clients
      || (a.state == Revealed && HashOf(Active(c)) in head.nextKeyHashes && HashOf(Staged(c)) in head.nextKeyHashes
          && HashOf(Rung(ladder, a.rung + 1)) in head.nextKeyHashes)
    case RevealRung(_) => a.state == Revealed
    case MovePointer(_, generation, _) => head.pointer == Some(generation)
    case MovePointerAsClient(_, generation, _) => head.pointer == Some(generation)
    case SetLadderVm(ladder, present) => (ladder in head.ladderVms) == present
    case Forget(_, c, _, _) => c !in head.clients && HashOf(Active(c)) !in head.nextKeyHashes
    case ForgetLast(_, c, _, _) => c !in head.clients && HashOf(Active(c)) !in head.nextKeyHashes
    case Bind(_, _) => false
    case BindAsClient(_, _) => false
  }

  /** What the log must show before the ceremony may go ahead. */
  ghost predicate Allowed(cer: Ceremony, log: Log) {
    var head := Head(log);
    match cer
    case MovePointer(_, _, expected) => expected.Some? ==> head.pointer == expected
    case MovePointerAsClient(client, _, expected) => client in head.clients && (expected.Some? ==> head.pointer == expected)
    case Forget(_, c, _, _) => head.clients != {c}
    case ForgetLast(ladder, _, _, _) => ladder in head.ladderVms
    case BindAsClient(client, _) => client in head.clients
    case _ => true
  }

  lemma ClientPublishesIff(cer: Ceremony, log: Log, bound: set<LadderId>, a: Attributed)
    requires Inv(log, bound) && !SignsAsLadder(cer)
    ensures PlanFor(cer, log).Publish? <==> !Done(cer, log, a) && Allowed(cer, log)
    ensures PlanFor(cer, log).Refuse? <==> !Done(cer, log, a) && !Allowed(cer, log)
  {
    assert CarriesOver(Head(log));
  }

  lemma AbsentIff(log: Log, bound: set<LadderId>, c: ClientId)
    requires Inv(log, bound)
    ensures Present(log, c) <==> c in Head(log).clients || HashOf(Active(c)) in Head(log).nextKeyHashes
  {
    assert CarriesOver(Head(log));
  }

  lemma NeededStand(ladder: LadderId, a: Attributed, c: ClientId, e: Entry)
    ensures (forall h :: h in NeededHashes(ladder, a, c) ==> h in e.nextKeyHashes) <==>
            HashOf(Active(c)) in e.nextKeyHashes && HashOf(Staged(c)) in e.nextKeyHashes
            && HashOf(Rung(ladder, a.rung + 1)) in e.nextKeyHashes
  {
    var needed := NeededHashes(ladder, a, c);
    assert needed[0] in needed && needed[1] in needed && needed[2] in needed;
  }

  lemma RemovalBuilds(log: Log, bound: set<LadderId>, c: ClientId, vouched: set<Hash>, derived: set<Hash>)
    requires Inv(log, bound) && HashOf(Staged(c)) !in vouched
    ensures RemovalFields(log, c, vouched, derived).Success? && CarriesOver(Head(log))
  {
    assert Traced(log, c);
    RemovalStrikes(log, c, vouched, derived);
  }

  lemma RemovalPublishesIff(cer: Ceremony, log: Log, bound: set<LadderId>, a: Attributed)
    requires Inv(log, bound) && SignerActs(cer, log, bound, a) && a.rung < LADDER_MAX_SCAN
    requires (cer.Forget? || cer.ForgetLast?) && HashOf(Staged(cer.client)) !in cer.vouched
    ensures PlanFor(cer, log).Publish? <==> !Done(cer, log, a) && Allowed(cer, log)
    ensures PlanFor(cer, log).Refuse? <==> !Done(cer, log, a) && !Allowed(cer, log)
  {
    AttributionRecoversTheFrontier(cer.ladder, Head(log), a);
    AbsentIff(log, bound, cer.client);
    RemovalBuilds(log, bound, cer.client, cer.vouched + LadderHashes(cer.ladder, a), cer.derived);
  }

  /** Inside the scan a ceremony publishes exactly while its end state does not stand
      and the log allows it; it refuses exactly while the log does not. */
  lemma PublishesIff(cer: Ceremony, log: Log, bound: set<LadderId>, a: Attributed)
    requires Inv(log, bound) && SignerActs(cer, log, bound, a) && (SignsAsLadder(cer) ==> a.rung < LADDER_MAX_SCAN)
    requires (cer.Forget? || cer.ForgetLast?) ==> HashOf(Staged(cer.client)) !in cer.vouched
    ensures PlanFor(cer, log).Publish? <==> !Done(cer, log, a) && Allowed(cer, log)
    ensures PlanFor(cer, log).Refuse? <==> !Done(cer, log, a) && !Allowed(cer, log)
  {
    if !SignsAsLadder(cer) {
      ClientPublishesIff(cer, log, bound, a);
    } else if cer.Forget? || cer.ForgetLast? {
      RemovalPublishesIff(cer, log, bound, a);
    } else {
      AttributionRecoversTheFrontier(cer.ladder, Head(log), a);
      assert CarriesOver(Head(log));
      if cer.RevealAndCommit? { NeededStand(cer.ladder, a, cer.client, Head(log)); }
    }
  }

  /** Over any log whatever: an entry is published only over a head that carries its
      keys over, revealed beside them by the rung attributed there or by a client
      whose key stands there. */
  lemma OverAnyLog(cer: Ceremony, log: Log)
    ensures PlanFor(cer, log).Publish? ==>
              && CarriesOver(Head(log)) && PlanFor(cer, log).entry.signer in PlanFor(cer, log).entry.updateKeys
              && if SignsAsLadder(cer)
                 then Attribute(cer.ladder, Head(log)).Success?
                      && PlanFor(cer, log).entry.signer == Rung(cer.ladder, Attribute(cer.ladder, Head(log)).value.rung)
                 else PlanFor(cer, log).entry.signer == Active(cer.client) && Active(cer.client) in Head(log).updateKeys
    ensures PlanFor(cer, log) == Refuse(NotCarriedOver) ==> !CarriesOver(Head(log))
  {
  }

  /** And an enrollment takes its commitments for done only where they stand, under a
      rung that is revealed. */
  lemma DeclinedIsCommitted(cer: Ceremony, log: Log)
    requires cer.RevealAndCommit? && PlanFor(cer, log).Decline?
    ensures var r := PlanFor(cer, log).at.rung;
            && Rung(cer.ladder, r) in Head(log).updateKeys && HashOf(Rung(cer.ladder, r + 1)) in Head(log).nextKeyHashes
            && HashOf(Active(cer.client)) in Head(log).nextKeyHashes && HashOf(Staged(cer.client)) in Head(log).nextKeyHashes
  {
    var a := PlanFor(cer, log).at;
    AttributedIff(cer.ladder, Head(log));
    assert RevealedAt(cer.ladder, Head(log), a.rung);
    NeededStand(cer.ladder, a, cer.client, Head(log));
  }

  // ---- The frontier

  /** A removal takes no rung's hash. */
  lemma RemovalKeepsRungs(log: Log, bound: set<LadderId>, cer: Ceremony, h: Hash)
    requires Inv(log, bound) && (cer.Forget? || cer.ForgetLast?) && Admissible(cer, log, bound)
    requires PlanFor(cer, log).Publish? && h.key.Rung? && h in Head(log).nextKeyHashes
    ensures h in PlanFor(cer, log).entry.nextKeyHashes
  {
    var a := SignerActsOn(cer, log, bound);
    var vouched := cer.vouched + LadderHashes(cer.ladder, a);
    RemovalTakesOutOneClient(log, cer.client, vouched, cer.derived);
    RemovedMarks(Head(log), cer.ladder, a.rung, cer.client, RemovalFields(log, cer.client, vouched, cer.derived).value);
  }

  lemma RungHashKept(log: Log, bound: set<LadderId>, cer: Ceremony, h: Hash)
    requires Inv(log, bound) && Admissible(cer, log, bound) && PlanFor(cer, log).Publish?
    requires h.key.Rung? && h in Head(log).nextKeyHashes
    ensures h in PlanFor(cer, log).entry.nextKeyHashes
  {
    if cer.Forget? || cer.ForgetLast? { RemovalKeepsRungs(log, bound, cer, h); } else { HashesStay(cer, log, h); }
  }

  /** A rung an entry states anew is its signer's, which was acting. */
  lemma NoRungStatedBelow(log: Log, bound: set<LadderId>, cer: Ceremony, l: LadderId, a: Attributed, rung: nat)
    requires Inv(log, bound) && Admissible(cer, log, bound) && PlanFor(cer, log).Publish?
    requires l in bound && ActsAt(l, Head(log), a) && Rung(l, rung) in PlanFor(cer, log).entry.updateKeys
    ensures rung == a.rung
  {
    KeysAfter(cer, log, Rung(l, rung));
    if Rung(l, rung) !in Head(log).updateKeys { RungSigner(log, bound, cer, l, a, rung); }
  }

  lemma RungSigner(log: Log, bound: set<LadderId>, cer: Ceremony, l: LadderId, a: Attributed, rung: nat)
    requires Inv(log, bound) && Admissible(cer, log, bound) && PlanFor(cer, log).Publish?
    requires ActsAt(l, Head(log), a) && PlanFor(cer, log).entry.signer == Rung(l, rung)
    ensures rung == a.rung
  {
    if SignsAsLadder(cer) {
      var b := SignerActsOn(cer, log, bound);
      AttributionRecoversTheFrontier(l, Head(log), a);
    }
  }

  lemma LadderAdvances(log: Log, bound: set<LadderId>, cer: Ceremony, l: LadderId, rung: nat)
    requires Inv(log, bound) && Admissible(cer, log, bound) && PlanFor(cer, log).Publish?
    requires l in bound && Ahead(Head(log), l, rung) && Standing(l, PlanFor(cer, log).entry)
    ensures Ahead(PlanFor(cer, log).entry, l, rung)
  {
    var e := PlanFor(cer, log).entry;
    var a :| ActsAt(l, Head(log), a) && AtOrPast(Head(log), l, a, rung);
    var b :| ActsAt(l, e, b);
    RungHashKept(log, bound, cer, HashOf(Rung(l, a.rung)));
    if a == Attributed(rung, Revealed) {
      KeysAfter(cer, log, Rung(l, rung));
      RungHashKept(log, bound, cer, HashOf(Rung(l, rung + 1)));
    } else if b.state == Revealed {
      NoRungStatedBelow(log, bound, cer, l, a, b.rung);
    }
    assert AtOrPast(e, l, b, rung);
  }

  /** Nor does a removal's fields, signed, that take out one client. */
  lemma RemovalAdvances(head: Entry, bound: set<LadderId>, ladder: LadderId, a: Attributed, c: ClientId, f: Fields)
    requires ActsAt(ladder, head, a) && TakesOut(head, c, f)
    ensures Advances(head, SignedAs(Rung(ladder, a.rung), f), bound)
  {
    var e := SignedAs(Rung(ladder, a.rung), f);
    forall l: LadderId, rung: nat | l in bound && Ahead(head, l, rung) ensures Ahead(e, l, rung) {
      if l == ladder { OwnStaysAhead(head, ladder, a, c, f, rung); } else { AheadSame(l, head, e, rung); }
    }
  }

  lemma OwnStaysAhead(head: Entry, ladder: LadderId, a: Attributed, c: ClientId, f: Fields, rung: nat)
    requires ActsAt(ladder, head, a) && TakesOut(head, c, f) && Ahead(head, ladder, rung)
    ensures Ahead(SignedAs(Rung(ladder, a.rung), f), ladder, rung)
  {
    AttributionRecoversTheFrontier(ladder, head, a);
    var e := SignedAs(Rung(ladder, a.rung), f);
    assert AtOrPast(head, ladder, a, rung);
    assert ActsAt(ladder, e, Attributed(a.rung, Revealed));
    assert AtOrPast(e, ladder, Attributed(a.rung, Revealed), rung);
  }

  /** No ceremony's entry takes a bound ladder back: the acting rung only stays, is
      revealed, or moves up. */
  lemma CeremonyAdvances(log: Log, bound: set<LadderId>, cer: Ceremony)
    requires Inv(log, bound) && Admissible(cer, log, bound) && PlanFor(cer, log).Publish?
    ensures Advances(Head(log), PlanFor(cer, log).entry, bound)
  {
    var e := PlanFor(cer, log).entry;
    CeremonyKeepsInvariant(log, bound, cer);
    assert Head(log + [e]) == e;
    forall l: LadderId, rung: nat | l in bound && Ahead(Head(log), l, rung) ensures Ahead(e, l, rung) {
      assert Standing(l, e);
      LadderAdvances(log, bound, cer, l, rung);
    }
  }

  /** A ceremony that landed is done: run again on the log it left, it has nothing
      to publish. (A bind names a fresh credential, so it is not run again.) */
  lemma LandedIsDone(log: Log, bound: set<LadderId>, cer: Ceremony)
    requires Inv(log, bound) && Admissible(cer, log, bound) && !cer.Bind? && !cer.BindAsClient?
    requires PlanFor(cer, log).Publish?
    ensures !PlanFor(cer, log + [PlanFor(cer, log).entry]).Publish?
    ensures !PlanFor(cer, log + [PlanFor(cer, log).entry]).Refuse?
  {
    var e := PlanFor(cer, log).entry;
    assert Head(log + [e]) == e;
    match cer
    case RevealAndCommit(ladder, c) => RevealLanded(log, bound, ladder, c);
    case RevealRung(ladder) => RungRevealLanded(log, bound, ladder);
    case MovePointer(_, _, _) => PointerLanded(log, bound, cer);
    case MovePointerAsClient(_, _, _) => PointerDocument(cer, log);
    case SetLadderVm(_, _) => OtherDocument(cer, log);
    case Forget(_, c, _, _) => RemovalLanded(log, bound, cer, c);
    case ForgetLast(_, c, _, _) => RemovalLanded(log, bound, cer, c);
  }
}
