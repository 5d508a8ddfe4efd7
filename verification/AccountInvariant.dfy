/** What every entry the ceremonies publish keeps of the account log. */
module AccountInvariant {
  import opened Seqs
  import opened WebvhLog
  import opened Ladder
  import opened ClientRemoval
  import opened AccountEntries

  /** The log verifies, and every entry carries its keys' hashes over. */
  ghost predicate LedgerKept(log: Log) {
    && Verifies(log)
    && forall i :: 0 <= i < |log| ==> CarriesOver(log[i])
  }

  /** Every credential ever bound has its ladder standing at one acting rung, and
      no rung of any other ladder stands. */
  ghost predicate LaddersKept(e: Entry, bound: set<LadderId>) {
    && (forall l :: l in bound ==> Standing(l, e))
    && (forall l :: l !in bound ==> Unbound(l, e))
  }

  /** A client's update key stands exactly while the document enrolls it, and no
      staged key is ever stated. */
  ghost predicate ClientsKept(e: Entry) {
    && (forall c: ClientId :: c in e.clients <==> Active(c) in e.updateKeys)
    && (forall c: ClientId :: Staged(c) !in e.updateKeys)
  }

  /** Every client's hashes are traced to the entry that committed them. */
  ghost predicate TracesKept(log: Log) {
    forall c :: Traced(log, c)
  }

  /** An enrolled client or a ladder VM stands, so something can invoke. */
  ghost predicate Anchored(e: Entry) {
    e.clients != {} || e.ladderVms != {}
  }

  ghost predicate Inv(log: Log, bound: set<LadderId>) {
    && LedgerKept(log)
    && LaddersKept(Head(log), bound)
    && ClientsKept(Head(log))
    && TracesKept(log)
    && Anchored(Head(log))
  }

  lemma GenesisHolds(ladder: LadderId)
    ensures Inv(GenesisLog(ladder), {ladder})
    ensures var e := Head(GenesisLog(ladder));
            && Ahead(e, ladder, 0) && e.clients == {} && e.ladderVms == {ladder} && e.pointer == None
            && (forall k :: k in e.updateKeys <==> k == Rung(ladder, 0))
            && (forall h :: h in e.nextKeyHashes <==> h == HashOf(Rung(ladder, 0)) || h == HashOf(Rung(ladder, 1)))
  {
    assert ActsAt(ladder, Head(GenesisLog(ladder)), Attributed(0, Revealed));
    assert AtOrPast(Head(GenesisLog(ladder)), ladder, Attributed(0, Revealed), 0);
  }

  // ---- Ladders

  /** A ladder none of whose rungs an entry touches stands as it stood. */
  lemma LadderUntouched(l: LadderId, before: Entry, after: Entry)
    requires forall j: nat :: Rung(l, j) in after.updateKeys <==> Rung(l, j) in before.updateKeys
    requires forall j: nat :: HashOf(Rung(l, j)) in after.nextKeyHashes <==> HashOf(Rung(l, j)) in before.nextKeyHashes
    ensures Standing(l, before) ==> Standing(l, after)
  {
    if Standing(l, before) {
      var a :| ActsAt(l, before, a);
      assert ActsAt(l, after, a);
    }
  }

  /** The rungs an entry's stated sets hold are the head's own. */
  ghost predicate SameRungs(head: Entry, f: Fields) {
    && (forall l: LadderId, j: nat :: Rung(l, j) in f.updateKeys <==> Rung(l, j) in head.updateKeys)
    && (forall l: LadderId, j: nat ::
          HashOf(Rung(l, j)) in f.nextKeyHashes <==> HashOf(Rung(l, j)) in head.nextKeyHashes)
  }

  /** An entry that states no key the head did not, and keeps the hash of every
      key it states. */
  ghost predicate StatesCarried(head: Entry, f: Fields) {
    forall k :: k in f.updateKeys ==> k in head.updateKeys && HashOf(k) in f.nextKeyHashes
  }

  /** The hashes an entry commits are the signer's next rung's, a client's, or
      the first rung's of a ladder joining. */
  ghost predicate CommitsAllowed(f: Fields, next: Hash, joining: set<LadderId>) {
    && (forall h :: h in f.commitHashes && h.key.Rung? ==>
          h == next || (h.key.ladder in joining && h.key.index == 0))
    && (forall l :: l in joining ==> HashOf(Rung(l, 0)) in f.commitHashes)
  }

  /** An entry signed by an acting rung is accepted, carries over, leaves that
      rung acting and revealed, leaves every other bound ladder alone, and stands
      the joining ladders at their first rung. */
  lemma SignedByActingRung(head: Entry, bound: set<LadderId>, ladder: LadderId, a: Attributed,
                           f: Fields, joining: set<LadderId>)
    requires CarriesOver(head) && LaddersKept(head, bound)
    requires ladder in bound && ActsAt(ladder, head, a)
    requires SameRungs(head, f) && StatesCarried(head, f)
    requires CommitsAllowed(f, NextRungHash(ladder, a), joining) && joining !! bound
    requires f.ladderVms <= head.ladderVms + joining + {ladder}
    ensures var e := SignedAs(Rung(ladder, a.rung), f);
            && Accepts(head, e) && CarriesOver(e)
            && LaddersKept(e, bound + joining)
            && ActsAt(ladder, e, Attributed(a.rung, Revealed))
  {
    var e := SignedAs(Rung(ladder, a.rung), f);
    assert ActsAt(ladder, e, Attributed(a.rung, Revealed));
    forall l | l in bound + joining ensures Standing(l, e) {
      if l in joining {
        assert Unbound(l, head);
        assert ActsAt(l, e, Attributed(0, Committed));
      } else if l != ladder {
        assert Standing(l, head);
        LadderUntouched(l, head, e);
      }
    }
    forall l | l !in bound + joining ensures Unbound(l, e) {
      assert Unbound(l, head);
    }
  }

  // ---- Client traces

  function RevealEntry(head: Entry, ladder: LadderId, a: Attributed, c: ClientId): Entry {
    SignedAs(Rung(ladder, a.rung), Unchanged(head).(commitHashes := NeededHashes(ladder, a, c)))
  }

  lemma AddedByLast(log: Log, e: Entry)
    ensures OrderedAdded(log + [e], |log|) == Without(e.nextKeyHashes, SetOf(Head(log).nextKeyHashes))
    ensures forall i :: 0 <= i < |log| ==> OrderedAdded(log + [e], i) == OrderedAdded(log, i)
  {
  }

  lemma FlagsExtend(log: Log, e: Entry, key: Key, h: Hash)
    ensures KeyFlags(log + [e], key) == KeyFlags(log, key) + [key in e.updateKeys]
    ensures HashFlags(log + [e], h) == HashFlags(log, h) + [h in e.nextKeyHashes]
  {
  }

  /** A hash that stands on rose where it rose before; so did a key. */
  lemma CommitIndexCarries(log: Log, e: Entry, c: ClientId)
    requires HashOf(Active(c)) in Head(log).nextKeyHashes && HashOf(Active(c)) in e.nextKeyHashes
    ensures CommitIndex(log + [e], c) == CommitIndex(log, c)
  {
    FlagsExtend(log, e, Active(c), HashOf(Active(c)));
    RiseCarries(HashFlags(log, HashOf(Active(c))), HashFlags(log + [e], HashOf(Active(c))));
  }

  lemma RevealIndexCarries(log: Log, e: Entry, c: ClientId)
    requires Active(c) in Head(log).updateKeys && Active(c) in e.updateKeys
    ensures RevealIndex(log + [e], c) == RevealIndex(log, c)
  {
    FlagsExtend(log, e, Active(c), HashOf(Active(c)));
    RiseCarries(KeyFlags(log, Active(c)), KeyFlags(log + [e], Active(c)));
  }

  /** The entry that committed a client's hash stays the one the walk finds, and so
      does what it added beside it. */
  lemma CommitCarries(log: Log, e: Entry, c: ClientId)
    requires Traced(log, c)
    requires HashOf(Active(c)) in Head(log).nextKeyHashes && HashOf(Active(c)) in e.nextKeyHashes
    ensures 0 <= CommitIndex(log + [e], c)
    ensures PairAt(log + [e], CommitIndex(log + [e], c), c) || HalfAt(log + [e], CommitIndex(log + [e], c), c)
    ensures Neighbour(log + [e], c) == Neighbour(log, c)
  {
    AddedByLast(log, e);
    CommitIndexCarries(log, e, c);
  }

  /** An entry that leaves a client's three marks as they stood leaves its trace. */
  lemma TraceKept(log: Log, e: Entry, c: ClientId)
    requires Traced(log, c)
    requires Active(c) in e.updateKeys <==> Active(c) in Head(log).updateKeys
    requires HashOf(Active(c)) in e.nextKeyHashes <==> HashOf(Active(c)) in Head(log).nextKeyHashes
    requires HashOf(Staged(c)) in e.nextKeyHashes <==> HashOf(Staged(c)) in Head(log).nextKeyHashes
    ensures Traced(log + [e], c)
  {
    AddedByLast(log, e);
    if HashOf(Active(c)) in e.nextKeyHashes { CommitCarries(log, e, c); }
    if Active(c) in e.updateKeys { RevealIndexCarries(log, e, c); }
  }

  /** Nor does an entry that leaves every client's marks touch any trace. */
  lemma TracesUntouched(log: Log, e: Entry)
    requires TracesKept(log)
    requires forall c: ClientId :: Active(c) in e.updateKeys <==> Active(c) in Head(log).updateKeys
    requires forall c: ClientId :: HashOf(Active(c)) in e.nextKeyHashes <==> HashOf(Active(c)) in Head(log).nextKeyHashes
    requires forall c: ClientId :: HashOf(Staged(c)) in e.nextKeyHashes <==> HashOf(Staged(c)) in Head(log).nextKeyHashes
    ensures TracesKept(log + [e])
  {
    forall c ensures Traced(log + [e], c) { TraceKept(log, e, c); }
  }

  lemma RiseCarries(flags: seq<bool>, longer: seq<bool>)
    requires 0 < |flags| && |longer| == |flags| + 1 && longer[..|flags|] == flags
    requires longer[|flags|] && flags[|flags| - 1]
    ensures LatestRise(longer, |flags|) == LatestRise(flags, |flags| - 1)
  {
    RiseStartsTheRun(flags, |flags| - 1);
    assert forall j :: 0 <= j < |flags| ==> longer[j] == flags[j];
    RiseIsUnique(longer, |flags|, LatestRise(flags, |flags| - 1));
  }

  lemma FreshInBase(head: Entry, ladder: LadderId, rung: nat, h: Hash)
    requires h !in head.nextKeyHashes && !h.key.Rung?
    ensures h !in head.nextKeyHashes + [HashOf(Rung(ladder, rung))] && h !in SetOf(head.nextKeyHashes)
  {
  }

  lemma RevealAdds(log: Log, ladder: LadderId, a: Attributed, c: ClientId)
    ensures OrderedAdded(log + [RevealEntry(Head(log), ladder, a, c)], |log|) ==
            Without(Dedup(Head(log).nextKeyHashes + [HashOf(Rung(ladder, a.rung))]
                          + [HashOf(Active(c)), HashOf(Staged(c)), NextRungHash(ladder, a)]),
                    SetOf(Head(log).nextKeyHashes))
  {
    AddedByLast(log, RevealEntry(Head(log), ladder, a, c));
  }

  lemma PairAddedAt(log: Log, ladder: LadderId, a: Attributed, c: ClientId) returns (added: seq<Hash>, k: int)
    requires HashOf(Active(c)) !in Head(log).nextKeyHashes && HashOf(Staged(c)) !in Head(log).nextKeyHashes
    ensures added == OrderedAdded(log + [RevealEntry(Head(log), ladder, a, c)], |log|)
    ensures PairStartsAt(added, k, c)
  {
    var stood := Head(log).nextKeyHashes;
    FreshInBase(Head(log), ladder, a.rung, HashOf(Active(c)));
    FreshInBase(Head(log), ladder, a.rung, HashOf(Staged(c)));
    RevealAdds(log, ladder, a, c);
    added, k := PairPosition(stood + [HashOf(Rung(ladder, a.rung))], HashOf(Active(c)), HashOf(Staged(c)),
                             NextRungHash(ladder, a), SetOf(stood));
  }

  lemma PairAddedLast(log: Log, ladder: LadderId, a: Attributed, c: ClientId)
    requires HashOf(Active(c)) !in Head(log).nextKeyHashes && HashOf(Staged(c)) !in Head(log).nextKeyHashes
    ensures PairAt(log + [RevealEntry(Head(log), ladder, a, c)], |log|, c)
  {
    var added, k := PairAddedAt(log, ladder, a, c);
  }

  /** The reveal-and-commit entry adds the client's pair side by side. */
  lemma PairCommitted(log: Log, ladder: LadderId, a: Attributed, c: ClientId)
    requires HashOf(Active(c)) !in Head(log).nextKeyHashes && HashOf(Staged(c)) !in Head(log).nextKeyHashes
    requires Active(c) !in Head(log).updateKeys
    ensures Traced(log + [RevealEntry(Head(log), ladder, a, c)], c)
    ensures Neighbour(log + [RevealEntry(Head(log), ladder, a, c)], c) == Some(HashOf(Staged(c)))
  {
    var longer := log + [RevealEntry(Head(log), ladder, a, c)];
    PairAddedLast(log, ladder, a, c);
    RevealCommits(log, ladder, a, c);
    PairResolves(longer, |log|, c, {}, {});
  }

  /** The reveal-and-commit entry is the one that committed a client's hash not
      standing before. */
  lemma RevealCommits(log: Log, ladder: LadderId, a: Attributed, c: ClientId)
    requires HashOf(Active(c)) !in Head(log).nextKeyHashes
    ensures var longer := log + [RevealEntry(Head(log), ladder, a, c)];
            && CommitIndex(longer, c) == |log| && HashOf(Staged(c)) in Head(longer).nextKeyHashes
            && Neighbour(longer, c) == PositionalSuccessor(longer, |log|, HashOf(Active(c)))
            && (Active(c) in Head(longer).updateKeys ==> Active(c) in Head(log).updateKeys)
  {
    var longer := log + [RevealEntry(Head(log), ladder, a, c)];
    var needed := NeededHashes(ladder, a, c);
    assert needed[0] in needed && needed[1] in needed;
    RiseIsUnique(HashFlags(longer, HashOf(Active(c))), |log|, |log|);
  }

  /** Where the staged hash stood already, it adds the update-key hash alone or with
      the next rung's, as that rung's hash stood or not. */
  lemma HalfAdded(log: Log, ladder: LadderId, a: Attributed, c: ClientId)
    requires HashOf(Active(c)) !in Head(log).nextKeyHashes && HashOf(Staged(c)) in Head(log).nextKeyHashes
    requires HashOf(Rung(ladder, a.rung)) in Head(log).nextKeyHashes
    ensures OrderedAdded(log + [RevealEntry(Head(log), ladder, a, c)], |log|) ==
            if NextRungHash(ladder, a) in Head(log).nextKeyHashes then [HashOf(Active(c))]
            else [HashOf(Active(c))] + [NextRungHash(ladder, a)]
  {
    var stood := Head(log).nextKeyHashes;
    var base := stood + [HashOf(Rung(ladder, a.rung))];
    var u, s, n := HashOf(Active(c)), HashOf(Staged(c)), NextRungHash(ladder, a);
    FreshInBase(Head(log), ladder, a.rung, u);
    BaseAddsNone(Head(log), ladder, a.rung);
    RevealAdds(log, ladder, a, c);
    AppendThree(base, u, s, n);
    if n in stood {
      OnlyFirstShows(base, u, s, n, SetOf(stood));
    } else {
      AlternateStaysTogether(base, u, s, n, SetOf(stood));
    }
  }

  lemma BaseAddsNone(head: Entry, ladder: LadderId, rung: nat)
    requires HashOf(Rung(ladder, rung)) in head.nextKeyHashes
    ensures Without(Dedup(head.nextKeyHashes + [HashOf(Rung(ladder, rung))]), SetOf(head.nextKeyHashes)) == []
  {
    WithoutAll(Dedup(head.nextKeyHashes + [HashOf(Rung(ladder, rung))]), SetOf(head.nextKeyHashes));
  }

  lemma HalfCommitted(log: Log, ladder: LadderId, a: Attributed, c: ClientId)
    requires HashOf(Active(c)) !in Head(log).nextKeyHashes && HashOf(Staged(c)) in Head(log).nextKeyHashes
    requires Active(c) !in Head(log).updateKeys && HashOf(Rung(ladder, a.rung)) in Head(log).nextKeyHashes
    ensures Traced(log + [RevealEntry(Head(log), ladder, a, c)], c)
  {
    HalfAdded(log, ladder, a, c);
    RevealCommits(log, ladder, a, c);
  }

  /** An entry that reveals a client's key and adds no hash. */
  lemma RevealedNow(log: Log, e: Entry, c: ClientId)
    requires Active(c) !in Head(log).updateKeys && Active(c) in e.updateKeys
    requires forall h :: h in e.nextKeyHashes ==> h in Head(log).nextKeyHashes
    ensures RevealIndex(log + [e], c) == |log| && OrderedAdded(log + [e], |log|) == []
  {
    AddedByLast(log, e);
    WithoutAll(e.nextKeyHashes, SetOf(Head(log).nextKeyHashes));
    FlagsExtend(log, e, Active(c), HashOf(Active(c)));
    RiseAtLast(KeyFlags(log + [e], Active(c)));
  }

  /** The add entry adds no hash, so the client's reveal is one the attribution
      looks past. */
  lemma TraceAdded(log: Log, e: Entry, c: ClientId)
    requires Traced(log, c)
    requires Active(c) !in Head(log).updateKeys && Active(c) in e.updateKeys
    requires HashOf(Active(c)) in Head(log).nextKeyHashes
    requires forall h :: h in e.nextKeyHashes ==> h in Head(log).nextKeyHashes
    requires HashOf(Active(c)) in e.nextKeyHashes && HashOf(Staged(c)) in e.nextKeyHashes
    ensures Traced(log + [e], c)
  {
    CommitCarries(log, e, c);
    RevealedNow(log, e, c);
  }

  // ---- The entries

  /** Who may run a ceremony, and on what: the signing credential is bound, a
      bind names a fresh one, a removal vouches for no staged hash of its client
      and strikes no standing hash but its client's own, and a strike is invoked
      under a client the current document enrolls. */
  ghost predicate Admissible(cer: Ceremony, log: Log, bound: set<LadderId>) {
    match cer
    case RevealAndCommit(ladder, _) => ladder in bound
    case RevealRung(ladder) => ladder in bound
    case MovePointer(ladder, _, _) => ladder in bound
    case MovePointerAsClient(_, _, _) => true
    case SetLadderVm(ladder, present) => ladder in bound && (!present ==> Head(log).clients != {})
    case Forget(ladder, c, vouched, _) => ladder in bound && RemovesOneClient(log, ladder, c, vouched)
    case ForgetLast(ladder, c, vouched, _) => ladder in bound && RemovesOneClient(log, ladder, c, vouched)
    case Bind(ladder, joining) => ladder in bound && joining !in bound
    case BindAsClient(_, joining) => joining !in bound
  }

  /** What a remover vouches for: what it is told, and its own ladder's hashes. */
  function Vouched(log: Log, ladder: LadderId, vouched: set<Hash>): set<Hash> {
    match Attribute(ladder, Head(log))
    case Success(a) => vouched + LadderHashes(ladder, a)
    case Failure(_) => vouched
  }

  /** Read off the log before the removal: the hash added beside the client's
      update-key hash is its staged one, vouched for, or no longer standing. */
  predicate RemovesOneClient(log: Log, ladder: LadderId, c: ClientId, vouched: set<Hash>) {
    HashOf(Staged(c)) !in vouched && Spares(log, c, Vouched(log, ladder, vouched))
  }

  function BoundAfter(cer: Ceremony, bound: set<LadderId>): set<LadderId> {
    match cer
    case Bind(_, joining) => bound + {joining}
    case BindAsClient(_, joining) => bound + {joining}
    case _ => bound
  }

  /** Entries that add hashes and reveal a rung, and remove nothing. */
  lemma AdditiveEntryKeeps(log: Log, bound: set<LadderId>, ladder: LadderId, a: Attributed,
                           f: Fields, joining: set<LadderId>)
    requires Inv(log, bound) && ladder in bound && ActsAt(ladder, Head(log), a)
    requires f.updateKeys == Head(log).updateKeys && f.nextKeyHashes == Head(log).nextKeyHashes
    requires f.clients == Head(log).clients && (f.clients != {} || f.ladderVms != {})
    requires CommitsAllowed(f, NextRungHash(ladder, a), joining) && joining !! bound
    requires forall h :: h in f.commitHashes ==> h.key.Rung?
    requires f.ladderVms <= Head(log).ladderVms + joining + {ladder}
    ensures Inv(log + [SignedAs(Rung(ladder, a.rung), f)], bound + joining)
  {
    var e := SignedAs(Rung(ladder, a.rung), f);
    SignedByActingRung(Head(log), bound, ladder, a, f, joining);
    VerifiesExtended(log, e);
    TracesUntouched(log, e);
  }

  lemma RevealTraces(log: Log, ladder: LadderId, a: Attributed, c: ClientId)
    requires TracesKept(log) && Active(c) !in Head(log).updateKeys
    requires HashOf(Rung(ladder, a.rung)) in Head(log).nextKeyHashes
    ensures TracesKept(log + [RevealEntry(Head(log), ladder, a, c)])
  {
    var head, e := Head(log), RevealEntry(Head(log), ladder, a, c);
    forall d ensures Traced(log + [e], d) {
      if d == c && HashOf(Active(c)) !in head.nextKeyHashes {
        if HashOf(Staged(c)) in head.nextKeyHashes {
          HalfCommitted(log, ladder, a, c);
        } else {
          PairCommitted(log, ladder, a, c);
        }
      } else {
        assert Traced(log, d);
        TraceKept(log, e, d);
      }
    }
  }

  lemma RevealAndCommitKeeps(log: Log, bound: set<LadderId>, ladder: LadderId, a: Attributed, c: ClientId)
    requires Inv(log, bound) && ladder in bound && ActsAt(ladder, Head(log), a)
    requires Active(c) !in Head(log).updateKeys
    ensures Inv(log + [RevealEntry(Head(log), ladder, a, c)], bound)
  {
    var f := Unchanged(Head(log)).(commitHashes := NeededHashes(ladder, a, c));
    SignedByActingRung(Head(log), bound, ladder, a, f, {});
    VerifiesExtended(log, SignedAs(Rung(ladder, a.rung), f));
    RevealTraces(log, ladder, a, c);
    assert bound + {} == bound;
  }

  lemma RemovalTraces(log: Log, e: Entry, c: ClientId)
    requires TracesKept(log)
    requires forall d :: d != c ==> (Active(d) in e.updateKeys <==> Active(d) in Head(log).updateKeys)
    requires forall h: Hash :: h.key.Rung? || h.key.client == c || (h in e.nextKeyHashes <==> h in Head(log).nextKeyHashes)
    requires Active(c) !in e.updateKeys && HashOf(Active(c)) !in e.nextKeyHashes
    ensures TracesKept(log + [e])
  {
    forall d ensures Traced(log + [e], d) {
      if d != c { TraceKept(log, e, d); }
    }
  }

  lemma RemovalLadders(head: Entry, bound: set<LadderId>, ladder: LadderId, a: Attributed, c: ClientId, f: Fields)
    requires CarriesOver(head) && LaddersKept(head, bound) && ClientsKept(head)
    requires ladder in bound && ActsAt(ladder, head, a) && TakesOut(head, c, f)
    ensures var e := SignedAs(Rung(ladder, a.rung), f);
            Accepts(head, e) && CarriesOver(e) && LaddersKept(e, bound)
  {
    SignedByActingRung(head, bound, ladder, a, f, {});
    assert bound + {} == bound;
  }

  lemma RemovalAnchored(head: Entry, ladder: LadderId, c: ClientId, e: Entry)
    requires Anchored(head) && (head.clients != {c} || ladder in head.ladderVms)
    requires e.clients == head.clients - {c} && e.ladderVms == head.ladderVms
    ensures Anchored(e)
  {
    if head.clients != {c} && head.clients != {} {
      var d :| d in head.clients && d != c;
      assert d in e.clients;
    }
  }

  lemma RemovalKeeps(log: Log, bound: set<LadderId>, ladder: LadderId, a: Attributed,
                     c: ClientId, vouched: set<Hash>, derived: set<Hash>)
    requires Inv(log, bound) && ladder in bound && ActsAt(ladder, Head(log), a)
    requires HashOf(Staged(c)) !in vouched && Spares(log, c, vouched + LadderHashes(ladder, a))
    requires Head(log).clients != {c} || ladder in Head(log).ladderVms
    ensures var r := RemovalFields(log, c, vouched + LadderHashes(ladder, a), derived);
            r.Success? && Inv(log + [SignedAs(Rung(ladder, a.rung), r.value)], bound)
  {
    assert CarriesOver(Head(log));
    RemovalTakesOutOneClient(log, c, vouched + LadderHashes(ladder, a), derived);
    var f := RemovalFields(log, c, vouched + LadderHashes(ladder, a), derived).value;
    RemovedEntryKeeps(log, bound, ladder, a, c, f);
  }

  lemma RemovedClients(head: Entry, ladder: LadderId, rung: nat, c: ClientId, f: Fields)
    requires ClientsKept(head) && TakesOut(head, c, f)
    ensures ClientsKept(SignedAs(Rung(ladder, rung), f))
  {
  }

  /** What the removal leaves of the marks of others, and of its own client's. */
  lemma RemovedMarks(head: Entry, ladder: LadderId, rung: nat, c: ClientId, f: Fields)
    requires TakesOut(head, c, f)
    ensures var e := SignedAs(Rung(ladder, rung), f);
            && (forall d :: d != c ==> (Active(d) in e.updateKeys <==> Active(d) in head.updateKeys))
            && (forall h: Hash :: h.key.Rung? || h.key.client == c || (h in e.nextKeyHashes <==> h in head.nextKeyHashes))
            && (forall h: Hash :: h.key.Rung? && h in head.nextKeyHashes ==> h in e.nextKeyHashes)
            && Active(c) !in e.updateKeys && HashOf(Active(c)) !in e.nextKeyHashes
  {
  }

  lemma RemovedEntryKeeps(log: Log, bound: set<LadderId>, ladder: LadderId, a: Attributed, c: ClientId, f: Fields)
    requires Inv(log, bound) && ladder in bound && ActsAt(ladder, Head(log), a)
    requires TakesOut(Head(log), c, f)
    requires Head(log).clients != {c} || ladder in Head(log).ladderVms
    ensures Inv(log + [SignedAs(Rung(ladder, a.rung), f)], bound)
  {
    var head, e := Head(log), SignedAs(Rung(ladder, a.rung), f);
    assert CarriesOver(head);
    RemovalLadders(head, bound, ladder, a, c, f);
    VerifiesExtended(log, e);
    RemovedMarks(head, ladder, a.rung, c, f);
    RemovalTraces(log, e, c);
    RemovalAnchored(head, ladder, c, e);
    RemovedClients(head, ladder, a.rung, c, f);
  }

  lemma EnrolledEntryKeeps(log: Log, bound: set<LadderId>, client: ClientId, f: Fields, joining: set<LadderId>)
    requires Inv(log, bound) && Active(client) in Head(log).updateKeys
    requires f.updateKeys == Head(log).updateKeys && f.nextKeyHashes == Head(log).nextKeyHashes
    requires f.clients == Head(log).clients && f.ladderVms == Head(log).ladderVms + joining
    requires forall h :: h in f.commitHashes <==> h.key.Rung? && h.key.ladder in joining && h.key.index == 0
    requires joining !! bound
    ensures PublishAsClient(Head(log), client, f).Publish?
    ensures Inv(log + [PublishAsClient(Head(log), client, f).entry], bound + joining)
  {
    var head := Head(log);
    assert CarriesOver(head);
    var e := PublishAsClient(head, client, f).entry;
    assert Accepts(head, e);
    VerifiesExtended(log, e);
    forall l | l in bound + joining ensures Standing(l, e) {
      if l in joining {
        assert Unbound(l, head);
        assert ActsAt(l, e, Attributed(0, Committed));
      } else {
        assert Standing(l, head);
        LadderUntouched(l, head, e);
      }
    }
    forall l | l !in bound + joining ensures Unbound(l, e) { assert Unbound(l, head); }
    TracesUntouched(log, e);
  }

  /** Every entry an admissible ceremony plans on the head keeps the invariant. */
  lemma CeremonyKeepsInvariant(log: Log, bound: set<LadderId>, cer: Ceremony)
    requires Inv(log, bound) && Admissible(cer, log, bound)
    requires PlanFor(cer, log).Publish?
    ensures Inv(log + [PlanFor(cer, log).entry], BoundAfter(cer, bound))
  {
    var head := Head(log);
    match cer
    case MovePointerAsClient(client, generation, expected) =>
      EnrolledEntryKeeps(log, bound, client, PointedAt(head, generation, []), {});
      assert bound + {} == bound;
    case BindAsClient(client, joining) =>
      EnrolledEntryKeeps(log, bound, client, Unchanged(head).(
        commitHashes := [HashOf(Rung(joining, 0))], ladderVms := head.ladderVms + {joining}), {joining});
    case _ =>
      var a := ActingRung(log, bound, cer.ladder);
      LadderCeremonyKeeps(log, bound, cer, a);
  }

  /** The rung the attribution answers is the ladder's acting one. */
  lemma ActingRung(log: Log, bound: set<LadderId>, ladder: LadderId) returns (a: Attributed)
    requires Inv(log, bound) && ladder in bound && Attribute(ladder, Head(log)).Success?
    ensures ActsAt(ladder, Head(log), a) && Attribute(ladder, Head(log)) == Success(a)
  {
    assert Standing(ladder, Head(log));
    a :| ActsAt(ladder, Head(log), a);
    AttributionRecoversTheFrontier(ladder, Head(log), a);
  }

  lemma SetLadderVmKeeps(log: Log, bound: set<LadderId>, ladder: LadderId, a: Attributed, present: bool)
    requires Inv(log, bound) && ladder in bound && ActsAt(ladder, Head(log), a)
    requires !present ==> Head(log).clients != {}
    ensures var f := Unchanged(Head(log)).(ladderVms :=
              if present then Head(log).ladderVms + {ladder} else Head(log).ladderVms - {ladder});
            Inv(log + [SignedAs(Rung(ladder, a.rung), f)], bound)
  {
    var f := Unchanged(Head(log)).(ladderVms :=
      if present then Head(log).ladderVms + {ladder} else Head(log).ladderVms - {ladder});
    if present { assert ladder in f.ladderVms; }
    AdditiveEntryKeeps(log, bound, ladder, a, f, {});
    assert bound + {} == bound;
  }

  lemma BindKeeps(log: Log, bound: set<LadderId>, ladder: LadderId, a: Attributed, joining: LadderId)
    requires Inv(log, bound) && ladder in bound && ActsAt(ladder, Head(log), a) && joining !in bound
    ensures var f := Unchanged(Head(log)).(
              commitHashes := [HashOf(Rung(joining, 0))], ladderVms := Head(log).ladderVms + {joining});
            Inv(log + [SignedAs(Rung(ladder, a.rung), f)], bound + {joining})
  {
    var f := Unchanged(Head(log)).(
      commitHashes := [HashOf(Rung(joining, 0))], ladderVms := Head(log).ladderVms + {joining});
    assert joining in f.ladderVms;
    AdditiveEntryKeeps(log, bound, ladder, a, f, {joining});
  }

  /** The reveal and the pointer move: at most the next rung's hash is added. */
  lemma NextRungEntryKeeps(log: Log, bound: set<LadderId>, ladder: LadderId, a: Attributed, f: Fields)
    requires Inv(log, bound) && ladder in bound && ActsAt(ladder, Head(log), a)
    requires f == Unchanged(Head(log)).(commitHashes := f.commitHashes, pointer := f.pointer)
    requires f.commitHashes == [NextRungHash(ladder, a)] || f.commitHashes == []
    ensures Inv(log + [SignedAs(Rung(ladder, a.rung), f)], bound)
  {
    AdditiveEntryKeeps(log, bound, ladder, a, f, {});
    assert bound + {} == bound;
  }

  /** A ladder's ceremony that got past its tests, on the rung attributed to it. */
  ghost predicate Attempted(log: Log, bound: set<LadderId>, cer: Ceremony, a: Attributed) {
    && Inv(log, bound) && Admissible(cer, log, bound)
    && !cer.MovePointerAsClient? && !cer.BindAsClient?
    && ActsAt(cer.ladder, Head(log), a) && Attribute(cer.ladder, Head(log)) == Success(a)
    && !Settled(cer, log) && Inadmissible(cer, log) == None
    && PlanAsLadder(cer, cer.ladder, log, a).Publish?
  }

  lemma RungCeremonyKeeps(log: Log, bound: set<LadderId>, cer: Ceremony, a: Attributed)
    requires Attempted(log, bound, cer, a) && (cer.RevealAndCommit? || cer.RevealRung? || cer.MovePointer?)
    ensures Inv(log + [PlanAsLadder(cer, cer.ladder, log, a).entry], bound)
  {
    match cer
    case RevealAndCommit(ladder, c) => RevealAndCommitKeeps(log, bound, ladder, a, c);
    case RevealRung(ladder) =>
      NextRungEntryKeeps(log, bound, ladder, a,
                         Unchanged(Head(log)).(commitHashes := [NextRungHash(ladder, a)]));
    case MovePointer(ladder, generation, _) =>
      NextRungEntryKeeps(log, bound, ladder, a, PointedAt(Head(log), generation,
                           if a.state == Committed then [NextRungHash(ladder, a)] else []));
  }

  lemma RemovalCeremonyKeeps(log: Log, bound: set<LadderId>, cer: Ceremony, a: Attributed)
    requires Attempted(log, bound, cer, a) && (cer.Forget? || cer.ForgetLast?)
    ensures Inv(log + [PlanAsLadder(cer, cer.ladder, log, a).entry], bound)
  {
    RemovalKeeps(log, bound, cer.ladder, a, cer.client, cer.vouched, cer.derived);
  }

  lemma VmCeremonyKeeps(log: Log, bound: set<LadderId>, cer: Ceremony, a: Attributed)
    requires Attempted(log, bound, cer, a) && (cer.SetLadderVm? || cer.Bind?)
    ensures Inv(log + [PlanAsLadder(cer, cer.ladder, log, a).entry], BoundAfter(cer, bound))
  {
    match cer
    case SetLadderVm(ladder, present) => SetLadderVmKeeps(log, bound, ladder, a, present);
    case Bind(ladder, joining) => BindKeeps(log, bound, ladder, a, joining);
  }

  lemma LadderCeremonyKeeps(log: Log, bound: set<LadderId>, cer: Ceremony, a: Attributed)
    requires Attempted(log, bound, cer, a)
    ensures Inv(log + [PlanAsLadder(cer, cer.ladder, log, a).entry], BoundAfter(cer, bound))
  {
    if cer.Forget? || cer.ForgetLast? {
      RemovalCeremonyKeeps(log, bound, cer, a);
    } else if cer.SetLadderVm? || cer.Bind? {
      VmCeremonyKeeps(log, bound, cer, a);
    } else {
      RungCeremonyKeeps(log, bound, cer, a);
    }
  }

  // ---- The add entry

  /** `a` is past the rung, or at it: revealed, with its successor committed. */
  predicate AtOrPast(e: Entry, ladder: LadderId, a: Attributed, rung: nat) {
    rung < a.rung || (a == Attributed(rung, Revealed) && HashOf(Rung(ladder, rung + 1)) in e.nextKeyHashes)
  }

  /** The ladder acts at the rung, revealed and with its successor committed, or
      has moved past it. */
  ghost predicate Ahead(e: Entry, ladder: LadderId, rung: nat) {
    exists a :: ActsAt(ladder, e, a) && AtOrPast(e, ladder, a, rung)
  }

  /** No bound ladder falls back from one entry to the next. */
  ghost predicate Advances(before: Entry, after: Entry, bound: set<LadderId>) {
    forall l: LadderId, rung: nat :: l in bound && Ahead(before, l, rung) ==> Ahead(after, l, rung)
  }

  /** The add entry spends the acting rung if it is the one it carries, and no
      rung otherwise. */
  lemma AddFrontier(head: Entry, ladder: LadderId, a: Attributed, rung: nat, c: ClientId)
    requires ActsAt(ladder, head, a) && AtOrPast(head, ladder, a, rung)
    ensures var e := AddEntry(head, ladder, rung, c);
            ActsAt(ladder, e, if a == Attributed(rung, Revealed) then Attributed(rung + 1, Committed) else a)
  {
  }

  lemma AheadSame(l: LadderId, before: Entry, after: Entry, rung: nat)
    requires forall j: nat :: Rung(l, j) in after.updateKeys <==> Rung(l, j) in before.updateKeys
    requires forall j: nat :: HashOf(Rung(l, j)) in after.nextKeyHashes <==> HashOf(Rung(l, j)) in before.nextKeyHashes
    requires Ahead(before, l, rung)
    ensures Ahead(after, l, rung)
  {
    var a :| ActsAt(l, before, a) && AtOrPast(before, l, a, rung);
    assert ActsAt(l, after, a) && AtOrPast(after, l, a, rung);
  }

  lemma AddAhead(head: Entry, ladder: LadderId, rung: nat, c: ClientId, other: nat)
    requires Ahead(head, ladder, rung) && Ahead(head, ladder, other)
    ensures Ahead(AddEntry(head, ladder, rung, c), ladder, other)
  {
    var e := AddEntry(head, ladder, rung, c);
    var a :| ActsAt(ladder, head, a) && AtOrPast(head, ladder, a, rung);
    AddFrontier(head, ladder, a, rung, c);
    AttributionRecoversTheFrontier(ladder, head, a);
    assert AtOrPast(head, ladder, a, other);
    if a == Attributed(rung, Revealed) {
      assert AtOrPast(e, ladder, Attributed(rung + 1, Committed), other);
    } else {
      assert AtOrPast(e, ladder, a, other);
    }
  }

  lemma AddOtherRungs(head: Entry, ladder: LadderId, rung: nat, c: ClientId, l: LadderId, j: nat)
    requires l != ladder
    ensures var e := AddEntry(head, ladder, rung, c);
            && (Rung(l, j) in e.updateKeys <==> Rung(l, j) in head.updateKeys)
            && (HashOf(Rung(l, j)) in e.nextKeyHashes <==> HashOf(Rung(l, j)) in head.nextKeyHashes)
  {
  }

  /** The add entry leaves every ladder standing, and none of them further back. */
  lemma AddLadders(head: Entry, bound: set<LadderId>, ladder: LadderId, rung: nat, c: ClientId)
    requires LaddersKept(head, bound) && ladder in bound && Ahead(head, ladder, rung)
    ensures var e := AddEntry(head, ladder, rung, c); LaddersKept(e, bound) && Advances(head, e, bound)
  {
    var e := AddEntry(head, ladder, rung, c);
    var a :| ActsAt(ladder, head, a) && AtOrPast(head, ladder, a, rung);
    AddFrontier(head, ladder, a, rung, c);
    forall l, j: nat | l != ladder
      ensures Rung(l, j) in e.updateKeys <==> Rung(l, j) in head.updateKeys
      ensures HashOf(Rung(l, j)) in e.nextKeyHashes <==> HashOf(Rung(l, j)) in head.nextKeyHashes
    {
      AddOtherRungs(head, ladder, rung, c, l, j);
    }
    forall l | l in bound ensures Standing(l, e) {
      assert Standing(l, head);
      if l != ladder { LadderUntouched(l, head, e); }
    }
    forall l | l !in bound ensures Unbound(l, e) { assert Unbound(l, head); }
    forall l: LadderId, other: nat | l in bound && Ahead(head, l, other) ensures Ahead(e, l, other) {
      if l == ladder { AddAhead(head, ladder, rung, c, other); } else { AheadSame(l, head, e, other); }
    }
  }

  /** The add entry's marks: its own client's key in, no hash of a client's gone. */
  lemma AddMarks(head: Entry, ladder: LadderId, rung: nat, c: ClientId, d: ClientId)
    ensures var e := AddEntry(head, ladder, rung, c);
            && (Active(d) in e.updateKeys <==> d == c || Active(d) in head.updateKeys)
            && (HashOf(Active(d)) in e.nextKeyHashes <==> HashOf(Active(d)) in head.nextKeyHashes)
            && (HashOf(Staged(d)) in e.nextKeyHashes <==> HashOf(Staged(d)) in head.nextKeyHashes)
            && forall h :: h in e.nextKeyHashes ==> h in head.nextKeyHashes
  {
  }

  lemma AddTraces(log: Log, ladder: LadderId, rung: nat, c: ClientId)
    requires TracesKept(log) && HashOf(Active(c)) in Head(log).nextKeyHashes
    ensures TracesKept(log + [AddEntry(Head(log), ladder, rung, c)])
  {
    var e := AddEntry(Head(log), ladder, rung, c);
    forall d ensures Traced(log + [e], d) {
      AddMarks(Head(log), ladder, rung, c, d);
      assert Traced(log, d);
      if d == c && Active(c) !in Head(log).updateKeys {
        TraceAdded(log, e, c);
      } else {
        TraceKept(log, e, d);
      }
    }
  }

  /** A verified head accepts the add entry exactly when it commits the client's
      update-key hash. */
  lemma AddAcceptedIff(head: Entry, ladder: LadderId, rung: nat, c: ClientId)
    requires CarriesOver(head)
    ensures Accepts(head, AddEntry(head, ladder, rung, c)) <==> HashOf(Active(c)) in head.nextKeyHashes
    ensures HashOf(Active(c)) in head.nextKeyHashes ==> CarriesOver(AddEntry(head, ladder, rung, c))
  {
    var e := AddEntry(head, ladder, rung, c);
    assert Active(c) in e.updateKeys;
  }

  lemma AddClients(head: Entry, ladder: LadderId, rung: nat, c: ClientId)
    requires ClientsKept(head)
    ensures ClientsKept(AddEntry(head, ladder, rung, c)) && Anchored(AddEntry(head, ladder, rung, c))
  {
    assert c in AddEntry(head, ladder, rung, c).clients;
  }

  /** The add entry, on any head that commits its client's update-key hash and
      has its ladder at the rung it carries or past it. */
  lemma AddKeepsInvariant(log: Log, bound: set<LadderId>, ladder: LadderId, rung: nat, c: ClientId)
    requires Inv(log, bound) && ladder in bound && Ahead(Head(log), ladder, rung)
    requires HashOf(Active(c)) in Head(log).nextKeyHashes
    ensures Inv(log + [AddEntry(Head(log), ladder, rung, c)], bound)
    ensures Advances(Head(log), AddEntry(Head(log), ladder, rung, c), bound)
  {
    var head, e := Head(log), AddEntry(Head(log), ladder, rung, c);
    assert CarriesOver(head);
    AddAcceptedIff(head, ladder, rung, c);
    AddClients(head, ladder, rung, c);
    VerifiesExtended(log, e);
    AddLadders(head, bound, ladder, rung, c);
    AddTraces(log, ladder, rung, c);
  }
}
