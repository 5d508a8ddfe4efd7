/** The mint policy: many runs, each with a throwaway candidate key, race to create
    one roster and then each collection's first epoch. Every write goes through one
    guarded operation; between any two steps of a run, others' writes of the same
    kind may land, and a run may stop after any write. */
module MintPolicy {
  import opened Seqs

  type KeyId = nat
  type CollectionId = nat

  /** A write some run makes: the guarded roster genesis, the create-if-absent first
      epoch of a collection, or a rotation of a standing roster. */
  datatype Op =
    | CreateRoster(key: KeyId)
    | InstallFirstEpoch(collection: CollectionId, key: KeyId)
    | Rotate(key: KeyId)

  datatype Put = Landed | Precondition | Stopped

  /** Why a mend refuses to mint over a roster it reads as absent. */
  datatype Refusal = EpochPinHeld | LogUnresolved | ForeignCredential | CollectionUnreadable | CollectionKeyed | AdoptedRosterGone

  /** The mint preconditions of the caller: an adopting establishment never mints; a
      mend checks its pin, the account log and every collection. */
  datatype BeforeMint =
    | NeverMint
    | MendChecks(pinHeld: bool, logResolves: bool, foreign: bool, unreadable: set<CollectionId>)

  datatype Outcome =
    | Delivered(key: KeyId, minted: bool, failed: set<CollectionId>)
    | ConvergedElsewhere(elsewhere: KeyId, failedToo: set<CollectionId>)
    | NoWrap
    | MintRefused(why: Refusal)
    | RosterFailed
    | EpochsFailed(collections: set<CollectionId>)
    | Torn

  /** What licenses a mint over a roster read as absent, but for the collections
      found keyed. */
  predicate MayMint(checks: BeforeMint, ids: seq<CollectionId>) {
    && checks.MendChecks? && !checks.pinHeld && checks.logResolves && !checks.foreign
    && forall c :: c in ids ==> c !in checks.unreadable
  }

  /** The failing ones among the collections asked for. */
  function FailingOf(ids: seq<CollectionId>, failing: set<CollectionId>): set<CollectionId> {
    set c | c in failing && c in ids
  }

  /** What one write makes of the roster, and of the first epochs beside it. */
  function RosterAfter(roster: seq<KeyId>, op: Op): seq<KeyId> {
    match op
    case CreateRoster(key) => if roster == [] then [key] else roster
    case InstallFirstEpoch(_, _) => roster
    case Rotate(key) => if roster == [] then [] else roster + [key]
  }

  function EpochsAfter(roster: seq<KeyId>, epochs: map<CollectionId, KeyId>, op: Op): map<CollectionId, KeyId> {
    if op.InstallFirstEpoch? && op.collection !in epochs && op.key in roster then epochs[op.collection := op.key] else epochs
  }

  function AllWritten(roster: seq<KeyId>, epochs: map<CollectionId, KeyId>, ops: seq<Op>)
    : (seq<KeyId>, map<CollectionId, KeyId>)
  {
    if ops == [] then (roster, epochs)
    else
      var before, op := AllWritten(roster, epochs, ops[..|ops| - 1]), ops[|ops| - 1];
      (RosterAfter(before.0, op), EpochsAfter(before.0, before.1, op))
  }

  class Wallet {
    /** The roster's epochs, oldest first; empty while there is no roster. */
    var roster: seq<KeyId>
    var firstEpochs: map<CollectionId, KeyId>
    ghost var geneses: nat
    ghost var rotations: nat
    /** Others' writes, a batch for each of this run's steps. */
    var script: seq<seq<Op>>
    var writesLeft: nat

    constructor (script: seq<seq<Op>>, writesLeft: nat)
      ensures Valid() && roster == [] && firstEpochs == map[] && geneses == 0 && rotations == 0
      ensures this.script == script && this.writesLeft == writesLeft
    {
      roster, firstEpochs, geneses, rotations := [], map[], 0, 0;
      this.script, this.writesLeft := script, writesLeft;
    }

    /** One genesis at most; every first epoch is under a key the roster delivered;
        so no collection is keyed while there is no roster, and with no rotation
        every one of them is under the roster's one key. */
    ghost predicate Valid()
      reads this
    {
      && geneses <= 1 && (geneses == 0 <==> roster == [])
      && |roster| == geneses + rotations && (roster == [] ==> rotations == 0)
      && forall c :: c in firstEpochs ==> firstEpochs[c] in roster
    }

    /** Rosters and first epochs are never taken back. */
    ghost predicate After(wasRoster: seq<KeyId>, wasEpochs: map<CollectionId, KeyId>)
      reads this
    {
      && wasRoster <= roster
      && forall c :: c in wasEpochs ==> c in firstEpochs && firstEpochs[c] == wasEpochs[c]
    }

    function Current(): Option<KeyId>
      reads this
    {
      if roster == [] then None else Some(roster[|roster| - 1])
    }

    /** A first epoch is installed only under a key the roster has delivered. */
    ghost predicate Permitted(op: Op)
      reads this
    {
      op.InstallFirstEpoch? ==> op.key in roster
    }

    /** The store's side of a write: both creates are create-if-absent, and a
        rotation appends to a roster that stands. */
    method Apply(op: Op) returns (landed: bool)
      requires Valid() && Permitted(op)
      modifies this`roster, this`firstEpochs, this`geneses, this`rotations
      ensures Valid() && After(old(roster), old(firstEpochs))
      ensures op.CreateRoster? ==> (landed <==> old(roster) == []) && roster != []
      ensures op.CreateRoster? && landed ==> roster == [op.key] && firstEpochs == map[]
      ensures op.InstallFirstEpoch? ==> op.collection in firstEpochs && (landed <==> op.collection !in old(firstEpochs))
      ensures op.InstallFirstEpoch? ==>
                firstEpochs == (if landed then old(firstEpochs)[op.collection := op.key] else old(firstEpochs))
      ensures op.Rotate? && old(roster) != [] ==> roster == old(roster) + [op.key] && firstEpochs == old(firstEpochs)
      ensures !op.Rotate? ==> rotations == old(rotations)
      ensures op.InstallFirstEpoch? ==> roster == old(roster)
      ensures roster == RosterAfter(old(roster), op) && firstEpochs == EpochsAfter(old(roster), old(firstEpochs), op)
    {
      match op
      case CreateRoster(key) =>
        if roster != [] { return false; }
        assert forall c :: c !in firstEpochs.Keys;
        roster, geneses := [key], geneses + 1;
        return true;
      case InstallFirstEpoch(collection, key) =>
        if collection in firstEpochs { return false; }
        firstEpochs := firstEpochs[collection := key];
        return true;
      case Rotate(key) =>
        if roster == [] { return false; }
        roster, rotations := roster + [key], rotations + 1;
        return true;
    }

    /** Others' next batch. A first epoch under a key no roster delivered is no
        write of theirs: MintRuns shows that no run makes one. */
    method Interfere()
      requires Valid()
      modifies this`roster, this`firstEpochs, this`geneses, this`rotations, this`script
      ensures Valid() && After(old(roster), old(firstEpochs))
      ensures old(NoRotations(script)) ==> rotations == old(rotations) && NoRotations(script)
      ensures old(script) == [] ==> roster == old(roster) && firstEpochs == old(firstEpochs) && script == []
      ensures old(script) != [] ==>
                script == old(script)[1..] && (roster, firstEpochs) == AllWritten(old(roster), old(firstEpochs), old(script)[0])
    {
      if script == [] { return; }
      var batch := script[0];
      script := script[1..];
      assert forall i :: 0 <= i < |script| ==> script[i] == old(script)[i + 1];
      for n := 0 to |batch|
        invariant Valid() && After(old(roster), old(firstEpochs)) && script == old(script)[1..]
        invariant old(NoRotations(script)) ==> rotations == old(rotations)
        invariant (roster, firstEpochs) == AllWritten(old(roster), old(firstEpochs), batch[..n])
      {
        assert batch[..n + 1][..n] == batch[..n];
        if !batch[n].InstallFirstEpoch? || batch[n].key in roster {
          var _ := Apply(batch[n]);
        }
      }
      assert batch[..|batch|] == batch;
    }

    /** This run's own write. */
    method Write(op: Op) returns (put: Put)
      requires Valid() && Permitted(op) && !op.Rotate?
      modifies this
      ensures Valid() && After(old(roster), old(firstEpochs)) && script == old(script) && rotations == old(rotations)
      ensures put == Stopped ==> roster == old(roster) && firstEpochs == old(firstEpochs)
      ensures op.CreateRoster? && put != Stopped ==> (put == Landed <==> old(roster) == []) && roster != []
      ensures op.CreateRoster? && put == Landed ==> roster == [op.key] && firstEpochs == map[]
      ensures op.InstallFirstEpoch? ==> roster == old(roster)
      ensures op.InstallFirstEpoch? && put != Stopped ==>
                op.collection in firstEpochs && (put == Landed <==> op.collection !in old(firstEpochs))
      ensures op.InstallFirstEpoch? && put == Landed ==> firstEpochs == old(firstEpochs)[op.collection := op.key]
      ensures op.InstallFirstEpoch? && put != Landed ==> firstEpochs == old(firstEpochs)
      ensures put == Stopped <==> old(writesLeft) == 0
      ensures writesLeft == if put == Stopped then 0 else old(writesLeft) - 1
      ensures writesLeft + 1 >= old(writesLeft)
    {
      if writesLeft == 0 { return Stopped; }
      writesLeft := writesLeft - 1;
      var landed := Apply(op);
      return if landed then Landed else Precondition;
    }

    /** `ensureWalletSpaceEpochs`: nothing at all unless the roster descriptor this
        run holds is current at the key it would install; then each collection's
        first epoch, the failing ones reported. */
    method EnsureWalletSpaceEpochs(ids: seq<CollectionId>, key: KeyId, descriptor: KeyId, failing: set<CollectionId>)
      returns (skipped: bool, stopped: bool, failed: set<CollectionId>)
      requires Valid() && descriptor in roster
      modifies this
      ensures Valid() && After(old(roster), old(firstEpochs))
      ensures old(NoRotations(script)) ==> rotations == old(rotations) && NoRotations(script)
      ensures skipped <==> descriptor != key
      ensures failed <= failing
      ensures !skipped && !stopped ==> failed == FailingOf(ids, failing)
      ensures !skipped && !stopped ==> forall c :: c in ids && c !in failed ==> c in firstEpochs
      ensures stopped ==> old(writesLeft) < |ids| && !skipped
      ensures old(writesLeft) <= writesLeft + |ids| && writesLeft <= old(writesLeft)
      ensures skipped ==> roster == old(roster) && firstEpochs == old(firstEpochs) && writesLeft == old(writesLeft)
      ensures skipped ==> script == old(script) && failed == {}
      ensures old(script) == [] ==> roster == old(roster) && script == []
      ensures old(script) == [] ==> forall c :: c in firstEpochs && c !in old(firstEpochs) ==> c in ids && firstEpochs[c] == key
    {
      skipped, stopped, failed := descriptor != key, false, {};
      if skipped { return; }
      for n := 0 to |ids|
        invariant Valid() && After(old(roster), old(firstEpochs)) && key in roster
        invariant old(NoRotations(script)) ==> rotations == old(rotations) && NoRotations(script)
        invariant failed == FailingOf(ids[..n], failing)
        invariant old(script) == [] ==> script == [] && roster == old(roster)
        invariant old(script) == [] ==> forall c :: c in firstEpochs && c !in old(firstEpochs) ==> c in ids && firstEpochs[c] == key
        invariant forall c :: c in ids[..n] && c !in failed ==> c in firstEpochs
        invariant old(writesLeft) <= writesLeft + n && writesLeft <= old(writesLeft)
      {
        Interfere();
        if ids[n] in failing {
          failed := failed + {ids[n]};
        } else {
          var put := Write(InstallFirstEpoch(ids[n], key));
          if put == Stopped { return skipped, true, failed; }
        }
      }
      assert ids[..|ids|] == ids;
    }

    /** `rosterMintRefusal`, each collection read in its turn. On this store a keyed
        collection is found only when a roster stands after all. */
    method RosterMintRefusal(checks: BeforeMint, ids: seq<CollectionId>) returns (refusal: Option<Refusal>)
      requires Valid()
      modifies this`roster, this`firstEpochs, this`geneses, this`rotations, this`script
      ensures Valid() && After(old(roster), old(firstEpochs))
      ensures old(NoRotations(script)) ==> rotations == old(rotations) && NoRotations(script)
      ensures refusal == Some(CollectionKeyed) ==> roster != []
      ensures old(script) == [] ==> script == [] && roster == old(roster) && firstEpochs == old(firstEpochs)
      ensures refusal == Some(AdoptedRosterGone) <==> checks.NeverMint?
      ensures refusal == Some(EpochPinHeld) <==> checks.MendChecks? && checks.pinHeld
      ensures refusal == Some(LogUnresolved) <==> checks.MendChecks? && !checks.pinHeld && !checks.logResolves
      ensures refusal == Some(ForeignCredential) <==>
                checks.MendChecks? && !checks.pinHeld && checks.logResolves && checks.foreign
      ensures refusal == Some(CollectionUnreadable) ==> exists c :: c in ids && c in checks.unreadable
      ensures refusal == Some(CollectionKeyed) ==> exists c :: c in ids && c in firstEpochs
      ensures refusal.Some? && refusal != Some(CollectionKeyed) ==> !MayMint(checks, ids)
      ensures refusal == None ==> MayMint(checks, ids) && forall c :: c in ids ==> c !in old(firstEpochs)
    {
      if checks.NeverMint? { return Some(AdoptedRosterGone); }
      if checks.pinHeld { return Some(EpochPinHeld); }
      if !checks.logResolves { return Some(LogUnresolved); }
      if checks.foreign { return Some(ForeignCredential); }
      for n := 0 to |ids|
        invariant Valid() && After(old(roster), old(firstEpochs))
        invariant old(NoRotations(script)) ==> rotations == old(rotations) && NoRotations(script)
        invariant old(script) == [] ==> script == [] && roster == old(roster) && firstEpochs == old(firstEpochs)
        invariant forall c :: c in ids[..n] ==> c !in checks.unreadable && c !in old(firstEpochs)
      {
        Interfere();
        if ids[n] in checks.unreadable { return Some(CollectionUnreadable); }
        if ids[n] in firstEpochs { return Some(CollectionKeyed); }
      }
      return None;
    }

    /** Its first half: the roster read, or minted once nothing forbids it, or -- the
        create lost -- the winner's adopted. */
    method SettleRoster(candidate: KeyId, checks: BeforeMint, ids: seq<CollectionId>)
      returns (ended: Option<Outcome>, descriptor: KeyId, convergedElsewhere: bool)
      requires Valid()
      modifies this
      ensures Valid() && After(old(roster), old(firstEpochs))
      ensures old(NoRotations(script)) ==> rotations == old(rotations) && NoRotations(script)
      ensures ended.None? ==> descriptor in roster
      ensures old(script) == [] ==> script == [] && firstEpochs == old(firstEpochs)
      ensures old(script) == [] && ended.None? ==> Some(descriptor) == Current() && (old(roster) == [] ==> descriptor == candidate)
      ensures ended.None? && checks.NeverMint? && old(roster) == [] && candidate !in roster ==> descriptor != candidate
      ensures ended.Some? ==> ended.value.MintRefused? || (ended.value.Torn? && old(writesLeft) == 0)
      ensures old(roster) != [] ==> ended.None? && !convergedElsewhere && writesLeft == old(writesLeft)
      ensures old(script) == [] ==> !convergedElsewhere && (ended.Some? ==> roster == old(roster))
      ensures old(script) == [] && old(roster) == [] && old(writesLeft) > 0 ==> (ended.None? <==> MayMint(checks, ids))
      ensures convergedElsewhere ==> old(roster) == [] && roster != [] && writesLeft < old(writesLeft)
      ensures ended.None? && writesLeft < old(writesLeft) && descriptor != candidate ==> convergedElsewhere
      ensures ended.Some? && ended.value.MintRefused? && ended.value.why == CollectionKeyed ==> roster != []
      ensures old(writesLeft) <= writesLeft + 1
    {
      convergedElsewhere := false;
      Interfere();
      if roster != [] { return None, Current().value, false; }
      var refusal := RosterMintRefusal(checks, ids);
      if refusal.Some? { return Some(MintRefused(refusal.value)), candidate, false; }
      Interfere();
      var put := Write(CreateRoster(candidate));
      if put == Stopped { return Some(Torn), candidate, false; }
      if put == Landed { return None, candidate, false; }
      Interfere();
      return None, Current().value, true;
    }

    /** `ensureRosterDeliveredEpochs`: ensure the roster, re-read the key it delivers,
        and complete the first epochs under that key. `wraps` is what this credential
        can open besides its own candidate. */
    method EnsureRosterDeliveredEpochs(candidate: KeyId, checks: BeforeMint, wraps: set<KeyId>, ids: seq<CollectionId>,
                                       failing: set<CollectionId>) returns (outcome: Outcome)
      requires Valid()
      modifies this
      ensures Valid() && After(old(roster), old(firstEpochs))
      ensures old(NoRotations(script)) ==> rotations == old(rotations)
      ensures outcome.Delivered? ==>
                && outcome.key in roster && outcome.failed <= failing
                && forall c :: c in ids && c !in outcome.failed ==> c in firstEpochs
      ensures outcome.Delivered? ==> (outcome.minted <==> outcome.key == candidate)
      ensures old(script) == [] && outcome.Delivered? ==>
                && Some(outcome.key) == Current()
                && forall c :: c in firstEpochs && c !in old(firstEpochs) ==> firstEpochs[c] == outcome.key
      ensures outcome.Delivered? && !outcome.minted ==> old(writesLeft) <= writesLeft + |ids|
      ensures outcome.ConvergedElsewhere? ==> writesLeft < old(writesLeft)
      ensures outcome.ConvergedElsewhere? ==>
                outcome.elsewhere in roster && forall c :: c in ids && c !in outcome.failedToo ==> c in firstEpochs
      ensures !outcome.RosterFailed? && !outcome.EpochsFailed?
      ensures outcome.Delivered? ==> outcome.key == candidate || outcome.key in wraps
      ensures outcome.Delivered? ==> outcome.failed == FailingOf(ids, failing)
      ensures outcome.NoWrap? ==> exists key :: key in roster && key != candidate && key !in wraps
      ensures old(roster) != [] ==> !outcome.MintRefused? && !outcome.ConvergedElsewhere?
      ensures old(roster) != [] ==> (outcome == Torn ==> old(writesLeft) < |ids|)
      ensures old(script) == [] && |ids| < old(writesLeft) ==>
                var delivered := if old(roster) == [] then candidate else old(Current()).value;
                if old(roster) == [] && !MayMint(checks, ids) then outcome.MintRefused? && roster == []
                else
                  && Current() == Some(delivered)
                  && outcome == if delivered == candidate || delivered in wraps
                                then Delivered(delivered, delivered == candidate, FailingOf(ids, failing)) else NoWrap
      ensures checks.NeverMint? && old(roster) == [] && candidate !in roster ==> !(outcome.Delivered? && outcome.minted)
      ensures outcome.MintRefused? && outcome.why == CollectionKeyed ==> roster != []
      ensures outcome == Torn ==> old(writesLeft) < |ids| + 1
    {
      var ended, descriptor, convergedElsewhere := SettleRoster(candidate, checks, ids);
      if ended.Some? { return ended.value; }
      if descriptor != candidate && descriptor !in wraps { return NoWrap; }
      var _, stopped, failed := EnsureWalletSpaceEpochs(ids, descriptor, descriptor, failing);
      if stopped { return Torn; }
      return if convergedElsewhere then ConvergedElsewhere(descriptor, failed)
             else Delivered(descriptor, descriptor == candidate, failed);
    }

    /** The genesis core's roster and epoch stages: the run's own candidate installs
        only when the roster it holds is current at that candidate. */
    method GenesisRosterAndEpochs(candidate: KeyId, ids: seq<CollectionId>, failing: set<CollectionId>)
      returns (descriptor: Option<KeyId>, skipped: bool, stopped: bool, failed: set<CollectionId>)
      requires Valid()
      modifies this
      ensures Valid() && After(old(roster), old(firstEpochs))
      ensures old(NoRotations(script)) ==> rotations == old(rotations) && NoRotations(script)
      ensures descriptor.Some? ==> descriptor.value in roster && (skipped <==> descriptor != Some(candidate))
      ensures old(script) == [] ==> forall c :: c in firstEpochs && c !in old(firstEpochs) ==> firstEpochs[c] == candidate
      ensures descriptor == Some(candidate) && !stopped ==>
                failed == FailingOf(ids, failing) && forall c :: c in ids && c !in failed ==> c in firstEpochs
      ensures stopped ==> old(writesLeft) < |ids| + 1
      ensures !stopped && old(roster) != [] ==> descriptor.Some?
      ensures !stopped && descriptor.None? ==> old(roster) == [] && roster != [] && old(script) != []
      ensures !stopped && descriptor.Some? && descriptor != Some(candidate) ==>
                writesLeft == old(writesLeft) && failed == {} && roster != []
      ensures old(script) == [] ==> script == []
      ensures old(script) == [] && !stopped ==>
                descriptor == Current() && descriptor == if old(roster) == [] then Some(candidate) else old(Current())
    {
      skipped, stopped, failed, descriptor := false, false, {}, None;
      Interfere();
      if roster != [] {
        descriptor := Current();
      } else {
        Interfere();
        var put := Write(CreateRoster(candidate));
        if put == Stopped { return None, false, true, {}; }
        if put == Precondition { return; }
        descriptor := Some(candidate);
      }
      skipped, stopped, failed := EnsureWalletSpaceEpochs(ids, candidate, descriptor.value, failing);
    }

    /** The establishment: its own genesis, and over a roster it adopted the
        delivered-key arm, which never mints. A collection that fails fails it. */
    method Establish(candidate: KeyId, wraps: set<KeyId>, ids: seq<CollectionId>, failing: set<CollectionId>)
      returns (outcome: Outcome)
      requires Valid()
      modifies this
      ensures Valid() && After(old(roster), old(firstEpochs))
      ensures old(NoRotations(script)) ==> rotations == old(rotations)
      ensures outcome.Delivered? ==>
                && outcome.key in roster && outcome.failed == {} && (forall c :: c in ids ==> c in firstEpochs)
                && (outcome.key == candidate || outcome.key in wraps) && (outcome.minted <==> outcome.key == candidate)
      ensures !outcome.MintRefused? && !outcome.ConvergedElsewhere?
      ensures outcome.RosterFailed? ==> old(roster) == [] && roster != [] && old(script) != []
      ensures outcome.EpochsFailed? ==> outcome.collections == FailingOf(ids, failing) && outcome.collections != {}
      ensures outcome.NoWrap? ==> exists key :: key in roster && key != candidate && key !in wraps
      ensures outcome.Torn? ==> old(writesLeft) < |ids| + 1
      ensures old(script) == [] && |ids| < old(writesLeft) ==>
                var delivered := if old(roster) == [] then candidate else old(Current()).value;
                && Current() == Some(delivered)
                && outcome == (if delivered != candidate && delivered !in wraps then NoWrap
                               else if FailingOf(ids, failing) != {} then EpochsFailed(FailingOf(ids, failing))
                               else Delivered(delivered, delivered == candidate, {}))
    {
      var descriptor, _, stopped, failed := GenesisRosterAndEpochs(candidate, ids, failing);
      if stopped { return Torn; }
      if descriptor.None? { return RosterFailed; }
      if descriptor.value == candidate {
        return if failed != {} then EpochsFailed(failed) else Delivered(candidate, true, {});
      }
      outcome := EnsureRosterDeliveredEpochs(candidate, NeverMint, wraps, ids, failing);
      if outcome.Delivered? && outcome.failed != {} { outcome := EpochsFailed(outcome.failed); }
    }

    /** With no rotation, every keyed collection is under the roster's one key. */
    lemma UnrotatedEpochsAreCurrent()
      requires Valid() && rotations == 0
      ensures forall c :: c in firstEpochs ==> Some(firstEpochs[c]) == Current()
    {
      forall c | c in firstEpochs ensures Some(firstEpochs[c]) == Current() {
        var i :| 0 <= i < |roster| && roster[i] == firstEpochs[c];
      }
    }
  }

  /** A rotation between a run's roster read and its install leaves a first epoch
      under a key the roster delivered and no longer does. */
  method RotationOutrunsInstall(first: KeyId, second: KeyId, c: CollectionId) returns (wallet: Wallet)
    requires first != second
    ensures wallet.Valid() && c in wallet.firstEpochs
    ensures wallet.firstEpochs[c] in wallet.roster && wallet.Current() != Some(wallet.firstEpochs[c])
  {
    wallet := new Wallet([[Rotate(second)]], 2);
    var _ := wallet.Write(CreateRoster(first));
    assert [Rotate(second)][..0] == [];
    wallet.Interfere();
    var _ := wallet.Write(InstallFirstEpoch(c, first));
  }

  predicate NoRotations(script: seq<seq<Op>>) {
    forall i, j :: 0 <= i < |script| && 0 <= j < |script[i]| ==> !script[i][j].Rotate?
  }
}
