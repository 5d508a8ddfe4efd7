/** Forgetting an account's last enrolled client: the strike-and-reinstall pair,
    the one licensed roster rotation, the collection fan-out, the delegation and
    record stages and the removal entry, in a run that may stop after any durable
    write and be started again. */
module LastClient {
  import opened Seqs
  import opened WebvhLog
  import opened Ladder
  import opened ClientRemoval
  import opened AccountEntries
  import opened AccountInvariant
  import Retirement

  /** The verification methods a document lists, as a delegation's proof key names
      them. */
  function LadderVm(l: LadderId): Retirement.VmKey { 2 * l }

  function ClientVm(c: ClientId): Retirement.VmKey { 2 * c + 1 }

  function DocumentKeys(e: Entry): set<Retirement.VmKey> {
    (set l | l in e.ladderVms :: LadderVm(l)) + (set c | c in e.clients :: ClientVm(c))
  }

  type Epochs = s: seq<set<ClientId>> | 0 < |s| witness [{}]

  /** The user-key roster: the clients each epoch's key was wrapped to, oldest first,
      and the account-log version each ladder-signed append past the genesis carries. */
  datatype Roster = Roster(epochs: Epochs, headVersion: Option<nat>, appends: seq<nat>) {
    /** The current epoch's recipients. */
    function Wraps(): set<ClientId> { epochs[|epochs| - 1] }

    function Current(): nat { |epochs| - 1 }

    /** An epoch later than any the client was wrapped in. */
    predicate PastOf(c: ClientId, epoch: nat) {
      epoch < |epochs| && forall j :: 0 <= j < |epochs| && c in epochs[j] ==> j < epoch
    }
  }

  /** A roster rotated off a client it wrapped: one epoch more, for those it wrapped
      but the client, in one append; one that did not wrap it, as it was. */
  ghost predicate RotatedOff(before: Option<Roster>, after: Option<Roster>, c: ClientId) {
    if before.Some? && c in before.value.Wraps() then
      && after.Some? && after.value.epochs == before.value.epochs + [before.value.Wraps() - {c}]
      && |after.value.appends| == |before.value.appends| + 1 && before.value.appends <= after.value.appends
    else after == before
  }

  /** What a ladder-signed roster append must carry: a version whose credential
      inventory changed, or whose client set changed under a rung of that ladder
      -- and the roster's head before it. */
  predicate Licensed(log: Log, version: nat, ladder: LadderId, headVersion: Option<nat>) {
    && version < |log|
    && (var before := if version == 0 then ({}, {}) else (log[version - 1].ladderVms, log[version - 1].clients);
        || log[version].ladderVms != before.0
        || (log[version].clients != before.1 && log[version].signer.Rung? && log[version].signer.ladder == ladder))
    && (headVersion.Some? ==> headVersion.value < version)
  }

  ghost predicate Increasing(s: seq<nat>) {
    forall i, j :: 0 <= i < j < |s| ==> s[i] < s[j]
  }

  lemma IncreasingExtended(s: seq<nat>, x: nat)
    requires Increasing(s) && forall v :: v in s ==> v < x
    ensures Increasing(s + [x])
  {
    assert forall i :: 0 <= i < |s| ==> s[i] in s;
  }

  ghost predicate RosterOk(log: Log, roster: Option<Roster>) {
    roster.Some? ==>
      && (roster.value.headVersion.Some? ==> roster.value.headVersion.value < |log|)
      && Increasing(roster.value.appends)
      && forall v :: v in roster.value.appends ==> roster.value.headVersion.Some? && v <= roster.value.headVersion.value
  }

  datatype Outcome = AlreadyRemoved | AnotherClientRemains | Refused | LicenseRefused | Stopped | Completed(failed: set<nat>)

  /** Whether the ladder's acting rung can be attributed on the head. */
  predicate Signable(log: Log, ladder: LadderId) {
    Attribute(ladder, Head(log)).Success?
  }

  /** A strike or install the ladder can sign lands, keeps the invariant, and
      leaves the ladder able to sign. */
  lemma VmEntryLands(log: Log, bound: set<LadderId>, ladder: LadderId, present: bool)
    requires Inv(log, bound) && ladder in bound && Signable(log, ladder)
    requires (ladder in Head(log).ladderVms) != present && (!present ==> Head(log).clients != {})
    ensures var plan := PlanFor(SetLadderVm(ladder, present), log);
            && plan.Publish? && Inv(log + [plan.entry], bound) && Signable(log + [plan.entry], ladder)
            && plan.entry.clients == Head(log).clients
            && plan.entry.ladderVms == (if present then Head(log).ladderVms + {ladder} else Head(log).ladderVms - {ladder})
  {
    assert CarriesOver(Head(log));
    var a := ActingRung(log, bound, ladder);
    AttributionRecoversTheFrontier(ladder, Head(log), a);
    var plan := PlanFor(SetLadderVm(ladder, present), log);
    CeremonyKeepsInvariant(log, bound, SetLadderVm(ladder, present));
    ActsAtAfterVm(Head(log), ladder, a, plan.entry.ladderVms);
    AttributionRecoversTheFrontier(ladder, plan.entry, Attributed(a.rung, Revealed));
  }

  lemma ActsAtAfterVm(head: Entry, ladder: LadderId, a: Attributed, vms: set<LadderId>)
    requires ActsAt(ladder, head, a)
    ensures ActsAt(ladder, SignedAs(Rung(ladder, a.rung), Unchanged(head).(ladderVms := vms)), Attributed(a.rung, Revealed))
  {
  }

  lemma VmHashes(head: Entry, ladder: LadderId, a: Attributed, vms: set<LadderId>)
    requires ActsAt(ladder, head, a)
    ensures var e := SignedAs(Rung(ladder, a.rung), Unchanged(head).(ladderVms := vms));
            && (forall h :: h in e.nextKeyHashes <==> h in head.nextKeyHashes)
            && (forall c: ClientId :: Active(c) in e.updateKeys <==> Active(c) in head.updateKeys)
  {
  }

  lemma SparesCarried(log: Log, e: Entry, c: ClientId, vouched: set<Hash>)
    requires Traced(log, c) && CarriesOver(Head(log)) && Spares(log, c, vouched)
    requires forall h :: h in e.nextKeyHashes <==> h in Head(log).nextKeyHashes
    requires Active(c) in e.updateKeys <==> Active(c) in Head(log).updateKeys
    ensures Spares(log + [e], c, vouched)
  {
    if Active(c) in e.updateKeys { CommitCarries(log, e, c); }
  }

  lemma VmVouched(log: Log, ladder: LadderId, a: Attributed, vms: set<LadderId>, vouched: set<Hash>)
    requires ActsAt(ladder, Head(log), a) && a.rung < LADDER_MAX_SCAN
    ensures var e := SignedAs(Rung(ladder, a.rung), Unchanged(Head(log)).(ladderVms := vms));
            Vouched(log + [e], ladder, vouched) == Vouched(log, ladder, vouched)
  {
    ActsAtAfterVm(Head(log), ladder, a, vms);
    AttributionRecoversTheFrontier(ladder, Head(log), a);
    AttributionRecoversTheFrontier(ladder, SignedAs(Rung(ladder, a.rung), Unchanged(Head(log)).(ladderVms := vms)),
                                   Attributed(a.rung, Revealed));
    assert LadderHashes(ladder, a) == LadderHashes(ladder, Attributed(a.rung, Revealed));
  }

  /** A strike or install leaves a client whose removal strikes no hash but its own
      such a client. */
  lemma VmEntrySpares(log: Log, bound: set<LadderId>, ladder: LadderId, present: bool, c: ClientId, vouched: set<Hash>)
    requires Inv(log, bound) && ladder in bound && RemovesOneClient(log, ladder, c, vouched)
    requires PlanFor(SetLadderVm(ladder, present), log).Publish?
    ensures RemovesOneClient(log + [PlanFor(SetLadderVm(ladder, present), log).entry], ladder, c, vouched)
  {
    var e := PlanFor(SetLadderVm(ladder, present), log).entry;
    var a := ActingRung(log, bound, ladder);
    assert CarriesOver(Head(log)) && Traced(log, c);
    AttributionRecoversTheFrontier(ladder, Head(log), a);
    VmHashes(Head(log), ladder, a, e.ladderVms);
    VmVouched(log, ladder, a, e.ladderVms, vouched);
    SparesCarried(log, e, c, Vouched(log, ladder, vouched));
  }

  lemma VmEntrySparesAll(log: Log, bound: set<LadderId>, ladder: LadderId, present: bool, c: ClientId)
    requires Inv(log, bound) && ladder in bound && PlanFor(SetLadderVm(ladder, present), log).Publish?
    ensures var e := PlanFor(SetLadderVm(ladder, present), log).entry;
            forall vouched ::
              RemovesOneClient(log, ladder, c, vouched) ==> RemovesOneClient(log + [e], ladder, c, vouched)
  {
    var e := PlanFor(SetLadderVm(ladder, present), log).entry;
    forall vouched | RemovesOneClient(log, ladder, c, vouched) ensures RemovesOneClient(log + [e], ladder, c, vouched) {
      VmEntrySpares(log, bound, ladder, present, c, vouched);
    }
  }

  lemma ForgetLastPlans(log: Log, ladder: LadderId, a: Attributed, c: ClientId, vouched: set<Hash>, derived: set<Hash>)
    requires Attribute(ladder, Head(log)) == Success(a) && Present(log, c) && ladder in Head(log).ladderVms
    ensures PlanFor(ForgetLast(ladder, c, vouched, derived), log) == PlanRemoval(log, ladder, a, c, vouched, derived)
  {
    var cer := ForgetLast(ladder, c, vouched, derived);
    assert !Settled(cer, log) && Inadmissible(cer, log).None?;
    assert PlanFor(cer, log) == PlanAsLadder(cer, ladder, log, a);
    assert PlanAsLadder(cer, ladder, log, a) == PlanRemoval(log, ladder, a, c, vouched, derived);
  }

  lemma RemovalPlanned(log: Log, bound: set<LadderId>, ladder: LadderId, a: Attributed, c: ClientId,
                       vouched: set<Hash>, derived: set<Hash>)
    requires Inv(log, bound) && ladder in bound && ActsAt(ladder, Head(log), a) && a.rung < LADDER_MAX_SCAN
    requires Present(log, c) && ladder in Head(log).ladderVms && RemovesOneClient(log, ladder, c, vouched)
    ensures var r := RemovalFields(log, c, vouched + LadderHashes(ladder, a), derived);
            r.Success? && PlanFor(ForgetLast(ladder, c, vouched, derived), log) ==
                          Publish(SignedAs(Rung(ladder, a.rung), r.value))
  {
    AttributionRecoversTheFrontier(ladder, Head(log), a);
    ForgetLastPlans(log, ladder, a, c, vouched, derived);
    assert CarriesOver(Head(log));
    RemovalTakesOutOneClient(log, c, vouched + LadderHashes(ladder, a), derived);
  }

  lemma RemovalEntryGone(head: Entry, c: ClientId, f: Fields, signer: Key)
    requires TakesOut(head, c, f) && signer.Rung?
    ensures var e := SignedAs(signer, f);
            && c !in e.clients && Active(c) !in e.updateKeys && HashOf(Active(c)) !in e.nextKeyHashes
            && e.ladderVms == head.ladderVms && e.clients == head.clients - {c}
  {
  }

  /** The removal the ladder can sign lands wherever its VM stands. */
  lemma RemovalLands(log: Log, bound: set<LadderId>, ladder: LadderId, c: ClientId, vouched: set<Hash>, derived: set<Hash>)
    requires Inv(log, bound) && ladder in bound && Signable(log, ladder)
    requires Present(log, c) && ladder in Head(log).ladderVms && RemovesOneClient(log, ladder, c, vouched)
    ensures var plan := PlanFor(ForgetLast(ladder, c, vouched, derived), log);
            && plan.Publish? && Inv(log + [plan.entry], bound)
            && !Present(log + [plan.entry], c) && plan.entry.ladderVms == Head(log).ladderVms
            && plan.entry.clients == Head(log).clients - {c} && plan.entry.pointer == Head(log).pointer
            && RemovesOneClient(log + [plan.entry], ladder, c, vouched)
  {
    var a := ActingRung(log, bound, ladder);
    AttributionRecoversTheFrontier(ladder, Head(log), a);
    RemovalPlanned(log, bound, ladder, a, c, vouched, derived);
    RemovalKeeps(log, bound, ladder, a, c, vouched, derived);
    assert CarriesOver(Head(log));
    RemovalTakesOutOneClient(log, c, vouched + LadderHashes(ladder, a), derived);
    var f := RemovalFields(log, c, vouched + LadderHashes(ladder, a), derived).value;
    RemovalEntryGone(Head(log), c, f, Rung(ladder, a.rung));
  }

  /** One run's luck: how many of its own writes land before it stops, which
      collections fail, and how the delegation stage fares. */
  datatype Attempt = Attempt(writes: nat, failing: set<nat>, retirement: Retirement.Attempt)

  /** An id no entry embedded and nothing revoked. */
  ghost predicate Unused(log: Retirement.GenerationLog, revoked: set<Retirement.DelegationId>, id: Retirement.DelegationId) {
    id !in Retirement.IdsOf(log) && id !in revoked
  }

  ghost predicate LaterUnused(torn: seq<Attempt>, n: nat, log: Retirement.GenerationLog, revoked: set<Retirement.DelegationId>) {
    forall k :: n <= k < |torn| ==> Unused(log, revoked, torn[k].retirement.minted)
  }

  ghost predicate MintsDiffer(torn: seq<Attempt>, last: Retirement.Attempt) {
    && (forall k :: 0 <= k < |torn| ==> torn[k].retirement.minted != last.minted)
    && (forall j, k :: 0 <= j < k < |torn| ==> torn[j].retirement.minted != torn[k].retirement.minted)
  }

  lemma LaterStillUnused(torn: seq<Attempt>, last: Retirement.Attempt, n: nat, log: Retirement.GenerationLog,
                         revoked: set<Retirement.DelegationId>, log': Retirement.GenerationLog,
                         revoked': set<Retirement.DelegationId>)
    requires n < |torn| && MintsDiffer(torn, last)
    requires LaterUnused(torn, n, log, revoked) && Unused(log, revoked, last.minted)
    requires Retirement.IdsOf(log') <= Retirement.IdsOf(log) + {torn[n].retirement.minted}
    requires revoked' <= revoked + Retirement.IdsOf(log)
    ensures LaterUnused(torn, n + 1, log', revoked') && Unused(log', revoked', last.minted)
  {
    forall k | n + 1 <= k < |torn| ensures Unused(log', revoked', torn[k].retirement.minted) {
      assert Unused(log, revoked, torn[k].retirement.minted);
    }
  }

  /** Every run's credential can write the generation's log. */
  ghost predicate AllCommitted(torn: seq<Attempt>) {
    forall k :: 0 <= k < |torn| ==> torn[k].retirement.writer != Retirement.Uncommitted
  }

  /** Without an attributable rung the removal is not published. */
  lemma UnsignableRefused(log: Log, ladder: LadderId, c: ClientId, vouched: set<Hash>, derived: set<Hash>)
    requires !Signable(log, ladder)
    ensures !PlanFor(ForgetLast(ladder, c, vouched, derived), log).Publish?
  {
  }

  class Account {
    var log: Log
    ghost var bound: set<LadderId>
    var roster: Option<Roster>
    var collections: map<nat, nat>
    /** The pointed generation, and the clock of the last run whose delegation
        stage ended. */
    const generation: Retirement.Generation
    ghost var retiredAt: Option<int>
    var recordRebound: bool
    var writesLeft: nat

    constructor (ladder: LadderId)
      ensures log == GenesisLog(ladder) && bound == {ladder} && roster == None && collections == map[] && writesLeft == 0
      ensures Valid() && fresh(generation)
    {
      log, bound, roster, collections := GenesisLog(ladder), {ladder}, None, map[];
      retiredAt, recordRebound, writesLeft := None, false, 0;
      generation := new Retirement.Generation();
      new;
      GenesisHolds(ladder);
    }

    ghost predicate Valid()
      reads this`log, this`bound, this`roster, generation
    {
      Inv(log, bound) && RosterOk(log, roster) && Retirement.IdsName(generation.log)
    }

    /** Every delegation of the generation's log that the ladder signed is revoked,
        at its expiry, or the live one the generation embeds. */
    ghost predicate DelegationsEnded(ladder: LadderId, now: int)
      reads generation
    {
      forall d: Retirement.Delegation ::
        Some(d) in generation.log && d.id.Some? && d.signer == Some(LadderVm(ladder)) ==>
          || d.id.value in generation.revoked || Retirement.AtExpiry(d, now)
          || (Retirement.Embedded(generation.log) == Some(d) && generation.Live())
    }

    /** The delegation the generation embeds outlasts the renewal window and is
        signed by a ladder VM the document lists. */
    ghost predicate LadderDelegated(now: int)
      reads this`log, generation
    {
      && Retirement.Embedded(generation.log).Some? && var d := Retirement.Embedded(generation.log).value;
      && d.expires.Some? && d.expires.value > now + Retirement.ZCAP_RENEWAL_WINDOW_MS
      && exists l :: l in Head(log).ladderVms && d.signer == Some(LadderVm(l))
    }

    /** The delegation stage has ended, or there is no generation pointed at. */
    ghost predicate DelegationsRetired(ladder: LadderId)
      reads this`log, this`retiredAt, generation
    {
      retiredAt.Some? && (Head(log).pointer.None? || DelegationsEnded(ladder, retiredAt.value))
    }

    predicate Wrapped(c: ClientId)
      reads this`roster
    {
      roster.Some? && c in roster.value.Wraps()
    }

    /** The collection is under an epoch later than any the client was wrapped in. */
    ghost predicate MovedOff(c: ClientId, k: nat)
      reads this`roster, this`collections
    {
      roster.Some? && k in collections && roster.value.PastOf(c, collections[k])
    }

    /** Every collection is under the epoch it was under, or under the roster's. */
    ghost predicate KeptOrMoved(before: map<nat, nat>)
      reads this`roster, this`collections
    {
      && collections.Keys == before.Keys
      && forall k :: k in collections ==>
           collections[k] == before[k] || (roster.Some? && collections[k] == roster.value.Current())
    }

    /** A fan-out that ended: every collection not reported is under the roster's epoch,
        and reported are, while the client is enrolled, exactly the failing ones. */
    ghost predicate FannedOut(failed: set<nat>, failing: set<nat>, enrolled: bool)
      reads this`roster, this`collections
    {
      if roster.None? then failed == {}
      else
        && (enrolled ==> forall k :: k in failed <==> k in failing && k in collections)
        && forall k :: k in collections && k !in failed ==> collections[k] == roster.value.Current()
    }

    /** Every collection not reported is, while there is a roster. */
    ghost predicate AllMovedOff(c: ClientId, failed: set<nat>)
      reads this`roster, this`collections
    {
      roster.Some? ==> forall k :: k in collections && k !in failed ==> MovedOff(c, k)
    }

    /** The roster's newest append carries the version at which the ladder's VM came
        back. */
    ghost predicate AppendedAtReinstall(ladder: LadderId)
      reads this`log, this`roster
    {
      && roster.Some? && roster.value.appends != []
      && var version := roster.value.appends[|roster.value.appends| - 1];
         0 < version < |log| && ladder in log[version].ladderVms && ladder !in log[version - 1].ladderVms
    }

    /** The transition's one final state. */
    ghost predicate Forgotten(ladder: LadderId, c: ClientId)
      reads this`log, this`roster, this`recordRebound, this`retiredAt, generation
    {
      && !Present(log, c) && ladder in Head(log).ladderVms && !Wrapped(c)
      && recordRebound && DelegationsRetired(ladder)
    }

    /** The strike-and-reinstall pair is owed: the rotation is, or the VM is missing. */
    predicate PairOwed(ladder: LadderId, c: ClientId)
      reads this`log, this`roster
    {
      Wrapped(c) || ladder !in Head(log).ladderVms
    }

    /** What the transition demands: no client enrolled but this one, of which the
        document or the log still states something, or one already gone after a
        completed transition. */
    ghost predicate Transitioning(ladder: LadderId, c: ClientId, vouched: set<Hash>)
      reads this`log, this`bound, this`roster, this`recordRebound, this`retiredAt, generation
    {
      && Valid() && ladder in bound && RemovesOneClient(log, ladder, c, vouched)
      && ((Head(log).clients <= {c} && Present(log, c)) || Forgotten(ladder, c))
    }

    /** The runs that can get through: the pair is published under the client, so it
        is owed only while the client is enrolled. */
    predicate Passable(ladder: LadderId, c: ClientId)
      reads this`log, this`roster
    {
      Head(log).clients == {c} || !PairOwed(ladder, c)
    }

    /** One durable write: refused when the run stops here. */
    method Write() returns (lands: bool)
      modifies this`writesLeft
      ensures lands == (0 < old(writesLeft)) && writesLeft == if lands then old(writesLeft) - 1 else 0
    {
      lands := 0 < writesLeft;
      if lands { writesLeft := writesLeft - 1; }
    }

    /** A strike or install published through the client's own store: refused once the
        document does not enroll it. */
    method SetVm(ladder: LadderId, c: ClientId, present: bool) returns (stopped: Option<Outcome>)
      requires Valid() && ladder in bound && Head(log).clients <= {c}
      modifies this`log, this`writesLeft
      ensures Valid() && Head(log).clients == old(Head(log)).clients && old(log) <= log
      ensures forall vouched :: old(RemovesOneClient(log, ladder, c, vouched)) ==> RemovesOneClient(log, ladder, c, vouched)
      ensures stopped.Some? ==> log == old(log) && (stopped == Some(Refused) || stopped == Some(Stopped))
      ensures stopped.None? && present ==> Head(log).ladderVms == old(Head(log)).ladderVms + {ladder}
      ensures stopped.None? && !present ==> Head(log).ladderVms == old(Head(log)).ladderVms - {ladder}
      ensures stopped.None? && (ladder in old(Head(log)).ladderVms) != present ==>
                |log| == |old(log)| + 1 && Head(log).ladderVms != old(Head(log)).ladderVms
      ensures (ladder in old(Head(log)).ladderVms) == present ==> log == old(log) && stopped.None?
      ensures old(Head(log)).clients == {} ==>
                log == old(log) && writesLeft == old(writesLeft)
                && (stopped == if (ladder in Head(log).ladderVms) == present then None else Some(Refused))
      ensures stopped == Some(Stopped) ==> old(writesLeft) == 0
      ensures old(Signable(log, ladder)) ==> Signable(log, ladder)
      ensures old(Signable(log, ladder)) && Head(log).clients == {c} ==> stopped != Some(Refused)
      ensures old(writesLeft) <= writesLeft + 1
    {
      var plan := PlanFor(SetLadderVm(ladder, present), log);
      if plan.Skip? { return None; }
      if !plan.Publish? || c !in Head(log).clients {
        if Signable(log, ladder) && c in Head(log).clients { VmEntryLands(log, bound, ladder, present); }
        return Some(Refused);
      }
      var longer: Log := log + [plan.entry];
      VmEntryLands(log, bound, ladder, present);
      VmEntrySparesAll(log, bound, ladder, present, c);
      var lands := Write();
      if !lands { return Some(Stopped); }
      log := longer;
      return None;
    }

    /** One roster append off the retired client's wrap, at the log's newest version. */
    method Rotate(ladder: LadderId, c: ClientId) returns (stopped: Option<Outcome>)
      requires Valid() && roster.Some?
      modifies this`roster, this`writesLeft
      ensures Valid() && roster.Some?
      ensures stopped.Some? ==> roster == old(roster)
      ensures stopped == Some(LicenseRefused) <==> !Licensed(log, |log| - 1, ladder, old(roster).value.headVersion)
      ensures stopped == None || stopped == Some(LicenseRefused) || (stopped == Some(Stopped) && old(writesLeft) == 0)
      ensures stopped.None? ==> old(roster).value.headVersion != Some(|log| - 1) && roster.value.headVersion == Some(|log| - 1)
      ensures stopped.None? && 1 < |log| && log[|log| - 1].ladderVms == log[|log| - 2].ladderVms ==>
                log[|log| - 1].clients != log[|log| - 2].clients && exists i :: log[|log| - 1].signer == Rung(ladder, i)
      ensures 1 < |log| && log[|log| - 1].ladderVms != log[|log| - 2].ladderVms ==>
                (stopped == Some(LicenseRefused) <==> old(roster).value.headVersion == Some(|log| - 1))
      ensures stopped.None? ==> roster.value.epochs == old(roster).value.epochs + [old(roster).value.Wraps() - {c}]
                                && roster.value.appends == old(roster).value.appends + [|log| - 1]
      ensures stopped.None? ==> !Wrapped(c) && roster.value.PastOf(c, roster.value.Current())
      ensures stopped.None? ==> roster.value.Current() == old(roster).value.Current() + 1
      ensures old(writesLeft) <= writesLeft + 1
    {
      var current := roster.value;
      var version := |log| - 1;
      if !Licensed(log, version, ladder, current.headVersion) { return Some(LicenseRefused); }
      var lands := Write();
      if !lands { return Some(Stopped); }
      IncreasingExtended(current.appends, version);
      roster := Some(Roster(current.epochs + [current.Wraps() - {c}], Some(version), current.appends + [version]));
      return None;
    }

    /** The fan-out: each collection onto the roster's key, those that fail reported
        and left -- every stale one, once the document does not enroll the client
        they are written under. */
    method FanOut(c: ClientId, failing: set<nat>) returns (stopped: Option<Outcome>, failed: set<nat>)
      requires Valid() && roster.Some?
      modifies this`collections, this`writesLeft
      ensures Valid() && collections.Keys == old(collections).Keys
      ensures c !in Head(log).clients ==> collections == old(collections)
      ensures stopped.None? ==> FannedOut(failed, failing, c in Head(log).clients)
      ensures KeptOrMoved(old(collections))
      ensures stopped == None || (stopped == Some(Stopped) && old(writesLeft) < |old(collections)|)
      ensures old(writesLeft) <= writesLeft + |old(collections)|
    {
      failed := {};
      var rest := collections.Keys;
      while rest != {}
        invariant rest <= collections.Keys == old(collections).Keys
        invariant c in Head(log).clients ==> forall k :: k in failed <==> k in failing && k in collections && k !in rest
        invariant c !in Head(log).clients ==> collections == old(collections)
        invariant KeptOrMoved(old(collections))
        invariant forall k :: k in collections && k !in rest && k !in failed ==> collections[k] == roster.value.Current()
        invariant old(writesLeft) + |rest| <= writesLeft + |old(collections).Keys|
        decreases |rest|
      {
        var k :| k in rest;
        if k in failing || (c !in Head(log).clients && collections[k] != roster.value.Current()) {
          failed := failed + {k};
        } else if collections[k] != roster.value.Current() {
          var lands := Write();
          if !lands { return Some(Stopped), failed; }
          collections := collections[k := roster.value.Current()];
        }
        rest := rest - {k};
      }
      return None, failed;
    }

    /** The strike-and-reinstall pair, run while it is owed: it leaves the VM standing
        and, when the rotation is owed, a newest version the license admits one
        append at. Under no enrolled client it is refused whenever it is owed. */
    method StrikeAndReinstall(ladder: LadderId, c: ClientId) returns (stopped: Option<Outcome>)
      requires Valid() && ladder in bound && Head(log).clients <= {c}
      modifies this`log, this`writesLeft
      ensures Valid() && Head(log).clients == old(Head(log)).clients && old(log) <= log
      ensures forall vouched :: old(RemovesOneClient(log, ladder, c, vouched)) ==> RemovesOneClient(log, ladder, c, vouched)
      ensures stopped.Some? ==> stopped == Some(Refused) || stopped == Some(Stopped)
      ensures stopped.None? ==> Head(log).ladderVms == old(Head(log)).ladderVms + {ladder}
      ensures !old(PairOwed(ladder, c)) ==> log == old(log) && stopped.None?
      ensures stopped.None? && old(PairOwed(ladder, c)) ==>
                2 <= |log| && ladder in Head(log).ladderVms && ladder !in log[|log| - 2].ladderVms
      ensures old(Head(log)).clients == {} ==>
                log == old(log) && writesLeft == old(writesLeft)
                && stopped == if PairOwed(ladder, c) then Some(Refused) else None
      ensures stopped.None? && Wrapped(c) ==> Licensed(log, |log| - 1, ladder, roster.value.headVersion)
      ensures stopped == Some(Stopped) ==> old(writesLeft) < 2
      ensures old(Signable(log, ladder)) ==> Signable(log, ladder)
      ensures old(Signable(log, ladder) && Passable(ladder, c)) ==> stopped != Some(Refused)
      ensures old(writesLeft) <= writesLeft + 2
    {
      if !PairOwed(ladder, c) { return None; }
      stopped := SetVm(ladder, c, false);
      if stopped.Some? { return; }
      stopped := SetVm(ladder, c, true);
    }

    /** The rotation when it is owed, then the fan-out. */
    method RotateAndFanOut(ladder: LadderId, c: ClientId, failing: set<nat>)
      returns (stopped: Option<Outcome>, failed: set<nat>)
      requires Valid() && (Wrapped(c) ==> Licensed(log, |log| - 1, ladder, roster.value.headVersion))
      modifies this`roster, this`collections, this`writesLeft
      ensures Valid() && collections.Keys == old(collections).Keys
      ensures stopped.None? ==> FannedOut(failed, failing, c in Head(log).clients)
      ensures c !in Head(log).clients ==> collections == old(collections)
      ensures KeptOrMoved(old(collections))
      ensures stopped.None? ==> !Wrapped(c)
      ensures stopped.None? ==> RotatedOff(old(roster), roster, c) && AllMovedOff(c, failed)
      ensures stopped.None? && old(Wrapped(c)) ==> roster.value.appends == old(roster).value.appends + [|log| - 1]
      ensures roster == old(roster) || RotatedOff(old(roster), roster, c)
      ensures stopped == None || (stopped == Some(Stopped) && old(writesLeft) < |old(collections)| + 1)
      ensures old(writesLeft) <= writesLeft + |old(collections)| + 1
    {
      failed := {};
      if roster.None? { return None, {}; }
      if Wrapped(c) {
        stopped := Rotate(ladder, c);
        if stopped.Some? { return; }
      }
      stopped, failed := FanOut(c, failing);
    }

    /** A run's delegation stage may mint an id nobody used. */
    ghost predicate FreshMint(attempt: Retirement.Attempt)
      reads generation
    {
      Unused(generation.log, generation.revoked, attempt.minted)
    }

    /** The ids a run added to the generation's log or its revocations. */
    ghost predicate OnlyMinted(log: Retirement.GenerationLog, revoked: set<Retirement.DelegationId>, minted: Retirement.DelegationId)
      reads generation
    {
      && Retirement.IdsOf(generation.log) <= Retirement.IdsOf(log) + {minted}
      && generation.revoked <= revoked + Retirement.IdsOf(log)
    }

    /** The delegation stage: nothing while no generation is pointed at or its log is
        gone, else the retirement of what the ladder signed, read against the
        document as it stands. */
    method RetireDelegations(ladder: LadderId, c: ClientId, attempt: Retirement.Attempt) returns (halted: bool)
      requires Valid() && ladder in Head(log).ladderVms && FreshMint(attempt)
      modifies this`retiredAt, generation
      ensures Valid() && old(generation.revoked) <= generation.revoked && old(generation.log) <= generation.log
      ensures OnlyMinted(old(generation.log), old(generation.revoked), attempt.minted)
      ensures !halted ==> DelegationsRetired(ladder)
      ensures (!halted && Head(log).pointer.Some? && old(generation.log) != [] && attempt.writer == Retirement.Committed
               && Head(log).clients <= {c}) ==> LadderDelegated(attempt.now)
      ensures (generation.log == []) == old(generation.log == [])
      ensures old(generation.Live()) && attempt.writer != Retirement.Uncommitted ==> generation.Live()
      ensures Retirement.Unhindered(attempt) ==> !halted
      ensures halted ==> retiredAt == old(retiredAt)
    {
      if Head(log).pointer.None? || generation.log == [] {
        retiredAt := Some(attempt.now);
        return false;
      }
      ghost var before := generation.log;
      var report := generation.RetireLadderGenerationDelegations(LadderVm(ladder), ClientVm(c), DocumentKeys(Head(log)), attempt);
      Retirement.IdsAfter(before, generation.log, attempt.minted);
      if report.Halted? { return true; }
      retiredAt := Some(attempt.now);
      return false;
    }

    /** The removal entry, when the run gets to write it. */
    method Remove(ladder: LadderId, c: ClientId, vouched: set<Hash>, derived: set<Hash>)
      returns (stopped: Option<Outcome>)
      requires Valid() && ladder in bound && Head(log).clients <= {c} && ladder in Head(log).ladderVms
      requires RemovesOneClient(log, ladder, c, vouched) && Present(log, c)
      modifies this`log, this`writesLeft
      ensures Valid() && RemovesOneClient(log, ladder, c, vouched)
      ensures stopped.Some? ==> log == old(log) && (stopped == Some(Refused) || stopped == Some(Stopped))
      ensures stopped.None? ==>
                && !Present(log, c) && Head(log).ladderVms == old(Head(log)).ladderVms && Head(log).clients == {}
                && |log| == |old(log)| + 1 && old(log) <= log && Head(log).pointer == old(Head(log)).pointer
      ensures old(Signable(log, ladder)) ==> stopped != Some(Refused)
      ensures stopped == Some(Stopped) ==> old(writesLeft) < 1
    {
      var plan := PlanFor(ForgetLast(ladder, c, vouched, derived), log);
      if !Signable(log, ladder) {
        UnsignableRefused(log, ladder, c, vouched, derived);
        return Some(Refused);
      }
      RemovalLands(log, bound, ladder, c, vouched, derived);
      var lands := Write();
      if !lands { return Some(Stopped); }
      log := log + [plan.entry];
      return None;
    }

    /** The record, and last the removal entry. */
    method RebindAndRemove(ladder: LadderId, c: ClientId, vouched: set<Hash>, derived: set<Hash>)
      returns (stopped: Option<Outcome>)
      requires Valid() && ladder in bound && Head(log).clients <= {c} && ladder in Head(log).ladderVms
      requires RemovesOneClient(log, ladder, c, vouched) && Present(log, c)
      modifies this`log, this`recordRebound, this`writesLeft
      ensures Valid() && RemovesOneClient(log, ladder, c, vouched)
      ensures stopped.Some? ==> log == old(log) && (stopped == Some(Refused) || stopped == Some(Stopped))
      ensures stopped.None? ==>
                && !Present(log, c) && Head(log).ladderVms == old(Head(log)).ladderVms && Head(log).clients == {}
                && recordRebound && |log| == |old(log)| + 1 && old(log) <= log && Head(log).pointer == old(Head(log)).pointer
      ensures old(Signable(log, ladder)) ==> stopped != Some(Refused)
      ensures stopped == Some(Stopped) ==> old(writesLeft) < 2
    {
      var lands := Write();
      if !lands { return Some(Stopped); }
      recordRebound := true;
      stopped := Remove(ladder, c, vouched, derived);
    }

    /** The half of the transition before the delegations: the pair, the rotation and
        the fan-out. */
    method RotateOff(ladder: LadderId, c: ClientId, failing: set<nat>)
      returns (stopped: Option<Outcome>, failed: set<nat>)
      requires Valid() && ladder in bound && Head(log).clients <= {c}
      modifies this`log, this`roster, this`collections, this`writesLeft
      ensures Valid() && Head(log).clients == old(Head(log)).clients
      ensures stopped.None? ==> FannedOut(failed, failing, c in Head(log).clients)
      ensures Head(log).clients == {} ==> collections == old(collections)
      ensures forall vouched :: old(RemovesOneClient(log, ladder, c, vouched)) ==> RemovesOneClient(log, ladder, c, vouched)
      ensures !old(PairOwed(ladder, c)) ==> log == old(log)
      ensures old(Head(log)).clients == {} ==> log == old(log) && roster == old(roster)
      ensures old(Head(log)).clients == {} && old(PairOwed(ladder, c)) ==>
                stopped == Some(Refused) && collections == old(collections) && writesLeft == old(writesLeft)
      ensures stopped.Some? ==> stopped == Some(Refused) || stopped == Some(Stopped)
      ensures stopped.None? ==> Head(log).ladderVms == old(Head(log)).ladderVms + {ladder} && !Wrapped(c)
      ensures stopped.None? ==> RotatedOff(old(roster), roster, c) && AllMovedOff(c, failed)
      ensures roster == old(roster) || RotatedOff(old(roster), roster, c)
      ensures stopped.None? && old(Wrapped(c)) ==> AppendedAtReinstall(ladder)
      ensures old(Signable(log, ladder)) ==> Signable(log, ladder)
      ensures old(Signable(log, ladder) && Passable(ladder, c)) ==> stopped != Some(Refused)
      ensures collections.Keys == old(collections).Keys && KeptOrMoved(old(collections))
      ensures stopped == Some(Stopped) ==> old(writesLeft) < |old(collections)| + 3
      ensures old(writesLeft) <= writesLeft + |old(collections)| + 3
    {
      failed := {};
      stopped := StrikeAndReinstall(ladder, c);
      if stopped.Some? { return; }
      stopped, failed := RotateAndFanOut(ladder, c, failing);
    }

    /** The other half: the delegations, the record and the removal entry. */
    method RetireAndRemove(ladder: LadderId, c: ClientId, vouched: set<Hash>, derived: set<Hash>,
                           retirement: Retirement.Attempt) returns (stopped: Option<Outcome>)
      requires Valid() && ladder in bound && Head(log).clients <= {c} && ladder in Head(log).ladderVms
      requires RemovesOneClient(log, ladder, c, vouched) && Present(log, c) && FreshMint(retirement)
      modifies this`log, this`retiredAt, this`recordRebound, this`writesLeft, generation
      ensures Valid() && RemovesOneClient(log, ladder, c, vouched)
      ensures stopped.Some? ==> log == old(log) && (stopped == Some(Refused) || stopped == Some(Stopped))
      ensures stopped.None? ==>
                && !Present(log, c) && Head(log).ladderVms == old(Head(log)).ladderVms && Head(log).clients == {}
                && recordRebound && DelegationsRetired(ladder) && |log| == |old(log)| + 1 && old(log) <= log
      ensures old(Signable(log, ladder)) ==> stopped != Some(Refused)
      ensures stopped == Some(Stopped) ==> !Retirement.Unhindered(retirement) || old(writesLeft) < 2
      ensures (stopped.None? && Head(log).pointer.Some? && generation.log != [] && retirement.writer == Retirement.Committed) ==>
                LadderDelegated(retirement.now)
      ensures old(generation.Live()) && retirement.writer != Retirement.Uncommitted ==> generation.Live()
      ensures OnlyMinted(old(generation.log), old(generation.revoked), retirement.minted)
    {
      var halted := RetireDelegations(ladder, c, retirement);
      if halted { return Some(Stopped); }
      stopped := RebindAndRemove(ladder, c, vouched, derived);
    }

    /** The stages, run while the client stands alone. */
    method Transition(ladder: LadderId, c: ClientId, vouched: set<Hash>, derived: set<Hash>, failing: set<nat>,
                      retirement: Retirement.Attempt) returns (outcome: Outcome)
      requires Valid() && ladder in bound && RemovesOneClient(log, ladder, c, vouched)
      requires Head(log).clients <= {c} && Present(log, c)
      requires FreshMint(retirement)
      modifies this`log, this`roster, this`collections, this`retiredAt, this`recordRebound, this`writesLeft, generation
      ensures Valid() && RemovesOneClient(log, ladder, c, vouched)
      ensures outcome == Refused || outcome == Stopped || outcome.Completed?
      ensures outcome.Completed? ==> FannedOut(outcome.failed, failing, c in old(Head(log)).clients)
      ensures old(Head(log)).clients == {} ==> collections == old(collections)
      ensures outcome.Completed? ==> Forgotten(ladder, c)
      ensures !outcome.Completed? ==> Head(log).clients == old(Head(log)).clients && Present(log, c)
      ensures !outcome.Completed? && old(Head(log)).clients == {} ==> log == old(log)
      ensures old(Head(log)).clients == {} && old(PairOwed(ladder, c)) ==>
                && outcome == Refused && log == old(log) && roster == old(roster) && collections == old(collections)
                && recordRebound == old(recordRebound) && writesLeft == old(writesLeft)
                && generation.log == old(generation.log) && generation.revoked == old(generation.revoked)
      ensures outcome.Completed? ==> Head(log).ladderVms == old(Head(log)).ladderVms + {ladder}
      ensures outcome.Completed? ==> RotatedOff(old(roster), roster, c) && AllMovedOff(c, outcome.failed)
      ensures roster == old(roster) || RotatedOff(old(roster), roster, c)
      ensures outcome.Completed? && old(Wrapped(c)) ==> AppendedAtReinstall(ladder)
      ensures (outcome.Completed? && Head(log).pointer.Some? && generation.log != []
               && retirement.writer == Retirement.Committed) ==> LadderDelegated(retirement.now)
      ensures (old(Signable(log, ladder) && Passable(ladder, c)) && Retirement.Unhindered(retirement)
               && |old(collections)| + 5 <= old(writesLeft)) ==> outcome.Completed?
      ensures old(Signable(log, ladder)) && !outcome.Completed? ==> Signable(log, ladder)
      ensures collections.Keys == old(collections).Keys && KeptOrMoved(old(collections))
      ensures old(generation.Live()) && retirement.writer != Retirement.Uncommitted ==> generation.Live()
      ensures OnlyMinted(old(generation.log), old(generation.revoked), retirement.minted)
    {
      var stopped, failed := RotateOff(ladder, c, failing);
      if stopped.None? { stopped := RetireAndRemove(ladder, c, vouched, derived, retirement); }
      outcome := if stopped.Some? then stopped.value else Completed(failed);
    }

    /** The whole ceremony. However early it stops, it keeps the account's
        invariant, no append it makes shares a version with an earlier one, the
        license refuses none of them, and the client is out only after the
        roster, the delegations and the record are done. Given enough writes, a
        ladder that can sign and a delegation stage nothing hinders, it ends in
        the one final state -- from a client enrolled alone, and from one whose
        hash lingers in a document that enrolls no client exactly while the pair
        is not owed: owed there, it is refused with nothing written. */
    method ForgetLastEnrolledClient(ladder: LadderId, c: ClientId, vouched: set<Hash>, derived: set<Hash>,
                                    failing: set<nat>, retirement: Retirement.Attempt) returns (outcome: Outcome)
      requires Valid() && ladder in bound && RemovesOneClient(log, ladder, c, vouched) && FreshMint(retirement)
      modifies this, generation
      ensures bound == old(bound) && Valid() && RemovesOneClient(log, ladder, c, vouched)
      ensures old(Transitioning(ladder, c, vouched)) ==> Transitioning(ladder, c, vouched)
      ensures outcome != LicenseRefused
      ensures outcome == AlreadyRemoved <==> !old(Present(log, c))
      ensures outcome == AnotherClientRemains <==> old(Present(log, c) && !(Head(log).clients <= {c}))
      ensures outcome == AlreadyRemoved || outcome == AnotherClientRemains ==>
                && log == old(log) && roster == old(roster) && collections == old(collections)
                && recordRebound == old(recordRebound) && retiredAt == old(retiredAt) && writesLeft == old(writesLeft)
                && generation.log == old(generation.log) && generation.revoked == old(generation.revoked)
      ensures outcome.Completed? ==> Forgotten(ladder, c) && FannedOut(outcome.failed, failing, c in old(Head(log)).clients)
      ensures old(Head(log)).clients == {} ==> collections == old(collections)
      ensures old(Head(log)).clients == {} && old(Present(log, c)) && old(PairOwed(ladder, c)) ==>
                && outcome == Refused && log == old(log) && roster == old(roster) && collections == old(collections)
                && recordRebound == old(recordRebound) && writesLeft == old(writesLeft)
                && generation.log == old(generation.log) && generation.revoked == old(generation.revoked)
      ensures old(Present(log, c)) && !outcome.Completed? ==>
                Head(log).clients == old(Head(log)).clients && (Head(log).clients == {} ==> log == old(log))
      ensures outcome.Completed? ==> Head(log).ladderVms == old(Head(log)).ladderVms + {ladder}
      ensures outcome.Completed? ==> RotatedOff(old(roster), roster, c) && AllMovedOff(c, outcome.failed)
      ensures roster == old(roster) || RotatedOff(old(roster), roster, c)
      ensures outcome.Completed? && old(Wrapped(c)) ==> AppendedAtReinstall(ladder)
      ensures (outcome.Completed? && Head(log).pointer.Some? && generation.log != []
               && retirement.writer == Retirement.Committed) ==> LadderDelegated(retirement.now)
      ensures (old(Transitioning(ladder, c, vouched) && Present(log, c) && Signable(log, ladder) && Passable(ladder, c))
               && Retirement.Unhindered(retirement) && |old(collections)| + 5 <= old(writesLeft)) ==> outcome.Completed?
      ensures old(Signable(log, ladder)) && !outcome.Completed? ==> Signable(log, ladder)
      ensures collections.Keys == old(collections).Keys && KeptOrMoved(old(collections))
      ensures old(generation.Live()) && retirement.writer != Retirement.Uncommitted ==> generation.Live()
      ensures OnlyMinted(old(generation.log), old(generation.revoked), retirement.minted)
    {
      if !Present(log, c) { return AlreadyRemoved; }
      if Head(log).clients != {} && Head(log).clients != {c} { return AnotherClientRemains; }
      outcome := Transition(ladder, c, vouched, derived, failing, retirement);
    }

    /** A state from which runs, however torn, lead to the one final state. */
    ghost predicate Converging(ladder: LadderId, c: ClientId, vouched: set<Hash>)
      reads this`log, this`bound, this`roster, this`recordRebound, this`retiredAt, generation
    {
      && Transitioning(ladder, c, vouched)
      && (Forgotten(ladder, c) || (Signable(log, ladder) && Passable(ladder, c)))
    }

    /** One run of the ceremony with its luck, and what it reports failed if it gets
        through. */
    method RunWith(ladder: LadderId, c: ClientId, vouched: set<Hash>, derived: set<Hash>, attempt: Attempt)
      returns (failed: set<nat>)
      requires Converging(ladder, c, vouched) && FreshMint(attempt.retirement)
      modifies this, generation
      ensures bound == old(bound) && Converging(ladder, c, vouched) && collections.Keys == old(collections).Keys
      ensures Retirement.Unhindered(attempt.retirement) && |old(collections)| + 5 <= attempt.writes ==> Forgotten(ladder, c)
      ensures old(generation.Live()) && attempt.retirement.writer != Retirement.Uncommitted ==> generation.Live()
      ensures OnlyMinted(old(generation.log), old(generation.revoked), attempt.retirement.minted)
      ensures roster == old(roster) || RotatedOff(old(roster), roster, c)
      ensures old(Forgotten(ladder, c)) ==> Forgotten(ladder, c) && roster == old(roster) && collections == old(collections)
      ensures old(!Forgotten(ladder, c)) && Forgotten(ladder, c) ==> AllMovedOff(c, failed)
      ensures !Forgotten(ladder, c) ==> Head(log).clients == old(Head(log)).clients
      ensures old(Head(log)).clients == {c} || old(Forgotten(ladder, c)) ==> failed <= attempt.failing
    {
      writesLeft := attempt.writes;
      var outcome := ForgetLastEnrolledClient(ladder, c, vouched, derived, attempt.failing, attempt.retirement);
      failed := if outcome.Completed? then outcome.failed else {};
    }

    /** Any number of runs, each stopping where its writes run out or a stage
        refuses it, followed by one that nothing stops: the client is forgotten,
        every delegation its ladder signed has ended but the one embedded, all the
        appends made along the way carry different versions, one rotation landed over
        all of them if it was owed, and every collection but those the run that got
        through reported is under an epoch later than any the client was wrapped in. */
    method RerunUntilForgotten(ladder: LadderId, c: ClientId, vouched: set<Hash>, derived: set<Hash>, torn: seq<Attempt>,
                               last: Retirement.Attempt) returns (reported: set<nat>)
      requires Converging(ladder, c, vouched)
      requires LaterUnused(torn, 0, generation.log, generation.revoked) && MintsDiffer(torn, last)
      requires FreshMint(last) && Retirement.Unhindered(last)
      modifies this, generation
      ensures Forgotten(ladder, c) && Valid() && (roster.Some? ==> Increasing(roster.value.appends))
      ensures (old(generation.Live()) && AllCommitted(torn) && last.writer != Retirement.Uncommitted) ==> generation.Live()
      ensures RotatedOff(old(roster), roster, c) && collections.Keys == old(collections).Keys
      ensures old(!Forgotten(ladder, c)) ==> AllMovedOff(c, reported)
      ensures old(Head(log)).clients == {c} ==> forall k :: k in reported ==> exists n :: 0 <= n < |torn| && k in torn[n].failing
    {
      reported := {};
      for n := 0 to |torn|
        invariant Converging(ladder, c, vouched) && collections.Keys == old(collections).Keys
        invariant LaterUnused(torn, n, generation.log, generation.revoked) && FreshMint(last)
        invariant old(generation.Live()) && AllCommitted(torn) ==> generation.Live()
        invariant roster == old(roster) || RotatedOff(old(roster), roster, c)
        invariant old(!Forgotten(ladder, c)) && Forgotten(ladder, c) ==> AllMovedOff(c, reported)
        invariant Forgotten(ladder, c) || Head(log).clients == old(Head(log)).clients
        invariant old(Head(log)).clients == {c} ==> forall k :: k in reported ==> exists m :: 0 <= m < n && k in torn[m].failing
      {
        ghost var was, wasRevoked := generation.log, generation.revoked;
        var failed := RunWith(ladder, c, vouched, derived, torn[n]);
        LaterStillUnused(torn, last, n, was, wasRevoked, generation.log, generation.revoked);
        reported := reported + failed;
      }
      var failed := RunWith(ladder, c, vouched, derived, Attempt(|collections| + 5, {}, last));
      reported := reported + failed;
    }
  }
}
