/** A generation's own log: the entries that enroll a visit, renew the delegation,
    strike a credential or commit one, the swap's restated genesis, and who can
    write the pointed generation after any run of them. */
module AnnexLog {
  import opened Seqs

  /** A credential holds one static annex rung, so its key and hash name it. */
  type Credential = nat
  type VisitKey = nat
  type DelegationId = nat

  datatype Hash = HashOf(credential: Credential)

  datatype Entry = Entry(
    signer: Credential,
    updateKeys: seq<Credential>,
    nextKeyHashes: seq<Hash>,
    methods: seq<VisitKey>,
    delegation: Option<DelegationId>)

  type Log = s: seq<Entry> | 0 < |s| witness [Entry(0, [0], [HashOf(0)], [], None)]

  function Head(log: Log): Entry { log[|log| - 1] }

  ghost predicate Accepts(previous: Entry, e: Entry) {
    && e.signer in e.updateKeys
    && forall k :: k in e.updateKeys ==> HashOf(k) in previous.nextKeyHashes
  }

  /** A log every reader verifies. */
  ghost predicate Verifies(log: Log) {
    && log[0].signer in log[0].updateKeys
    && forall i :: 0 < i < |log| ==> Accepts(log[i - 1], log[i])
  }

  /** `assertCarryOverCommitments`. */
  predicate CarriesOver(e: Entry) {
    forall k :: k in e.updateKeys ==> HashOf(k) in e.nextKeyHashes
  }

  predicate RungAdmitted(c: Credential, updateKeys: seq<Credential>, nextKeyHashes: seq<Hash>) {
    c in updateKeys || HashOf(c) in nextKeyHashes
  }

  function HashesOf(keys: seq<Credential>): (r: seq<Hash>)
    ensures |r| == |keys|
    ensures forall i :: 0 <= i < |keys| ==> r[i] == HashOf(keys[i])
  {
    seq(|keys|, i requires 0 <= i < |keys| => HashOf(keys[i]))
  }

  /** `standingRungHashesOf`: the committed hashes, then the revealed keys'. */
  function StandingRungHashesOf(e: Entry): seq<Hash> {
    Dedup(e.nextKeyHashes + HashesOf(e.updateKeys))
  }

  predicate Stands(c: Credential, e: Entry) {
    HashOf(c) in StandingRungHashesOf(e)
  }

  /** The standing set is exactly the credentials the admission lets write. */
  lemma StandingIsAdmission(c: Credential, e: Entry)
    ensures Stands(c, e) <==> RungAdmitted(c, e.updateKeys, e.nextKeyHashes)
    ensures CarriesOver(e) ==> (Stands(c, e) <==> HashOf(c) in e.nextKeyHashes)
  {
    var hashes := HashesOf(e.updateKeys);
    if c in e.updateKeys {
      var i :| 0 <= i < |e.updateKeys| && e.updateKeys[i] == c;
      assert hashes[i] in hashes;
    }
    if HashOf(c) in hashes {
      var i :| 0 <= i < |hashes| && hashes[i] == HashOf(c);
      assert e.updateKeys[i] in e.updateKeys;
    }
  }

  // ---- The entries

  datatype Ceremony =
    | Enroll(acting: Credential, visit: VisitKey, services: Option<DelegationId>, minted: Option<DelegationId>)
    | Renew(acting: Credential, standingStale: bool, replacement: DelegationId)
    | Strike(acting: Credential, retired: Credential)
    | Commit(acting: Credential, bound: Credential)

  datatype Plan = Unchanged | RungUncommitted | CarryOverBroken | Publish(entry: Entry)

  /** The admission and the carry-over check every entry passes before it is built
      on `keys` and `hashes`. */
  function PlanAs(acting: Credential, head: Entry, keys: seq<Credential>, hashes: seq<Hash>, e: Entry): Plan {
    if !RungAdmitted(acting, keys, hashes) then RungUncommitted
    else if !CarriesOver(head) then CarryOverBroken
    else Publish(e.(signer := acting, updateKeys := Dedup(keys + [acting])))
  }

  function PlanFor(cer: Ceremony, head: Entry): Plan {
    match cer
    case Enroll(acting, visit, services, minted) =>
      if visit in head.methods then Unchanged
      else
        var installed :=
          if services.Some? then services
          else if minted.Some? && head.methods == [] && head.delegation.None? then minted
          else head.delegation;
        PlanAs(acting, head, head.updateKeys, head.nextKeyHashes,
               head.(methods := head.methods + [visit], delegation := installed))
    case Renew(acting, standingStale, replacement) =>
      if head.delegation.Some? && !standingStale then Unchanged
      else PlanAs(acting, head, head.updateKeys, head.nextKeyHashes, head.(delegation := Some(replacement)))
    case Strike(acting, retired) =>
      var keys, hashes := Without(head.updateKeys, {retired}), Without(head.nextKeyHashes, {HashOf(retired)});
      if |keys| == |head.updateKeys| && |hashes| == |head.nextKeyHashes| then Unchanged
      else PlanAs(acting, head, keys, hashes, head.(nextKeyHashes := hashes))
    case Commit(acting, bound) =>
      if RungAdmitted(bound, head.updateKeys, head.nextKeyHashes) then Unchanged
      else PlanAs(acting, head, head.updateKeys, head.nextKeyHashes,
                  head.(nextKeyHashes := head.nextKeyHashes + [HashOf(bound)]))
  }

  /** Every entry any ceremony publishes extends its log -- prerotation holds
      against the head -- and the next one can be published on it in turn. */
  lemma EveryEntryExtends(cer: Ceremony, head: Entry)
    requires PlanFor(cer, head).Publish?
    ensures Accepts(head, PlanFor(cer, head).entry) && CarriesOver(PlanFor(cer, head).entry)
  {
    assert CarriesOver(head);
  }

  /** An entry is refused exactly when its writer is not standing -- for a strike,
      not standing apart from the credential it retires -- or the head breaks the
      carry-over convention. */
  lemma RefusedIffNotStanding(cer: Ceremony, head: Entry)
    requires !PlanFor(cer, head).Unchanged?
    ensures PlanFor(cer, head).RungUncommitted? <==>
            !Stands(cer.acting, head) || (cer.Strike? && cer.acting == cer.retired)
    ensures CarriesOver(head) ==> !PlanFor(cer, head).CarryOverBroken?
  {
    StandingIsAdmission(cer.acting, head);
  }

  /** Who stands after an entry: as before, but for the retired and the bound. */
  lemma StandingAfterEntry(cer: Ceremony, head: Entry, c: Credential)
    requires PlanFor(cer, head).Publish?
    ensures Stands(c, PlanFor(cer, head).entry) <==>
            (Stands(c, head) && !(cer.Strike? && c == cer.retired)) || (cer.Commit? && c == cer.bound)
  {
    EveryEntryExtends(cer, head);
    StandingIsAdmission(c, head);
    StandingIsAdmission(c, PlanFor(cer, head).entry);
    assert CarriesOver(head);
  }

  /** A ceremony's end state. */
  predicate Done(cer: Ceremony, head: Entry) {
    match cer
    case Enroll(_, visit, _, _) => visit in head.methods
    case Renew(_, standingStale, _) => head.delegation.Some? && !standingStale
    case Strike(_, retired) => !Stands(retired, head)
    case Commit(_, bound) => Stands(bound, head)
  }

  /** A ceremony has nothing to do exactly when its end state stands. */
  lemma UnchangedIffDone(cer: Ceremony, head: Entry)
    ensures PlanFor(cer, head).Unchanged? <==> Done(cer, head)
  {
    match cer
    case Strike(_, retired) =>
      WithoutLength(head.updateKeys, {retired});
      WithoutLength(head.nextKeyHashes, {HashOf(retired)});
      StandingIsAdmission(retired, head);
    case Commit(_, bound) => StandingIsAdmission(bound, head);
    case _ =>
  }

  /** The keys and hashes of an entry: those that stood, less a struck credential's,
      plus the writer's key and a bound credential's hash. */
  lemma KeysAfterEntry(cer: Ceremony, head: Entry, c: Credential)
    requires PlanFor(cer, head).Publish?
    ensures var e := PlanFor(cer, head).entry;
            && e.signer == cer.acting
            && (c in e.updateKeys <==> c == cer.acting || (c in head.updateKeys && !(cer.Strike? && c == cer.retired)))
            && (HashOf(c) in e.nextKeyHashes <==>
                  (HashOf(c) in head.nextKeyHashes && !(cer.Strike? && c == cer.retired)) || (cer.Commit? && c == cer.bound))
  {
  }

  /** The document of an entry: an enrollment adds its visit, last; a renewal embeds
      its replacement; only an enrollment with services changes a standing delegation
      besides, and only one that mints for a generation with no visit and no
      delegation brings the first. */
  lemma DocumentAfterEntry(cer: Ceremony, head: Entry)
    requires PlanFor(cer, head).Publish?
    ensures var e := PlanFor(cer, head).entry;
            && e.methods == (if cer.Enroll? then head.methods + [cer.visit] else head.methods)
            && (cer.Renew? ==> e.delegation == Some(cer.replacement))
            && (cer.Enroll? && cer.services.Some? ==> e.delegation == cer.services)
            && (cer.Enroll? && cer.services.None? ==>
                  e.delegation == if head.methods == [] && head.delegation.None? then cer.minted else head.delegation)
            && (cer.Strike? || cer.Commit? ==> e.delegation == head.delegation)
  {
  }

  /** A strike is signed by another credential than the one it retires, and leaves
      no trace of that one. */
  lemma StrikeEndsTheRetired(acting: Credential, retired: Credential, head: Entry)
    requires PlanFor(Strike(acting, retired), head).Publish?
    ensures var e := PlanFor(Strike(acting, retired), head).entry;
            && e.signer != retired && retired !in e.updateKeys && HashOf(retired) !in e.nextKeyHashes
            && Stands(acting, e) && !Stands(retired, e)
  {
    EveryEntryExtends(Strike(acting, retired), head);
    StandingAfterEntry(Strike(acting, retired), head, retired);
    StandingAfterEntry(Strike(acting, retired), head, acting);
    StandingIsAdmission(acting, head);
  }

  /** A generation that lists a visit carries a delegation for it to act under. */
  predicate Delegated(e: Entry) {
    e.methods != [] ==> e.delegation.Some?
  }

  /** An enrollment brings the services to install, or can mint the delegation. */
  predicate Mints(cer: Ceremony) {
    cer.Enroll? ==> cer.services.Some? || cer.minted.Some?
  }

  /** The delegation an enrollment mints is published with the generation's first
      method and at no later one, so no visit stands without one; and no entry takes
      it away. */
  lemma DelegationWithFirstMethod(cer: Ceremony, head: Entry)
    requires PlanFor(cer, head).Publish?
    ensures var e := PlanFor(cer, head).entry;
            && (Delegated(head) && Mints(cer) ==> Delegated(e))
            && (head.delegation.Some? ==> e.delegation.Some?)
            && (cer.Enroll? && cer.services == None && e.delegation != head.delegation ==>
                  head.methods == [] && e.methods == [cer.visit] && head.delegation == None && e.delegation == cer.minted)
  {
  }

  // ---- The swap's genesis

  /** The credentials a swap ends: named ones, or an unnamed one. */
  datatype Retired = Named(credentials: set<Credential>) | Unnamed

  datatype SwapError = MinterRetired

  /** `restatedRungHashes`; `published` is the superseded log's head, if it has one. */
  function RestatedRungHashes(published: Option<Entry>, minter: Credential, retired: Retired)
    : Result<seq<Hash>, SwapError>
  {
    if retired.Unnamed? then Success([])
    else if minter in retired.credentials then Failure(MinterRetired)
    else if published.None? then Success([])
    else Success(Without(StandingRungHashesOf(published.value), set c | c in retired.credentials :: HashOf(c)))
  }

  /** The genesis `mintCredentialClientAnnexGeneration` publishes. */
  function Genesis(minter: Credential, standing: seq<Hash>): Entry {
    Entry(minter, [minter], Dedup([HashOf(minter)] + standing), [], None)
  }

  /** A genesis states the minter's key alone and an empty document, is extendable,
      and commits the minter and exactly the restated credentials. */
  lemma GenesisStanding(minter: Credential, standing: seq<Hash>, c: Credential)
    ensures var e := Genesis(minter, standing);
            && e.signer == minter && (c in e.updateKeys <==> c == minter) && CarriesOver(e)
            && e.methods == [] && e.delegation.None?
            && (Stands(c, e) <==> c == minter || HashOf(c) in standing)
  {
    StandingIsAdmission(c, Genesis(minter, standing));
  }

  /** A swap is refused exactly when it names its own minter as retired. */
  lemma RestatingRefusedIff(published: Option<Entry>, minter: Credential, retired: Retired)
    ensures RestatedRungHashes(published, minter, retired).Failure? <==> retired.Named? && minter in retired.credentials
  {
  }

  /** A restated genesis is the superseded standing set, less the retired, plus the
      minter; a retirement that is not named, or a superseded log that is gone,
      keeps the minter alone. */
  lemma RestatedGenesisConserves(published: Option<Entry>, minter: Credential, retired: Retired, c: Credential)
    requires RestatedRungHashes(published, minter, retired).Success?
    ensures var e := Genesis(minter, RestatedRungHashes(published, minter, retired).value);
            && CarriesOver(e)
            && (Stands(c, e) <==>
                c == minter || (retired.Named? && published.Some? && Stands(c, published.value) && c !in retired.credentials))
    ensures retired.Named? ==> minter !in retired.credentials
  {
    var hashes := RestatedRungHashes(published, minter, retired).value;
    GenesisStanding(minter, hashes, c);
    if retired.Named? {
      assert HashOf(c) in (set r | r in retired.credentials :: HashOf(r)) <==> c in retired.credentials;
    }
  }

  // ---- Runs

  /** One event on the pointed generation: an entry, or a swap minted from the head
      it read at `readAt` (none when the superseded log was gone). */
  datatype Event =
    | Published(cer: Ceremony)
    | Swapped(minter: Credential, retired: Retired, readAt: Option<nat>)

  ghost predicate Happens(log: Log, event: Event, log': Log) {
    match event
    case Published(cer) =>
      var plan := PlanFor(cer, Head(log));
      if plan.Publish? then log' == log + [plan.entry] else log' == log
    case Swapped(minter, retired, readAt) =>
      && (readAt.Some? ==> readAt.value < |log|)
      && var published := if readAt.Some? then Some(log[readAt.value]) else None;
         var restated := RestatedRungHashes(published, minter, retired);
         if restated.Success? then log' == [Genesis(minter, restated.value)] else log' == log
  }

  /** The standing set is what it was when the swap read it. */
  ghost predicate ReadCurrent(log: Log, event: Event) {
    event.Swapped? && event.readAt.Some? && event.readAt.value < |log| ==>
      forall c :: Stands(c, log[event.readAt.value]) <==> Stands(c, Head(log))
  }

  /** Whether an event names a credential as bound, retired or minting. */
  predicate Concerns(event: Event, c: Credential) {
    match event
    case Published(cer) => (cer.Strike? && cer.retired == c) || (cer.Commit? && cer.bound == c)
    case Swapped(minter, retired, _) => minter == c || (retired.Named? && c in retired.credentials)
  }

  /** A swap that names what it retires and found the superseded log. */
  predicate Restates(event: Event) {
    event.Swapped? ==> event.retired.Named? && event.readAt.Some?
  }

  ghost predicate History(logs: seq<Log>, events: seq<Event>) {
    && |logs| == |events| + 1
    && (forall i :: 0 <= i < |logs[0]| ==> CarriesOver(logs[0][i]))
    && forall n :: 0 <= n < |events| ==> Happens(logs[n], events[n], logs[n + 1])
  }

  /** One event: the credentials able to write change only by a bind commit, a
      named retirement or the minter joining -- when the swap restates what still
      stands. */
  lemma EventConserves(log: Log, event: Event, log': Log, c: Credential)
    requires Happens(log, event, log') && Restates(event) && ReadCurrent(log, event) && !Concerns(event, c)
    ensures Stands(c, Head(log')) <==> Stands(c, Head(log))
  {
    match event
    case Published(cer) =>
      if PlanFor(cer, Head(log)).Publish? { StandingAfterEntry(cer, Head(log), c); }
    case Swapped(minter, retired, readAt) =>
      if RestatedRungHashes(Some(log[readAt.value]), minter, retired).Success? {
        RestatedGenesisConserves(Some(log[readAt.value]), minter, retired, c);
      }
  }

  /** And what an event names, it settles. */
  lemma EventSettles(log: Log, event: Event, log': Log, c: Credential)
    requires Happens(log, event, log') && log' != log
    ensures event.Published? && event.cer.Strike? && event.cer.retired == c ==> !Stands(c, Head(log'))
    ensures event.Published? && event.cer.Commit? && event.cer.bound == c ==> Stands(c, Head(log'))
    ensures event.Swapped? && event.minter == c ==> Stands(c, Head(log'))
    ensures event.Swapped? && event.retired.Named? && c in event.retired.credentials ==> !Stands(c, Head(log'))
  {
    match event
    case Published(cer) => StandingAfterEntry(cer, Head(log), c);
    case Swapped(minter, retired, readAt) =>
      var published := if readAt.Some? then Some(log[readAt.value]) else None;
      RestatedGenesisConserves(published, minter, retired, c);
  }

  /** Across any run of entries and restating swaps, a credential no event names
      writes at the end exactly if it could at the start. */
  lemma {:induction false} StandingConserved(logs: seq<Log>, events: seq<Event>, c: Credential)
    requires History(logs, events)
    requires forall n :: 0 <= n < |events| ==>
               Restates(events[n]) && ReadCurrent(logs[n], events[n]) && !Concerns(events[n], c)
    ensures Stands(c, Head(logs[|events|])) <==> Stands(c, Head(logs[0]))
    decreases |events|
  {
    if |events| > 0 {
      var n := |events| - 1;
      StandingConserved(logs[..n + 1], events[..n], c);
      EventConserves(logs[n], events[n], logs[n + 1], c);
    }
  }

  /** Every log any run reaches from one that verifies is accepted entry by entry;
      and every entry carries over, so the next one can always be published. */
  lemma {:induction false} AlwaysExtendable(logs: seq<Log>, events: seq<Event>, n: nat)
    requires History(logs, events) && n < |logs|
    ensures forall i :: 0 <= i < |logs[n]| ==> CarriesOver(logs[n][i])
    ensures Verifies(logs[0]) ==> Verifies(logs[n])
    ensures forall cer: Ceremony :: Stands(cer.acting, Head(logs[n])) && !(cer.Strike? && cer.acting == cer.retired) ==>
              PlanFor(cer, Head(logs[n])).Unchanged? || PlanFor(cer, Head(logs[n])).Publish?
  {
    if n > 0 {
      AlwaysExtendable(logs, events, n - 1);
      EventKeepsCarryOver(logs[n - 1], events[n - 1], logs[n]);
      if Verifies(logs[n - 1]) { EventKeepsAcceptance(logs[n - 1], events[n - 1], logs[n]); }
    }
    assert CarriesOver(Head(logs[n]));
    forall cer: Ceremony | Stands(cer.acting, Head(logs[n])) && !(cer.Strike? && cer.acting == cer.retired)
      ensures PlanFor(cer, Head(logs[n])).Unchanged? || PlanFor(cer, Head(logs[n])).Publish?
    {
      if !PlanFor(cer, Head(logs[n])).Unchanged? { RefusedIffNotStanding(cer, Head(logs[n])); }
    }
  }

  lemma EventKeepsCarryOver(log: Log, event: Event, log': Log)
    requires Happens(log, event, log') && forall i :: 0 <= i < |log| ==> CarriesOver(log[i])
    ensures forall i :: 0 <= i < |log'| ==> CarriesOver(log'[i])
  {
    match event
    case Published(cer) =>
      if PlanFor(cer, Head(log)).Publish? { EveryEntryExtends(cer, Head(log)); }
    case Swapped(minter, retired, readAt) =>
      var published := if readAt.Some? then Some(log[readAt.value]) else None;
      if RestatedRungHashes(published, minter, retired).Success? {
        RestatedGenesisConserves(published, minter, retired, minter);
      }
  }

  lemma EventKeepsAcceptance(log: Log, event: Event, log': Log)
    requires Happens(log, event, log') && Verifies(log)
    ensures Verifies(log')
  {
    match event
    case Published(cer) =>
      if PlanFor(cer, Head(log)).Publish? {
        EveryEntryExtends(cer, Head(log));
        forall i | 0 < i < |log'| ensures Accepts(log'[i - 1], log'[i]) {
          if i < |log| { assert log'[i] == log[i] && log'[i - 1] == log[i - 1]; }
        }
      }
    case Swapped(minter, retired, readAt) =>
  }

  /** A commit that lands between a swap's read and its re-point is lost: the swap
      conserves the standing set exactly when what it read still stands. */
  lemma SwapConservesIffReadCurrent(log: Log, minter: Credential, retired: set<Credential>, readAt: nat)
    requires readAt < |log| && minter !in retired
    ensures var swapped := [Genesis(minter, RestatedRungHashes(Some(log[readAt]), minter, Named(retired)).value)];
            (forall c :: c != minter && c !in retired ==> (Stands(c, Head(swapped)) <==> Stands(c, Head(log)))) <==>
            (forall c :: c != minter && c !in retired ==> (Stands(c, log[readAt]) <==> Stands(c, Head(log))))
  {
    var swapped := [Genesis(minter, RestatedRungHashes(Some(log[readAt]), minter, Named(retired)).value)];
    forall c | c != minter && c !in retired ensures Stands(c, Head(swapped)) <==> Stands(c, log[readAt]) {
      RestatedGenesisConserves(Some(log[readAt]), minter, Named(retired), c);
    }
  }

  /** A bind commit landing after the read: the bound credential stands before the
      swap and not after it. */
  lemma LateCommitIsLost(log: Log, acting: Credential, bound: Credential, minter: Credential)
    requires PlanFor(Commit(acting, bound), Head(log)).Publish? && bound != minter
    ensures var longer := log + [PlanFor(Commit(acting, bound), Head(log)).entry];
            var restated := RestatedRungHashes(Some(longer[|log| - 1]), minter, Named({}));
            restated.Success? && Stands(bound, Head(longer)) && !Stands(bound, Genesis(minter, restated.value))
  {
    StandingAfterEntry(Commit(acting, bound), Head(log), bound);
    RestatedGenesisConserves(Some(Head(log)), minter, Named({}), bound);
    StandingIsAdmission(bound, Head(log));
  }
}
