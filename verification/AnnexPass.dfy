/** One collect pass over an annex with no other writer: the cadence it reads off
    the account log, the swap it may make first, and the collections it leaves. */
module AnnexPass {
  import opened Seqs
  import opened AnnexGc

  const GENERATION_GC_PERIOD_MS: int := 90 * 24 * 60 * 60 * 1000

  // ---- The cadence

  /** An account-log entry as the cadence reads it: when it was written, and the
      generation its document points at. */
  datatype Stamp = Stamp(versionTime: int, pointer: Option<nat>)

  /** The entry at which the pointer now standing came to stand. */
  ghost predicate EstablishedAt(log: seq<Stamp>, i: int) {
    && 0 <= i < |log| && log[|log| - 1].pointer.Some?
    && (forall j :: i <= j < |log| ==> log[j].pointer == log[|log| - 1].pointer)
    && (i == 0 || log[i - 1].pointer != log[i].pointer)
  }

  lemma EstablishedOnce(log: seq<Stamp>, i: int, j: int)
    requires EstablishedAt(log, i) && EstablishedAt(log, j)
    ensures i == j
  {
  }

  method DelegatedClientsPointerEstablishedAt(log: seq<Stamp>) returns (at: Option<int>)
    ensures at == None <==> log == [] || log[|log| - 1].pointer == None
    ensures forall i :: EstablishedAt(log, i) ==> at == Some(log[i].versionTime)
    ensures at.Some? ==> exists i :: EstablishedAt(log, i)
  {
    var establishedAt: Option<int> := None;
    var previous: Option<nat> := None;
    ghost var start := 0;
    for n := 0 to |log|
      invariant previous == if n == 0 then None else log[n - 1].pointer
      invariant previous == None ==> establishedAt == None
      invariant previous.Some? ==> EstablishedAt(log[..n], start) && establishedAt == Some(log[start].versionTime)
    {
      var pointed := log[n].pointer;
      if pointed.Some? && pointed != previous {
        establishedAt := Some(log[n].versionTime);
        start := n;
      }
      if pointed.None? {
        establishedAt := None;
      }
      previous := pointed;
    }
    assert log[..|log|] == log;
    at := establishedAt;
    forall i | EstablishedAt(log, i) ensures at == Some(log[i].versionTime) { EstablishedOnce(log, i, start); }
  }

  method ClientAnnexGcDue(log: seq<Stamp>, now: int) returns (due: bool)
    ensures due <==> exists i :: EstablishedAt(log, i) && now - log[i].versionTime >= GENERATION_GC_PERIOD_MS
  {
    var at := DelegatedClientsPointerEstablishedAt(log);
    due := at.Some? && now - at.value >= GENERATION_GC_PERIOD_MS;
  }

  // ---- Collecting

  /** A collection of the Space: a generation, by its id's prefix, or something
      else living there. */
  datatype Name = Gen(id: nat) | Other(id: nat)

  /** What goes wrong while one generation is collected. */
  datatype Fault = NoFault | ReadFails | SettleFails | DigestFails | DeleteFails | NoticeFails

  datatype Outcome = Collected | Deferred | Failed

  /** Whether a pass may delete generation `id`: it has no log, it was pointed at
      once, or it is quiet. */
  predicate Collectable(collections: map<Name, seq<AnnexEntry>>, id: nat, now: int, everPointed: set<nat>) {
    Gen(id) !in collections || collections[Gen(id)] == [] || id in everPointed
    || GenerationQuiet(collections[Gen(id)], now)
  }

  /** The newest entry of generation `id` embeds `d`. */
  predicate EmbeddedBy(collections: map<Name, seq<AnnexEntry>>, id: nat, d: DelegationId) {
    && Gen(id) in collections && 0 < |collections[Gen(id)]|
    && collections[Gen(id)][|collections[Gen(id)]| - 1].delegation == Some(d)
  }

  /** `snapshot` is of the whole of generation `id`'s log. */
  predicate DigestOf(collections: map<Name, seq<AnnexEntry>>, id: nat, snapshot: Snapshot) {
    && Gen(id) in collections && ReadOf(collections[Gen(id)], snapshot)
    && snapshot.count == |collections[Gen(id)]|
  }

  /** What the newest entry of some collectable generation among `stale` embeds. */
  ghost predicate SettledOf(collections: map<Name, seq<AnnexEntry>>, stale: seq<nat>, now: int, everPointed: set<nat>,
                            d: DelegationId) {
    exists id :: id in stale && EmbeddedBy(collections, id, d) && Collectable(collections, id, now, everPointed)
  }

  /** What a pass with no fault leaves of the Space. */
  function Left(collections: map<Name, seq<AnnexEntry>>, current: Option<nat>, now: int, everPointed: set<nat>)
    : map<Name, seq<AnnexEntry>>
  {
    map name | name in collections &&
      (name.Other? || Some(name.id) == current || !Collectable(collections, name.id, now, everPointed))
      :: collections[name]
  }

  lemma LeftIsLeft(collections: map<Name, seq<AnnexEntry>>, current: Option<nat>, now: int, everPointed: set<nat>)
    ensures var left := Left(collections, current, now, everPointed);
            forall id: nat :: Gen(id) in left ==> Some(id) == current || !Collectable(left, id, now, everPointed)
  {
  }

  /** What a pass did about the pointed generation, and where a swap stops. */
  datatype Swap = NoPointer | NotDue | DeferredLive | NoLadderSeed | Replaced | Readmitted | Repaired | SwapFailed

  /** `PointedUnread` tears a swap before any write; a `RePointLost` re-point
      landed though its answer was lost. */
  datatype SwapFault =
    | PointedUnread | CreateFails | GenesisFails | InstallFails | RevokeRefused | RePointFails | RePointLost

  predicate MovesPointer(swap: Swap, fault: Option<SwapFault>) {
    swap.Replaced? || swap.Readmitted? || swap.Repaired? || (swap == SwapFailed && fault == Some(RePointLost))
  }

  predicate TearsMint(fault: Option<SwapFault>) {
    fault.Some? && (fault.value == CreateFails || fault.value == GenesisFails || fault.value == InstallFails)
  }

  predicate RevokesOld(fault: Option<SwapFault>) {
    fault.None? || fault.value == RePointFails || fault.value == RePointLost
  }

  /** The log of the generation a swap minted, if the swap got as far as creating
      its collection. */
  function MintedLog(swap: Swap, fault: Option<SwapFault>, delegation: DelegationId, now: int)
    : Option<seq<AnnexEntry>>
  {
    if MovesPointer(swap, fault) || (swap == SwapFailed && fault == Some(RePointFails)) then
      Some([AnnexEntry(now, None), AnnexEntry(now, Some(delegation))])
    else if swap == SwapFailed && fault == Some(InstallFails) then Some([AnnexEntry(now, None)])
    else if swap == SwapFailed && fault == Some(GenesisFails) then Some([])
    else None
  }

  /** The collections a swap leaves, whichever way it ended. */
  function AfterSwap(collections: map<Name, seq<AnnexEntry>>, minted: nat, log: Option<seq<AnnexEntry>>)
    : map<Name, seq<AnnexEntry>>
  {
    if log.Some? then collections[Gen(minted) := log.value] else collections
  }

  /** A swap torn after its genesis and before its re-point leaves one generation
      no account entry points at. */
  predicate Orphans(swap: Swap, fault: Option<SwapFault>) {
    swap == SwapFailed && (fault == Some(InstallFails) || fault == Some(RePointFails))
  }

  /** What a torn swap leaves may be collected at once if it has no log, and
      otherwise exactly when it is quiet: never in the pass that tore. */
  lemma OrphanCollectableIff(collections: map<Name, seq<AnnexEntry>>, minted: nat, swap: Swap,
                             fault: Option<SwapFault>, delegation: DelegationId, now: int, t: int,
                             everPointed: set<nat>)
    requires minted !in everPointed
    ensures Orphans(swap, fault) ==>
              (Collectable(AfterSwap(collections, minted, MintedLog(swap, fault, delegation, now)), minted, t, everPointed)
               <==> t - now >= QUIET_FOR)
    ensures swap == SwapFailed && fault == Some(GenesisFails) ==>
              Collectable(AfterSwap(collections, minted, MintedLog(swap, fault, delegation, now)), minted, t, everPointed)
  {
  }

  /** The pointed generation may be replaced: it has no log, or a quiet one while
      the swap is due or the minter is not admitted there. */
  predicate SwapReady(collections: map<Name, seq<AnnexEntry>>, pointed: nat, pass: Attempt) {
    var log := if Gen(pointed) in collections then collections[Gen(pointed)] else [];
    log == [] || (GenerationQuiet(log, pass.now) && (pass.due || pass.readmits))
  }

  lemma OrphanIsLeft(collections: map<Name, seq<AnnexEntry>>, pass: Attempt, swap: Swap, pointers: seq<nat>)
    requires pass.minted !in pointers && Orphans(swap, pass.swapFault)
    ensures var swapped := AfterSwap(collections, pass.minted, MintedLog(swap, pass.swapFault, pass.delegation, pass.now));
            forall current :: Gen(pass.minted) in Left(swapped, current, pass.now, SetOf(pointers))
  {
    OrphanCollectableIff(collections, pass.minted, swap, pass.swapFault, pass.delegation, pass.now, pass.now, SetOf(pointers));
  }

  ghost predicate NoFaults(faults: map<nat, Fault>) {
    forall id :: id in faults ==> faults[id] == NoFault
  }

  /** One pass's inputs: what it reads of itself and of the clock, the ids it would
      mint, and where it tears. */
  datatype Attempt = Attempt(due: bool, readmits: bool, ladderSeed: bool, minted: nat, delegation: DelegationId, now: int,
                       swapFault: Option<SwapFault>, faults: map<nat, Fault>)

  ghost predicate FreshMints(passes: seq<Attempt>, collections: map<Name, seq<AnnexEntry>>, pointers: seq<nat>) {
    && (forall k :: 0 <= k < |passes| ==> Gen(passes[k].minted) !in collections && passes[k].minted !in pointers)
    && (forall k, l :: 0 <= k < l < |passes| ==> passes[k].minted != passes[l].minted)
  }

  /** A generation some pass minted, and left as a swap of that pass leaves it. */
  ghost predicate MintedBy(passes: seq<Attempt>, id: nat, log: seq<AnnexEntry>) {
    exists k, swap :: 0 <= k < |passes| && passes[k].minted == id
      && MintedLog(swap, passes[k].swapFault, passes[k].delegation, passes[k].now) == Some(log)
  }

  /** What some passes made of a Space: nothing changed, nothing added but what
      they minted, and nothing gone but generations. */
  ghost predicate Grown(before: map<Name, seq<AnnexEntry>>, after: map<Name, seq<AnnexEntry>>, passes: seq<Attempt>) {
    && (forall name :: name in before && name.Other? ==> name in after)
    && (forall name :: name in after ==>
          if name in before then after[name] == before[name] else name.Gen? && MintedBy(passes, name.id, after[name]))
  }

  lemma GrownMore(before: map<Name, seq<AnnexEntry>>, stood: map<Name, seq<AnnexEntry>>,
                  after: map<Name, seq<AnnexEntry>>, passes: seq<Attempt>, pass: Attempt, swap: Swap)
    requires Grown(before, stood, passes) && Gen(pass.minted) !in before && Gen(pass.minted) !in stood
    requires var swapped := AfterSwap(stood, pass.minted, MintedLog(swap, pass.swapFault, pass.delegation, pass.now));
             && (forall name :: name in after ==> name in swapped && after[name] == swapped[name])
             && (forall name :: name in swapped && name !in after ==> name.Gen?)
    ensures Grown(before, after, passes + [pass])
  {
    forall name | name in after && name !in before ensures name.Gen? && MintedBy(passes + [pass], name.id, after[name]) {
      if name == Gen(pass.minted) {
        MintedByLast(passes, pass, swap, after[name]);
      } else {
        MintedByMore(passes, pass, name.id, after[name]);
      }
    }
  }

  lemma LaterFresh(pass: Attempt, later: seq<Attempt>, stood: map<Name, seq<AnnexEntry>>,
                   after: map<Name, seq<AnnexEntry>>, pointers: seq<nat>, pointers': seq<nat>)
    requires FreshMints([pass] + later, stood, pointers)
    requires after.Keys <= stood.Keys + {Gen(pass.minted)}
    requires pointers' == pointers || pointers' == pointers + [pass.minted]
    ensures FreshMints(later, after, pointers')
  {
    var passes := [pass] + later;
    forall k | 0 <= k < |later| ensures Gen(later[k].minted) !in after && later[k].minted !in pointers' {
      assert passes[k + 1] == later[k] && passes[0].minted != passes[k + 1].minted;
    }
    forall k, l | 0 <= k < l < |later| ensures later[k].minted != later[l].minted {
      assert passes[k + 1] == later[k] && passes[l + 1] == later[l];
    }
  }

  /** By the last pass every generation that stood is collectable, and every torn
      pass is long enough ago for what it minted to be. */
  ghost predicate QuietBy(collections: map<Name, seq<AnnexEntry>>, pointers: seq<nat>, torn: seq<Attempt>, last: Attempt) {
    && (forall id: nat :: Gen(id) in collections ==> Collectable(collections, id, last.now, SetOf(pointers)))
    && (forall k :: 0 <= k < |torn| ==> last.now - torn[k].now >= QUIET_FOR)
  }

  lemma MintedLongAgo(torn: seq<Attempt>, last: Attempt, id: nat, log: seq<AnnexEntry>)
    requires forall k :: 0 <= k < |torn| ==> last.now - torn[k].now >= QUIET_FOR
    ensures MintedBy(torn + [last], id, log) && id != last.minted ==> log == [] || GenerationQuiet(log, last.now)
  {
  }

  lemma MintedByMore(passes: seq<Attempt>, pass: Attempt, id: nat, log: seq<AnnexEntry>)
    requires MintedBy(passes, id, log)
    ensures MintedBy(passes + [pass], id, log)
  {
    var k, swap :| 0 <= k < |passes| && passes[k].minted == id
      && MintedLog(swap, passes[k].swapFault, passes[k].delegation, passes[k].now) == Some(log);
    assert (passes + [pass])[k] == passes[k];
  }

  lemma MintedByLast(passes: seq<Attempt>, pass: Attempt, swap: Swap, log: seq<AnnexEntry>)
    requires MintedLog(swap, pass.swapFault, pass.delegation, pass.now) == Some(log)
    ensures MintedBy(passes + [pass], pass.minted, log)
  {
    assert (passes + [pass])[|passes|] == pass;
  }

  lemma PassesSplit(passes: seq<Attempt>, n: nat)
    requires n < |passes|
    ensures passes[n..] == [passes[n]] + passes[n + 1..] && passes[..n] + [passes[n]] == passes[..n + 1]
  {
  }

  /** The account log's `pointers` at this Space's generations, oldest first, and
      the Space's collections; a generation's log is empty until its genesis. */
  class Annex {
    var pointers: seq<nat>
    var collections: map<Name, seq<AnnexEntry>>
    var settled: set<DelegationId>
    var digests: set<(nat, Snapshot)>

    constructor ()
      ensures pointers == [] && collections == map[] && settled == {} && digests == {}
    {
      pointers, collections, settled, digests := [], map[], {}, {};
    }

    function Current(): Option<nat>
      reads this
    {
      if pointers == [] then None else Some(pointers[|pointers| - 1])
    }

    /** The pointed generation's collection is in the Space. */
    predicate PointedStands()
      reads this
    {
      Current().Some? && Gen(Current().value) in collections
    }

    /** Nothing a pass may have to handle of a generation's log is left undone. */
    ghost predicate Handled(id: nat, log: seq<AnnexEntry>)
      reads this
    {
      0 < |log| ==>
        && (id, SnapshotOf(log)) in digests
        && (SnapshotOf(log).delegation.Some? ==> SnapshotOf(log).delegation.value in settled)
    }

    method CollectOneGeneration(id: nat, now: int, everPointed: set<nat>, fault: Fault) returns (outcome: Outcome)
      modifies this`collections, this`settled, this`digests
      ensures old(settled) <= settled && old(digests) <= digests
      ensures collections == old(collections) || collections == old(collections) - {Gen(id)}
      ensures outcome == Collected ==> Gen(id) !in collections
      ensures outcome == Deferred ==>
                && collections == old(collections) && settled == old(settled) && digests == old(digests)
                && !Collectable(collections, id, now, everPointed)
      ensures outcome == Failed ==> fault != NoFault
      ensures fault == NoFault ==> (outcome == Collected <==> Collectable(old(collections), id, now, everPointed))
      ensures collections != old(collections) ==>
                Collectable(old(collections), id, now, everPointed) && Handled(id, old(collections)[Gen(id)])
      ensures forall d :: d in settled && d !in old(settled) ==>
                EmbeddedBy(old(collections), id, d) && Collectable(old(collections), id, now, everPointed)
      ensures forall i: nat, snapshot :: (i, snapshot) in digests && (i, snapshot) !in old(digests) ==>
                i == id && DigestOf(old(collections), id, snapshot) && Collectable(old(collections), id, now, everPointed)
    {
      if fault == ReadFails { return Failed; }
      var published := if Gen(id) in collections then collections[Gen(id)] else [];
      if 0 < |published| {
        if id !in everPointed && !GenerationQuiet(published, now) { return Deferred; }
        var oldDelegation := published[|published| - 1].delegation;
        if oldDelegation.Some? {
          if fault == SettleFails { return Failed; }
          settled := settled + {oldDelegation.value};
        }
        if fault == DigestFails { return Failed; }
        digests := digests + {(id, SnapshotOf(published))};
      }
      if fault == DeleteFails { return Failed; }
      collections := collections - {Gen(id)};
      if fault == NoticeFails { return Failed; }
      return Collected;
    }

    /** The stale generations the listing shows, page by page. */
    method ListStale(pages: seq<seq<Name>>, current: Option<nat>) returns (stale: seq<nat>)
      ensures forall id :: id in stale <==> (exists p :: 0 <= p < |pages| && Gen(id) in pages[p]) && Some(id) != current
    {
      stale := [];
      for p := 0 to |pages|
        invariant forall id :: id in stale <==> (exists q :: 0 <= q < p && Gen(id) in pages[q]) && Some(id) != current
      {
        var page := pages[p];
        ghost var before := stale;
        for n := 0 to |page|
          invariant forall id :: id in stale <==> id in before || (Gen(id) in page[..n] && Some(id) != current)
        {
          if page[n].Gen? && Some(page[n].id) != current {
            stale := stale + [page[n].id];
          }
        }
        assert page[..|page|] == page;
      }
    }

    /** Whatever was settled or digested since is of a collectable stale generation. */
    ghost predicate OnlyStale(was: map<Name, seq<AnnexEntry>>, wasSettled: set<DelegationId>, wasDigests: set<(nat, Snapshot)>,
                              stale: seq<nat>, now: int, everPointed: set<nat>)
      reads this`settled, this`digests
    {
      && (forall d :: d in settled && d !in wasSettled ==> SettledOf(was, stale, now, everPointed, d))
      && forall i: nat, snapshot :: (i, snapshot) in digests && (i, snapshot) !in wasDigests ==>
           i in stale && DigestOf(was, i, snapshot) && Collectable(was, i, now, everPointed)
    }

    lemma OneMoreStale(was: map<Name, seq<AnnexEntry>>, wasSettled: set<DelegationId>, wasDigests: set<(nat, Snapshot)>,
                       stale: seq<nat>, n: nat, now: int, everPointed: set<nat>,
                       stood: map<Name, seq<AnnexEntry>>, settledThen: set<DelegationId>, digestsThen: set<(nat, Snapshot)>)
      requires n < |stale|
      requires forall name :: name in stood ==> name in was && stood[name] == was[name]
      requires forall d :: d in settledThen && d !in wasSettled ==> SettledOf(was, stale, now, everPointed, d)
      requires forall i: nat, snapshot :: (i, snapshot) in digestsThen && (i, snapshot) !in wasDigests ==>
                 i in stale && DigestOf(was, i, snapshot) && Collectable(was, i, now, everPointed)
      requires forall d :: d in settled && d !in settledThen ==>
                 EmbeddedBy(stood, stale[n], d) && Collectable(stood, stale[n], now, everPointed)
      requires forall i: nat, snapshot :: (i, snapshot) in digests && (i, snapshot) !in digestsThen ==>
                 i == stale[n] && DigestOf(stood, stale[n], snapshot) && Collectable(stood, stale[n], now, everPointed)
      ensures OnlyStale(was, wasSettled, wasDigests, stale, now, everPointed)
    {
      assert stale[n] in stale;
    }

    /** The collect fan-out. Whatever fails, it deletes only what may be deleted,
        after handling its log; and what a fault-free pass would leave of the
        Space is the same before and after. */
    method CollectStale(stale: seq<nat>, current: Option<nat>, now: int, everPointed: set<nat>, faults: map<nat, Fault>)
      returns (collected: seq<nat>, deferred: seq<nat>, failed: seq<nat>)
      requires forall id :: id in stale ==> Some(id) != current
      modifies this`collections, this`settled, this`digests
      ensures old(settled) <= settled && old(digests) <= digests
      ensures NoFaults(faults) && (forall id: nat :: Gen(id) in old(collections) && Some(id) != current ==> id in stale) ==>
                collections == Left(old(collections), current, now, everPointed)
      ensures Left(collections, current, now, everPointed) == Left(old(collections), current, now, everPointed)
      ensures forall name :: name in old(collections) && name !in collections ==>
                name.Gen? && Some(name.id) != current && Handled(name.id, old(collections)[name])
      ensures forall name :: name in collections ==> name in old(collections) && collections[name] == old(collections)[name]
      ensures forall id :: id in stale <==> id in collected || id in deferred || id in failed
      ensures forall id :: id in collected ==> Gen(id) !in collections
      ensures failed == [] && deferred == [] ==> forall id :: id in stale ==> Gen(id) !in collections
      ensures NoFaults(faults) ==> failed == []
      ensures forall id :: id in deferred ==> !Collectable(old(collections), id, now, everPointed)
      ensures OnlyStale(old(collections), old(settled), old(digests), stale, now, everPointed)
    {
      collected, deferred, failed := [], [], [];
      for n := 0 to |stale|
        invariant old(settled) <= settled && old(digests) <= digests
        invariant forall name :: name in collections ==>
                    name in old(collections) && collections[name] == old(collections)[name]
        invariant forall name :: name in old(collections) && name !in collections ==>
                    name.Gen? && Some(name.id) != current
                    && Collectable(old(collections), name.id, now, everPointed)
                    && Handled(name.id, old(collections)[name])
        invariant forall id :: id in stale[..n] <==> id in collected || id in deferred || id in failed
        invariant forall id :: id in collected ==> Gen(id) !in collections
        invariant forall id :: id in deferred ==> !Collectable(old(collections), id, now, everPointed)
        invariant NoFaults(faults) ==> failed == []
        invariant OnlyStale(old(collections), old(settled), old(digests), stale, now, everPointed)
      {
        ghost var stood, wasSettled, wasDigests := collections, settled, digests;
        var fault := if stale[n] in faults then faults[stale[n]] else NoFault;
        var outcome := CollectOneGeneration(stale[n], now, everPointed, fault);
        OneMoreStale(old(collections), old(settled), old(digests), stale, n, now, everPointed, stood, wasSettled, wasDigests);
        match outcome
        case Collected => collected := collected + [stale[n]];
        case Deferred => deferred := deferred + [stale[n]];
        case Failed => failed := failed + [stale[n]];
      }
    }

    /** The Space's listing, in pages. */
    method CollectionsPages() returns (pages: seq<seq<Name>>)
      ensures forall name :: name in collections <==> exists p :: 0 <= p < |pages| && name in pages[p]
    {
      pages := [];
      var rest := collections.Keys;
      while rest != {}
        invariant rest <= collections.Keys
        invariant forall name :: name in collections && name !in rest ==> exists p :: 0 <= p < |pages| && name in pages[p]
        invariant forall p, name :: 0 <= p < |pages| && name in pages[p] ==> name in collections
        decreases |rest|
      {
        ghost var before := pages;
        var name :| name in rest;
        rest := rest - {name};
        pages := pages + [[name]];
        assert name in pages[|before|];
        assert forall p :: 0 <= p < |before| ==> pages[p] == before[p];
      }
    }

    /** Generation `id` was born at `now` and its newest entry embeds `delegation`. */
    predicate Embeds(id: nat, delegation: DelegationId, now: int)
      reads this`collections
    {
      && Gen(id) in collections && 0 < |collections[Gen(id)]|
      && collections[Gen(id)][0] == AnnexEntry(now, None)
      && collections[Gen(id)][|collections[Gen(id)]| - 1] == AnnexEntry(now, Some(delegation))
    }

    /** A fresh generation: its collection, its genesis, its delegation's install. */
    method MintGeneration(minted: nat, delegation: DelegationId, now: int, fault: Option<SwapFault>)
      returns (torn: bool)
      requires Gen(minted) !in collections
      modifies this`collections
      ensures torn <==> TearsMint(fault)
      ensures fault == Some(CreateFails) ==> collections == old(collections)
      ensures fault == Some(GenesisFails) ==> collections == old(collections)[Gen(minted) := []]
      ensures fault == Some(InstallFails) ==> collections == old(collections)[Gen(minted) := [AnnexEntry(now, None)]]
      ensures !torn ==> Embeds(minted, delegation, now) && |collections[Gen(minted)]| == 2
                        && collections - {Gen(minted)} == old(collections)
      ensures collections == AfterSwap(old(collections), minted,
                                       MintedLog(if torn then SwapFailed else Replaced, fault, delegation, now))
    {
      if fault == Some(CreateFails) { return true; }
      collections := collections[Gen(minted) := []];
      if fault == Some(GenesisFails) { return true; }
      collections := collections[Gen(minted) := [AnnexEntry(now, None)]];
      if fault == Some(InstallFails) { return true; }
      collections := collections[Gen(minted) := [AnnexEntry(now, None), AnnexEntry(now, Some(delegation))]];
      torn := false;
    }

    /** Replacing the pointed generation: mint a fresh one, revoke the delegation it
        replaces, re-point. */
    method ReplaceGeneration(pointed: seq<AnnexEntry>, minted: nat, delegation: DelegationId, now: int,
                             fault: Option<SwapFault>) returns (torn: bool)
      requires Gen(minted) !in collections && fault != Some(PointedUnread)
      modifies this`pointers, this`collections, this`settled
      ensures torn <==> fault.Some? && fault.value != RevokeRefused
      ensures pointers == if torn && fault != Some(RePointLost) then old(pointers) else old(pointers) + [minted]
      ensures collections == AfterSwap(old(collections), minted,
                                       MintedLog(if torn then SwapFailed else Replaced, fault, delegation, now))
      ensures !torn || fault == Some(RePointFails) || fault == Some(RePointLost) ==> Embeds(minted, delegation, now)
      ensures settled == if pointed != [] && RevokesOld(fault) then old(settled) + Embedded(SnapshotOf(pointed))
                         else old(settled)
    {
      torn := MintGeneration(minted, delegation, now, fault);
      if torn { return; }
      if pointed != [] && fault != Some(RevokeRefused) {
        settled := settled + Embedded(SnapshotOf(pointed));
      }
      if fault == Some(RePointFails) { return true; }
      pointers := pointers + [minted];
      torn := fault == Some(RePointLost);
    }

    /** The swap's gates. It moves the pointer only off a generation with no log or
        a quiet one, and only when it is due or the minter is not admitted there. */
    method SwapGeneration(due: bool, readmits: bool, ladderSeed: bool, minted: nat, delegation: DelegationId,
                          now: int, fault: Option<SwapFault>) returns (swap: Swap)
      requires pointers != [] && Gen(minted) !in collections && minted !in pointers
      modifies this`pointers, this`collections, this`settled
      ensures pointers == if MovesPointer(swap, fault) then old(pointers) + [minted] else old(pointers)
      ensures collections == AfterSwap(old(collections), minted, MintedLog(swap, fault, delegation, now))
      ensures old(settled) <= settled
      ensures swap != NoPointer
      ensures swap == SwapFailed ==> fault.Some? && fault.value != RevokeRefused
      ensures settled != old(settled) ==> MovesPointer(swap, fault) || (swap == SwapFailed && fault == Some(RePointFails))
      ensures MovesPointer(swap, fault) ==> pointers[|pointers| - 1] == minted && Embeds(minted, delegation, now)
      ensures swap == SwapFailed ==>
                match fault.value
                case GenesisFails => collections == old(collections)[Gen(minted) := []]
                case InstallFails => collections == old(collections)[Gen(minted) := [AnnexEntry(now, None)]]
                case RePointFails =>
                  && Embeds(minted, delegation, now) && pointers == old(pointers)
                  && forall d :: EmbeddedBy(old(collections), old(pointers)[|old(pointers)| - 1], d) ==> d in settled
                case RePointLost => Embeds(minted, delegation, now) && pointers == old(pointers) + [minted]
                case _ => collections == old(collections) && pointers == old(pointers)
      ensures var name := Gen(old(pointers)[|old(pointers)| - 1]);
              var log := if name in old(collections) then old(collections)[name] else [];
              var ready := log == [] || (GenerationQuiet(log, now) && (due || readmits));
              && (MovesPointer(swap, fault) ==> ready)
              && (fault.None? && ladderSeed && ready ==> MovesPointer(swap, fault))
              && (fault == Some(PointedUnread) ==> swap == SwapFailed)
              && (fault != Some(PointedUnread) ==>
                    && (swap == NotDue <==> log != [] && !due && !readmits)
                    && (swap == DeferredLive <==> log != [] && (due || readmits) && !GenerationQuiet(log, now))
                    && (swap == NoLadderSeed <==> ready && !ladderSeed))
              && (swap == NotDue || swap == DeferredLive || swap == NoLadderSeed ==>
                    collections == old(collections) && settled == old(settled))
              && (settled == old(settled) || (log != [] && settled == old(settled) + Embedded(SnapshotOf(log))))
              && (swap == Repaired ==> log == []) && (swap == Readmitted ==> log != [] && readmits)
              && (swap == Replaced ==> log != [] && !readmits)
              && (MovesPointer(swap, fault) && log != [] && fault != Some(RevokeRefused) ==>
                    Embedded(SnapshotOf(log)) <= settled)
    {
      if fault == Some(PointedUnread) { return SwapFailed; }
      var name := Gen(pointers[|pointers| - 1]);
      var pointed := if name in collections then collections[name] else [];
      if pointed != [] && !readmits && !due { return NotDue; }
      if pointed != [] && !GenerationQuiet(pointed, now) { return DeferredLive; }
      if !ladderSeed { return NoLadderSeed; }
      var torn := ReplaceGeneration(pointed, minted, delegation, now, fault);
      return if torn then SwapFailed else if pointed == [] then Repaired else if readmits then Readmitted else Replaced;
    }

    /** A pass's own swap. */
    method SwapOf(pass: Attempt) returns (swap: Swap)
      requires pointers != [] && Gen(pass.minted) !in collections && pass.minted !in pointers
      modifies this`pointers, this`collections, this`settled
      ensures pointers == if MovesPointer(swap, pass.swapFault) then old(pointers) + [pass.minted] else old(pointers)
      ensures collections == AfterSwap(old(collections), pass.minted,
                                       MintedLog(swap, pass.swapFault, pass.delegation, pass.now))
      ensures old(settled) <= settled && swap != NoPointer && (swap == SwapFailed ==> pass.swapFault.Some?)
      ensures MovesPointer(swap, pass.swapFault) ==> Embeds(pass.minted, pass.delegation, pass.now)
      ensures (swap == Readmitted ==> pass.readmits) && (swap == Replaced ==> !pass.readmits)
      ensures forall d :: d in settled && d !in old(settled) ==>
                && EmbeddedBy(old(collections), old(Current()).value, d)
                && (MovesPointer(swap, pass.swapFault) || (swap == SwapFailed && pass.swapFault == Some(RePointFails)))
      ensures pass.swapFault == None ==>
                (MovesPointer(swap, None) <==> pass.ladderSeed && SwapReady(old(collections), old(Current()).value, pass))
    {
      swap := SwapGeneration(pass.due, pass.readmits, pass.ladderSeed, pass.minted, pass.delegation, pass.now,
                             pass.swapFault);
    }

    /** The Space's stale generations, through its listing. */
    method StaleGenerations(current: Option<nat>) returns (stale: seq<nat>)
      ensures forall id :: id in stale <==> Gen(id) in collections && Some(id) != current
    {
      var pages := CollectionsPages();
      stale := ListStale(pages, current);
    }

    /** The collect half of a pass: every stale generation of the Space. */
    method CollectPass(now: int, faults: map<nat, Fault>)
      returns (collected: seq<nat>, deferred: seq<nat>, failed: seq<nat>)
      modifies this`collections, this`settled, this`digests
      ensures old(settled) <= settled && old(digests) <= digests
      ensures Left(collections, Current(), now, SetOf(pointers)) == Left(old(collections), Current(), now, SetOf(pointers))
      ensures forall name :: name in collections ==> name in old(collections) && collections[name] == old(collections)[name]
      ensures forall name :: name in old(collections) && name !in collections ==>
                name.Gen? && Some(name.id) != Current() && Handled(name.id, old(collections)[name])
      ensures forall d :: d in settled && d !in old(settled) ==>
                exists id: nat :: && Some(id) != Current() && EmbeddedBy(old(collections), id, d)
                                  && Collectable(old(collections), id, now, SetOf(pointers))
      ensures forall i: nat, snapshot :: (i, snapshot) in digests && (i, snapshot) !in old(digests) ==>
                && Some(i) != Current() && DigestOf(old(collections), i, snapshot)
                && Collectable(old(collections), i, now, SetOf(pointers))
      ensures NoFaults(faults) ==>
                && collections == Left(old(collections), Current(), now, SetOf(pointers))
                && failed == []
                && forall id: nat :: Gen(id) in collections ==> Some(id) == Current() || id in deferred
    {
      var stale := StaleGenerations(Current());
      collected, deferred, failed := CollectStale(stale, Current(), now, SetOf(pointers), faults);
    }

    /** `runClientAnnexGc`. Whatever tears, a pass deletes no more and no other
        generation than a fault-free one would of what its swap left, and the
        pointed one stands after it if it stood, or if the swap moved to it -- then
        with the delegation the swap minted embedded; a pass
        nothing fails in leaves, of the generations, the pointed one and those it
        deferred. A swap torn between its genesis and its re-point leaves one
        deferred generation more. It settles no delegation the generation then
        pointed at embeds, unless its swap tore right before the re-point, and it
        digests whole logs, none of them that generation's. */
    method RunClientAnnexGc(pass: Attempt)
      returns (swap: Swap, collected: seq<nat>, deferred: seq<nat>, failed: seq<nat>)
      requires Gen(pass.minted) !in collections && pass.minted !in pointers
      modifies this
      ensures swap == NoPointer <==> old(pointers) == []
      ensures swap == NoPointer ==> collections == old(collections)
      ensures swap == SwapFailed ==> pass.swapFault.Some?
      ensures (swap == Readmitted ==> pass.readmits) && (swap == Replaced ==> !pass.readmits)
      ensures old(pointers) != [] && pass.swapFault == None ==>
                (MovesPointer(swap, None) <==> pass.ladderSeed && SwapReady(old(collections), old(Current()).value, pass))
      ensures pointers == if MovesPointer(swap, pass.swapFault) then old(pointers) + [pass.minted] else old(pointers)
      ensures MovesPointer(swap, pass.swapFault) ==>
                Current() == Some(pass.minted) && Embeds(pass.minted, pass.delegation, pass.now)
      ensures old(settled) <= settled && old(digests) <= digests
      ensures PointedStands() <==> old(PointedStands()) || MovesPointer(swap, pass.swapFault)
      ensures old(pointers) != [] ==>
                var swapped := AfterSwap(old(collections), pass.minted,
                                         MintedLog(swap, pass.swapFault, pass.delegation, pass.now));
                && Left(collections, Current(), pass.now, SetOf(pointers)) ==
                   Left(swapped, Current(), pass.now, SetOf(pointers))
                && (forall name :: name in collections ==> name in swapped && collections[name] == swapped[name])
                && (NoFaults(pass.faults) ==> collections == Left(swapped, Current(), pass.now, SetOf(pointers)))
                && (forall name :: name in swapped && name !in collections ==>
                      name.Gen? && Some(name.id) != Current() && Handled(name.id, swapped[name]))
      ensures old(pointers) != [] && NoFaults(pass.faults) ==>
                && failed == (if swap == SwapFailed then [old(pointers)[|old(pointers)| - 1]] else [])
                && forall id: nat :: Gen(id) in collections ==> Some(id) == Current() || id in deferred
      ensures old(pointers) != [] && NoFaults(pass.faults) ==>
                forall id: nat :: Gen(id) in collections ==>
                  Some(id) == Current() || !Collectable(collections, id, pass.now, SetOf(pointers))
      ensures Orphans(swap, pass.swapFault) ==> Gen(pass.minted) in collections && Current() != Some(pass.minted)
      ensures forall d :: d in settled && d !in old(settled) ==>
                exists id: nat :: EmbeddedBy(old(collections), id, d)
                  && (Some(id) != Current() || (swap == SwapFailed && pass.swapFault == Some(RePointFails)))
      ensures forall i: nat, snapshot :: (i, snapshot) in digests && (i, snapshot) !in old(digests) ==>
                Some(i) != Current() && DigestOf(old(collections), i, snapshot)
    {
      collected, deferred, failed := [], [], [];
      if pointers == [] { return NoPointer, [], [], []; }
      var pointed := pointers[|pointers| - 1];
      swap := SwapOf(pass);
      ghost var swapped := collections;
      collected, deferred, failed := CollectPass(pass.now, pass.faults);
      if swap == SwapFailed { failed := [pointed] + failed; }
      LeftIsLeft(swapped, Current(), pass.now, SetOf(pointers));
      if Orphans(swap, pass.swapFault) { OrphanIsLeft(old(collections), pass, swap, pointers); }
    }

    /** What passes so far made of the Space as it was: they deleted only
        generations, after handling their logs, and added only what they minted. */
    ghost predicate Reached(before: map<Name, seq<AnnexEntry>>, passes: seq<Attempt>)
      reads this
    {
      && Grown(before, collections, passes)
      && forall name :: name in before && name !in collections ==> name.Gen? && Handled(name.id, before[name])
    }

    /** One more pass on a Space others have torn through. */
    method RunAgain(pass: Attempt, ghost before: map<Name, seq<AnnexEntry>>, ghost passes: seq<Attempt>,
                    ghost later: seq<Attempt>)
      requires pointers != [] && FreshMints([pass] + later, collections, pointers)
      requires Reached(before, passes) && Gen(pass.minted) !in before
      modifies this
      ensures pointers != [] && old(pointers) <= pointers && FreshMints(later, collections, pointers)
      ensures Reached(before, passes + [pass])
      ensures old(PointedStands()) || Current() != old(Current()) ==> PointedStands()
      ensures pass.swapFault == None && NoFaults(pass.faults) ==>
                forall id: nat :: Gen(id) in collections ==>
                  Some(id) == Current() || (id != pass.minted && !Collectable(collections, id, pass.now, SetOf(pointers)))
    {
      ghost var stood, pointed := collections, pointers;
      assert ([pass] + later)[0] == pass;
      var swap, collected, deferred, failed := RunClientAnnexGc(pass);
      GrownMore(before, stood, collections, passes, pass, swap);
      LaterFresh(pass, later, stood, collections, pointed, pointers);
    }

    /** Passes torn anywhere, each with its own clock, then one nothing fails in:
        every generation left is the pointed one, or deferred as having a log, no
        pointer ever and too recent an entry; the pointed one stands if it stood
        before or became the pointed one on the way; and once every log of before and
        every torn pass's clock is quiet, the pointed one is left alone, whatever
        tore. */
    method RerunUntilCollected(torn: seq<Attempt>, last: Attempt)
      requires FreshMints(torn + [last], collections, pointers)
      requires pointers != [] && last.swapFault == None && NoFaults(last.faults)
      modifies this
      ensures old(pointers) <= pointers
      ensures old(PointedStands()) || Current() != old(Current()) ==> PointedStands()
      ensures forall id: nat :: Other(id) in collections <==> Other(id) in old(collections)
      ensures forall id: nat :: Gen(id) in collections ==>
                Some(id) == Current() || !Collectable(collections, id, last.now, SetOf(pointers))
      ensures forall name :: name in collections ==>
                if name in old(collections) then collections[name] == old(collections)[name]
                else name.Gen? && MintedBy(torn + [last], name.id, collections[name])
      ensures forall name :: name in old(collections) && name !in collections ==>
                name.Gen? && Handled(name.id, old(collections)[name])
      ensures QuietBy(old(collections), old(pointers), torn, last) ==>
                forall id: nat :: Gen(id) in collections ==> Some(id) == Current()
    {
      ghost var passes := torn + [last];
      for n := 0 to |torn|
        invariant FreshMints(passes[n..], collections, pointers)
        invariant pointers != [] && old(pointers) <= pointers
        invariant Reached(old(collections), passes[..n])
        invariant old(PointedStands()) || Current() != old(Current()) ==> PointedStands()
      {
        PassesSplit(passes, n);
        RunAgain(torn[n], old(collections), passes[..n], passes[n + 1..]);
      }
      PassesSplit(passes, |torn|);
      assert passes[..|torn|] == torn && passes[|torn| + 1..] == [];
      RunAgain(last, old(collections), torn, []);
      forall id: nat | Gen(id) in collections && Some(id) != Current() ensures !QuietBy(old(collections), old(pointers), torn, last) {
        if QuietBy(old(collections), old(pointers), torn, last) { MintedLongAgo(torn, last, id, collections[Gen(id)]); }
      }
    }
  }
}
