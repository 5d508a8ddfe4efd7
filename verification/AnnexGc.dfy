/** Generation swaps and collect passes racing on one annex: the account log's
    pointer, the generations' own logs, and any number of mints and passes, each
    of which may stop after any step. Time is an integer; every clock read and
    every written version time lies within `skew` of it. */
module AnnexGc {
  import opened Seqs

  /** A generation's address: its auxiliary Space and its collection there. */
  datatype GenId = GenId(space: nat, id: nat)
  type DelegationId = nat
  type RunId = nat

  const GENERATION_QUIET_BOUND_MS: int := 24 * 60 * 60 * 1000
  const GENERATION_QUIET_GRACE_MS: int := 60 * 60 * 1000
  const QUIET_FOR: int := GENERATION_QUIET_BOUND_MS + GENERATION_QUIET_GRACE_MS

  datatype AnnexEntry = AnnexEntry(versionTime: int, delegation: Option<DelegationId>)

  /** `generationQuiet`: an empty log is never quiet. */
  predicate GenerationQuiet(log: seq<AnnexEntry>, now: int) {
    0 < |log| && now - log[|log| - 1].versionTime >= QUIET_FOR
  }

  /** What a pass digests of the log it read. */
  datatype Snapshot = Snapshot(delegation: Option<DelegationId>, first: int, last: int, count: nat)

  function SnapshotOf(log: seq<AnnexEntry>): Snapshot
    requires 0 < |log|
  {
    Snapshot(log[|log| - 1].delegation, log[0].versionTime, log[|log| - 1].versionTime, |log|)
  }

  function Embedded(snapshot: Snapshot): set<DelegationId> {
    if snapshot.delegation.Some? then {snapshot.delegation.value} else {}
  }

  datatype MintStage = Created | Written(newest: int)

  /** One stale generation's progress inside a pass; `seen` is the log read,
      when it had one. */
  datatype Item =
    | Stale
    | Condemned(seen: Option<Snapshot>)
    | DelegationSettled(snapshot: Snapshot)
    | DigestRecorded(snapshot: Snapshot)

  datatype PassStage = Starting | HeadRead(head: nat) | Collecting(head: nat, items: map<GenId, Item>)

  /** A mint of one fresh generation, to be pointed at from the head at `base`
      (`expected` is the pointer it must still find, if it checks), or a collect
      pass over one Space. */
  datatype Run =
    | Mint(gen: GenId, expected: Option<Option<GenId>>, base: nat, stage: MintStage)
    | Pass(space: nat, now: int, startedAt: int, stageOfPass: PassStage)

  /** A delete that landed: the account head then, the log the pass had read
      (when there was one), and the log that was deleted. */
  datatype Deletion = Deletion(at: nat, seen: Option<Snapshot>, log: seq<AnnexEntry>)

  /** `account` is the pointer each account-log entry states. `pointedAt` is when
      a generation was first pointed at. */
  datatype Sys = Sys(
    time: int,
    skew: nat,
    account: seq<Option<GenId>>,
    gens: map<GenId, seq<AnnexEntry>>,
    used: set<GenId>,
    pointedAt: map<GenId, int>,
    settled: set<DelegationId>,
    digests: set<(GenId, Snapshot)>,
    deleted: map<GenId, Deletion>,
    runs: map<RunId, Run>)

  datatype Step =
    | Tick(to: int)
    | OtherAccountEntry
    | Visit(gen: GenId, entry: AnnexEntry)
    | Revoke(delegation: DelegationId)
    | BeginMint(gen: GenId, base: nat, expected: Option<Option<GenId>>)
    | PutGenesis(versionTime: int)
    | PutEntry(entry: AnnexEntry)
    | RePoint
    | BeginPass(space: nat, now: int)
    | ReadHead
    | ListSpace
    | ReadGeneration(stale: GenId)
    | SettleDelegation(stale: GenId)
    | RecordDigest(stale: GenId)
    | Delete(stale: GenId)
    | Drop(stale: GenId)
    | Crash
  {
    predicate CollectStep() {
      ReadGeneration? || SettleDelegation? || RecordDigest? || Delete? || Drop?
    }
  }

  predicate Near(s: Sys, clock: int) {
    s.time - s.skew <= clock <= s.time + s.skew
  }

  predicate Pointed(s: Sys, gen: GenId) {
    Some(gen) in s.account
  }

  function Pointer(s: Sys): Option<GenId>
    requires 0 < |s.account|
  {
    s.account[|s.account| - 1]
  }

  /** A later entry never predates the one before it. */
  predicate Extends(log: seq<AnnexEntry>, entry: AnnexEntry) {
    0 < |log| && log[|log| - 1].versionTime <= entry.versionTime
  }

  /** A generation's log: as it stands, or as it stood when it was deleted. */
  function LogOf(s: Sys, gen: GenId): seq<AnnexEntry> {
    if gen in s.gens then s.gens[gen] else if gen in s.deleted then s.deleted[gen].log else []
  }

  function WithRun(s: Sys, id: RunId, run: Run): Sys {
    s.(runs := s.runs[id := run])
  }

  function Ended(s: Sys, id: RunId): Sys {
    s.(runs := s.runs - {id})
  }

  function WithItem(s: Sys, id: RunId, gen: GenId, item: Item): Sys
    requires id in s.runs && s.runs[id].Pass? && s.runs[id].stageOfPass.Collecting?
  {
    var stage := s.runs[id].stageOfPass;
    WithRun(s, id, s.runs[id].(stageOfPass := stage.(items := stage.items[gen := item])))
  }

  function WithoutItem(s: Sys, id: RunId, gen: GenId): Sys
    requires id in s.runs && s.runs[id].Pass? && s.runs[id].stageOfPass.Collecting?
  {
    var stage := s.runs[id].stageOfPass;
    WithRun(s, id, s.runs[id].(stageOfPass := stage.(items := stage.items - {gen})))
  }

  function StaleIn(s: Sys, space: nat, current: Option<GenId>): map<GenId, Item> {
    map gen | gen in s.gens && gen.space == space && Some(gen) != current :: Stale
  }

  // ---- Steps

  ghost predicate WorldNext(s: Sys, s': Sys, step: Step)
    requires 0 < |s.account|
  {
    match step
    case Tick(to) => s.time <= to && s' == s.(time := to)
    case OtherAccountEntry => s' == s.(account := s.account + [Pointer(s)])
    case Visit(gen, e) =>
      && gen in s.gens && Pointed(s, gen) && Near(s, e.versionTime) && Extends(s.gens[gen], e)
      && s' == s.(gens := s.gens[gen := s.gens[gen] + [e]])
    case Revoke(d) => s' == s.(settled := s.settled + {d})
    case _ => false
  }

  ghost predicate BeginNext(s: Sys, s': Sys, id: RunId, step: Step) {
    match step
    case BeginMint(gen, base, expected) =>
      && gen !in s.used && base < |s.account| && (expected.Some? ==> expected.value == s.account[base])
      && s' == WithRun(s, id, Mint(gen, expected, base, Created)).(
                gens := s.gens[gen := []], used := s.used + {gen})
    case BeginPass(space, now) => Near(s, now) && s' == WithRun(s, id, Pass(space, now, s.time, Starting))
    case _ => false
  }

  /** A mint's writes. The re-point is a compare-and-swap on the account head: a
      moved head is re-read, a pointer already ours is the end, and a pointer
      that is not the expected one refuses. */
  ghost predicate MintNext(s: Sys, s': Sys, id: RunId, step: Step)
    requires id in s.runs && s.runs[id].Mint? && 0 < |s.account|
  {
    var run := s.runs[id];
    match step
    case PutGenesis(v) =>
      && run.stage.Created? && run.gen in s.gens && Near(s, v)
      && s' == WithRun(s, id, run.(stage := Written(v))).(gens := s.gens[run.gen := [AnnexEntry(v, None)]])
    case PutEntry(e) =>
      && run.stage.Written? && run.gen in s.gens && Near(s, e.versionTime) && Extends(s.gens[run.gen], e)
      && s' == WithRun(s, id, run.(stage := Written(e.versionTime))).(
                gens := s.gens[run.gen := s.gens[run.gen] + [e]])
    case RePoint =>
      run.stage.Written? &&
      (if run.base != |s.account| - 1 then s' == WithRun(s, id, run.(base := |s.account| - 1))
       else if Pointer(s) == Some(run.gen) || (run.expected.Some? && Pointer(s) != run.expected.value)
       then s' == Ended(s, id)
       else s' == Ended(s, id).(account := s.account + [Some(run.gen)], pointedAt := s.pointedAt[run.gen := s.time]))
    case _ => false
  }

  /** `collectOneGeneration`'s verdict on a log it read: a generation never
      pointed at is left while it is not quiet. */
  predicate DeferredLive(s: Sys, head: nat, gen: GenId, log: seq<AnnexEntry>, now: int)
    requires head < |s.account|
  {
    Some(gen) !in s.account[..head + 1] && !GenerationQuiet(log, now)
  }

  ghost predicate PassNext(s: Sys, s': Sys, id: RunId, step: Step)
    requires id in s.runs && s.runs[id].Pass? && 0 < |s.account|
  {
    var run := s.runs[id];
    match run.stageOfPass
    case Starting => step.ReadHead? && s' == WithRun(s, id, run.(stageOfPass := HeadRead(|s.account| - 1)))
    case HeadRead(head) =>
      step.ListSpace? && head < |s.account|
      && s' == WithRun(s, id, run.(stageOfPass := Collecting(head, StaleIn(s, run.space, s.account[head]))))
    case Collecting(_, _) => step.CollectStep() && CollectNext(s, s', id, step)
  }

  /** One stale generation: read its log, settle the delegation it embeds, record
      its digest, delete the collection. Any of these may fail. */
  ghost predicate CollectNext(s: Sys, s': Sys, id: RunId, step: Step)
    requires id in s.runs && s.runs[id].Pass? && s.runs[id].stageOfPass.Collecting?
    requires step.CollectStep() && 0 < |s.account|
  {
    var run := s.runs[id];
    var items, head, gen := run.stageOfPass.items, run.stageOfPass.head, step.stale;
    && gen in items && head < |s.account|
    && if step.Drop? then s' == WithoutItem(s, id, gen)
       else match items[gen]
         case Stale =>
           step.ReadGeneration? &&
           (if gen !in s.gens || s.gens[gen] == [] then s' == WithItem(s, id, gen, Condemned(None))
            else if DeferredLive(s, head, gen, s.gens[gen], run.now) then s' == WithoutItem(s, id, gen)
            else s' == WithItem(s, id, gen, Condemned(Some(SnapshotOf(s.gens[gen])))))
         case Condemned(None) => step.Delete? && s' == Deleted(s, id, gen, None)
         case Condemned(Some(snapshot)) =>
           step.SettleDelegation? &&
           s' == WithItem(s, id, gen, DelegationSettled(snapshot)).(settled := s.settled + Embedded(snapshot))
         case DelegationSettled(snapshot) =>
           step.RecordDigest? &&
           s' == WithItem(s, id, gen, DigestRecorded(snapshot)).(digests := s.digests + {(gen, snapshot)})
         case DigestRecorded(snapshot) => step.Delete? && s' == Deleted(s, id, gen, Some(snapshot))
  }

  function Deleted(s: Sys, id: RunId, gen: GenId, seen: Option<Snapshot>): Sys
    requires id in s.runs && s.runs[id].Pass? && s.runs[id].stageOfPass.Collecting? && 0 < |s.account|
  {
    WithoutItem(s, id, gen).(
      gens := s.gens - {gen},
      deleted := if gen in s.deleted then s.deleted
                 else s.deleted[gen := Deletion(|s.account| - 1, seen, LogOf(s, gen))])
  }

  ghost predicate Next(s: Sys, s': Sys, id: RunId, step: Step) {
    0 < |s.account| &&
    if step.Tick? || step.OtherAccountEntry? || step.Visit? || step.Revoke? then WorldNext(s, s', step)
    else if step.BeginMint? || step.BeginPass? then id !in s.runs && BeginNext(s, s', id, step)
    else if id !in s.runs then false
    else if step.Crash? then s' == Ended(s, id)
    else if s.runs[id].Mint? then MintNext(s, s', id, step)
    else PassNext(s, s', id, step)
  }

  /** The timing a mint owes the collectors: after its genesis, every further entry
      and the re-point land before the newest version time it wrote plus the quiet
      bound and grace, less the skew. */
  ghost predicate MintsInTime(s: Sys, id: RunId, step: Step) {
    (step.PutEntry? || step.RePoint?) && id in s.runs && s.runs[id].Mint? && s.runs[id].stage.Written? ==>
      s.time < s.runs[id].stage.newest + QUIET_FOR - s.skew
  }

  /** No pass reads a generation's log between its creation and its genesis. */
  ghost predicate ReadsAfterGenesis(s: Sys, step: Step) {
    step.ReadGeneration? ==>
      forall other :: other in s.runs && s.runs[other].Mint? && s.runs[other].gen == step.stale ==>
        s.runs[other].stage.Written?
  }

  ghost predicate Prompt(s: Sys, id: RunId, step: Step) {
    MintsInTime(s, id, step) && ReadsAfterGenesis(s, step)
  }

  // ---- The invariant

  /** Once the pointer leaves a generation it never comes back to it. */
  ghost predicate NeverReturns(account: seq<Option<GenId>>) {
    forall i, j, k :: 0 <= i < j < k < |account| && account[i] == account[k] ==>
      account[j] == account[i]
  }

  /** No longer able to keep its timing. */
  predicate Late(s: Sys, run: Run)
    requires run.Mint?
  {
    run.stage.Written? && s.time >= run.stage.newest + QUIET_FOR - s.skew
  }

  /** Not pointed at, and no mint still in time to point at it. */
  ghost predicate Dead(s: Sys, gen: GenId) {
    && 0 < |s.account| && Pointer(s) != Some(gen)
    && gen in s.used
    && forall id :: id in s.runs && s.runs[id].Mint? && s.runs[id].gen == gen ==> Late(s, s.runs[id])
  }

  ghost predicate MintOk(s: Sys, run: Run)
    requires run.Mint?
  {
    && run.gen in s.used && !Pointed(s, run.gen)
    && (run.gen in s.gens ==>
          match run.stage
          case Created => s.gens[run.gen] == []
          case Written(newest) =>
            0 < |s.gens[run.gen]| && s.gens[run.gen][|s.gens[run.gen]| - 1].versionTime == newest)
  }

  ghost predicate MintsOk(s: Sys) {
    && (forall id :: id in s.runs && s.runs[id].Mint? ==> MintOk(s, s.runs[id]))
    && (forall a, b :: a in s.runs && b in s.runs && s.runs[a].Mint? && s.runs[b].Mint? && a != b ==>
          s.runs[a].gen != s.runs[b].gen)
  }

  /** A pointed generation's newest entry is not older than its re-point by the
      quiet bound, less the skew. */
  ghost predicate PointedOk(s: Sys, gen: GenId) {
    && gen in s.used && gen in s.pointedAt && s.pointedAt[gen] <= s.time
    && (gen in s.gens ==>
          0 < |s.gens[gen]| && s.gens[gen][|s.gens[gen]| - 1].versionTime > s.pointedAt[gen] - QUIET_FOR + s.skew)
  }

  ghost predicate LedgerOk(s: Sys) {
    && 0 < |s.account| && NeverReturns(s.account)
    && s.used == s.gens.Keys + s.deleted.Keys
    && (forall gen :: gen in s.gens ==> gen !in s.deleted)
    && forall gen :: Some(gen) in s.account ==> PointedOk(s, gen)
  }

  ghost predicate SnapshotHandled(s: Sys, gen: GenId, snapshot: Snapshot) {
    && (snapshot.delegation.Some? ==> snapshot.delegation.value in s.settled)
    && (gen, snapshot) in s.digests
  }

  /** `snapshot` is of the first `snapshot.count` entries of `log`. */
  predicate ReadOf(log: seq<AnnexEntry>, snapshot: Snapshot) {
    && 0 < snapshot.count <= |log| && snapshot.first == log[0].versionTime
    && snapshot.last == log[snapshot.count - 1].versionTime
    && snapshot.delegation == log[snapshot.count - 1].delegation
  }

  /** The delegation a log embeds is settled, and its digest covers all of it. */
  ghost predicate LogHandled(s: Sys, gen: GenId, log: seq<AnnexEntry>) {
    log == [] || SnapshotHandled(s, gen, SnapshotOf(log))
  }

  ghost predicate DigestOk(s: Sys, gen: GenId, snapshot: Snapshot) {
    && ReadOf(LogOf(s, gen), snapshot)
    && (snapshot.delegation.Some? ==> snapshot.delegation.value in s.settled)
  }

  ghost predicate DeletionOk(s: Sys, gen: GenId, d: Deletion) {
    && Dead(s, gen) && gen !in s.gens
    && d.at < |s.account| && (forall k :: d.at <= k < |s.account| ==> s.account[k] != Some(gen))
    && match d.seen
       case None => d.log == []
       case Some(snapshot) => ReadOf(d.log, snapshot) && SnapshotHandled(s, gen, snapshot)
  }

  ghost predicate ItemOk(s: Sys, head: nat, gen: GenId, item: Item)
    requires head < |s.account|
  {
    && gen in s.used && s.account[head] != Some(gen)
    && (!item.Stale? ==> Dead(s, gen))
    && match item
       case Stale => true
       case Condemned(None) => gen in s.gens ==> s.gens[gen] == []
       case Condemned(Some(snapshot)) => ReadOf(LogOf(s, gen), snapshot)
       case DelegationSettled(snapshot) => DigestOk(s, gen, snapshot)
       case DigestRecorded(snapshot) => DigestOk(s, gen, snapshot) && (gen, snapshot) in s.digests
  }

  /** Whatever a pass's head read did not show was pointed at after it began. */
  ghost predicate HeadOk(s: Sys, head: nat, startedAt: int) {
    && head < |s.account|
    && forall gen :: Some(gen) in s.account && Some(gen) !in s.account[..head + 1] ==>
         gen in s.pointedAt && startedAt <= s.pointedAt[gen]
  }

  ghost predicate PassOk(s: Sys, run: Run)
    requires run.Pass?
  {
    && run.startedAt <= s.time && run.now <= run.startedAt + s.skew
    && match run.stageOfPass
       case Starting => true
       case HeadRead(head) => HeadOk(s, head, run.startedAt)
       case Collecting(head, items) =>
         && HeadOk(s, head, run.startedAt)
         && forall gen :: gen in items ==> ItemOk(s, head, gen, items[gen])
  }

  ghost predicate Inv(s: Sys) {
    && LedgerOk(s) && MintsOk(s)
    && (forall gen :: gen in s.deleted ==> DeletionOk(s, gen, s.deleted[gen]))
    && (forall gen, snapshot :: (gen, snapshot) in s.digests ==> DigestOk(s, gen, snapshot))
    && (forall id :: id in s.runs && s.runs[id].Pass? ==> PassOk(s, s.runs[id]))
  }

  ghost predicate Init(s: Sys) {
    && s.account == [None] && s.gens == map[] && s.used == {} && s.pointedAt == map[]
    && s.digests == {} && s.deleted == map[] && s.runs == map[]
  }

  lemma InitHolds(s: Sys)
    requires Init(s)
    ensures Inv(s)
  {
  }

  // ---- What every step keeps

  /** Every log only grows, one that was deleted stays, and only `own` is created
      or gets its genesis. */
  ghost predicate LogsGrow(s: Sys, s': Sys, own: Option<GenId>) {
    && (forall gen :: LogOf(s, gen) <= LogOf(s', gen))
    && (forall gen :: gen in s'.gens && Some(gen) != own ==>
          gen in s.gens && (s.gens[gen] == [] ==> s'.gens[gen] == []))
  }

  /** One step seen from everything but generation `own`: what only grows has
      grown, the pointer stayed or moved to `own`, and no mint of any other
      generation appeared or moved. */
  ghost predicate Moves(s: Sys, s': Sys, own: Option<GenId>) {
    && 0 < |s.account|
    && s.time <= s'.time && s.skew == s'.skew && s.used <= s'.used
    && s.settled <= s'.settled && s.digests <= s'.digests
    && (s'.account == s.account || s'.account == s.account + [Pointer(s)]
        || (own.Some? && s'.account == s.account + [own]))
    && (forall gen :: Pointed(s, gen) && gen in s.pointedAt ==>
          gen in s'.pointedAt && s'.pointedAt[gen] == s.pointedAt[gen])
    && (forall gen :: Pointed(s', gen) && !Pointed(s, gen) ==>
          gen in s'.pointedAt && s.time <= s'.pointedAt[gen])
    && (forall id :: id in s'.runs && s'.runs[id].Mint? && Some(s'.runs[id].gen) != own ==>
          id in s.runs && s.runs[id] == s'.runs[id])
    && LogsGrow(s, s', own)
  }

  lemma ReadKept(log: seq<AnnexEntry>, log': seq<AnnexEntry>, snapshot: Snapshot)
    requires log <= log' && ReadOf(log, snapshot)
    ensures ReadOf(log', snapshot)
  {
    assert log'[..snapshot.count] == log[..snapshot.count];
  }

  lemma DigestKept(s: Sys, s': Sys, own: Option<GenId>, gen: GenId, snapshot: Snapshot)
    requires Moves(s, s', own) && DigestOk(s, gen, snapshot)
    ensures DigestOk(s', gen, snapshot)
  {
    ReadKept(LogOf(s, gen), LogOf(s', gen), snapshot);
  }

  lemma DeadKept(s: Sys, s': Sys, own: Option<GenId>, gen: GenId)
    requires Moves(s, s', own) && Dead(s, gen) && Some(gen) != own
    ensures Dead(s', gen)
  {
    forall id | id in s'.runs && s'.runs[id].Mint? && s'.runs[id].gen == gen ensures Late(s', s'.runs[id]) {
      assert s.runs[id] == s'.runs[id];
    }
  }

  lemma DeletionKept(s: Sys, s': Sys, own: Option<GenId>, gen: GenId, d: Deletion)
    requires Moves(s, s', own) && DeletionOk(s, gen, d) && Some(gen) != own
    ensures DeletionOk(s', gen, d)
  {
    DeadKept(s, s', own, gen);
  }

  lemma HeadKept(s: Sys, s': Sys, own: Option<GenId>, head: nat, startedAt: int)
    requires Moves(s, s', own) && HeadOk(s, head, startedAt) && startedAt <= s.time
    ensures HeadOk(s', head, startedAt)
  {
    assert s'.account[..head + 1] == s.account[..head + 1];
    forall gen | Some(gen) in s'.account && Some(gen) !in s'.account[..head + 1]
      ensures gen in s'.pointedAt && startedAt <= s'.pointedAt[gen]
    {
      if Some(gen) in s.account { assert Pointed(s, gen); } else { assert Pointed(s', gen); }
    }
  }

  lemma ItemKept(s: Sys, s': Sys, own: Option<GenId>, head: nat, gen: GenId, item: Item)
    requires Moves(s, s', own) && head < |s.account| && ItemOk(s, head, gen, item)
    requires own.Some? ==> !Dead(s, own.value)
    ensures ItemOk(s', head, gen, item)
  {
    if Dead(s, gen) { DeadKept(s, s', own, gen); }
    match item
    case Stale =>
    case Condemned(None) =>
    case Condemned(Some(snapshot)) => ReadKept(LogOf(s, gen), LogOf(s', gen), snapshot);
    case DelegationSettled(snapshot) => DigestKept(s, s', own, gen, snapshot);
    case DigestRecorded(snapshot) => DigestKept(s, s', own, gen, snapshot);
  }

  lemma PassKept(s: Sys, s': Sys, own: Option<GenId>, run: Run)
    requires Moves(s, s', own) && run.Pass? && PassOk(s, run)
    requires own.Some? ==> !Dead(s, own.value)
    ensures PassOk(s', run)
  {
    match run.stageOfPass
    case Starting =>
    case HeadRead(head) => HeadKept(s, s', own, head, run.startedAt);
    case Collecting(head, items) =>
      HeadKept(s, s', own, head, run.startedAt);
      forall gen | gen in items ensures ItemOk(s', head, gen, items[gen]) {
        ItemKept(s, s', own, head, gen, items[gen]);
      }
  }

  /** A step's own effects in order, everything else of the invariant carries. */
  lemma Carried(s: Sys, s': Sys, own: Option<GenId>, id: RunId)
    requires Inv(s) && Moves(s, s', own)
    requires own.Some? ==> !Dead(s, own.value)
    requires LedgerOk(s') && MintsOk(s')
    requires forall other :: other in s'.runs && other != id ==> other in s.runs && s'.runs[other] == s.runs[other]
    requires id in s'.runs && s'.runs[id].Pass? ==> PassOk(s', s'.runs[id])
    requires forall gen :: gen in s'.deleted ==>
               if gen in s.deleted then s'.deleted[gen] == s.deleted[gen] else DeletionOk(s', gen, s'.deleted[gen])
    requires forall gen, snapshot :: (gen, snapshot) in s'.digests && (gen, snapshot) !in s.digests ==>
               DigestOk(s', gen, snapshot)
    ensures Inv(s')
  {
    forall gen, snapshot | (gen, snapshot) in s'.digests ensures DigestOk(s', gen, snapshot) {
      if (gen, snapshot) in s.digests { DigestKept(s, s', own, gen, snapshot); }
    }
    forall gen | gen in s'.deleted ensures DeletionOk(s', gen, s'.deleted[gen]) {
      if gen in s.deleted {
        assert DeletionOk(s, gen, s.deleted[gen]);
        DeletionKept(s, s', own, gen, s.deleted[gen]);
      }
    }
    forall other | other in s'.runs && s'.runs[other].Pass? ensures PassOk(s', s'.runs[other]) {
      if other != id { PassKept(s, s', own, s.runs[other]); }
    }
  }

  lemma NeverReturnsExtended(account: seq<Option<GenId>>, x: Option<GenId>)
    requires 0 < |account| && NeverReturns(account)
    requires x == account[|account| - 1] || x !in account
    ensures NeverReturns(account + [x])
  {
  }

  /** A mint whose generation a step leaves alone. */
  lemma MintOkKept(s: Sys, s': Sys, run: Run)
    requires run.Mint? && MintOk(s, run) && s.used <= s'.used && !Pointed(s', run.gen)
    requires run.gen in s'.gens ==> run.gen in s.gens && s'.gens[run.gen] == s.gens[run.gen]
    ensures MintOk(s', run)
  {
  }

  lemma PointedOkKept(s: Sys, s': Sys, gen: GenId)
    requires PointedOk(s, gen) && s.used <= s'.used && s.time <= s'.time && s.skew == s'.skew
    requires gen in s'.pointedAt && s'.pointedAt[gen] == s.pointedAt[gen]
    requires gen in s'.gens ==> gen in s.gens
    requires gen in s'.gens && s'.gens[gen] != s.gens[gen] ==>
               exists e :: Extends(s.gens[gen], e) && s'.gens[gen] == s.gens[gen] + [e]
    ensures PointedOk(s', gen)
  {
  }

  lemma WorldLedger(s: Sys, s': Sys, step: Step)
    requires LedgerOk(s) && WorldNext(s, s', step)
    ensures LedgerOk(s')
  {
    if step.OtherAccountEntry? { NeverReturnsExtended(s.account, Pointer(s)); }
    forall gen | Some(gen) in s'.account ensures PointedOk(s', gen) { PointedOkKept(s, s', gen); }
    assert s'.gens.Keys == s.gens.Keys;
  }

  lemma WorldMints(s: Sys, s': Sys, step: Step)
    requires LedgerOk(s) && MintsOk(s) && WorldNext(s, s', step)
    ensures MintsOk(s')
  {
    forall other | other in s'.runs && s'.runs[other].Mint? ensures MintOk(s', s'.runs[other]) {
      assert MintOk(s, s.runs[other]);
      MintOkKept(s, s', s.runs[other]);
    }
  }

  lemma WorldMoves(s: Sys, s': Sys, step: Step)
    requires LedgerOk(s) && WorldNext(s, s', step)
    ensures Moves(s, s', None)
  {
  }

  lemma WorldKeeps(s: Sys, s': Sys, id: RunId, step: Step)
    requires Inv(s) && WorldNext(s, s', step)
    ensures Inv(s')
  {
    WorldLedger(s, s', step);
    WorldMints(s, s', step);
    WorldMoves(s, s', step);
    if id in s.runs && s.runs[id].Pass? { PassKept(s, s', None, s.runs[id]); }
    Carried(s, s', None, id);
  }

  lemma BeginLedger(s: Sys, s': Sys, id: RunId, step: Step)
    requires LedgerOk(s) && BeginNext(s, s', id, step)
    ensures LedgerOk(s')
  {
    assert s'.used == s'.gens.Keys + s'.deleted.Keys;
    forall gen | Some(gen) in s'.account ensures PointedOk(s', gen) { PointedOkKept(s, s', gen); }
  }

  lemma BeginMints(s: Sys, s': Sys, id: RunId, step: Step)
    requires LedgerOk(s) && MintsOk(s) && id !in s.runs && BeginNext(s, s', id, step)
    ensures MintsOk(s')
  {
    forall other | other in s'.runs && s'.runs[other].Mint? ensures MintOk(s', s'.runs[other]) {
      if other != id {
        assert MintOk(s, s.runs[other]);
        MintOkKept(s, s', s.runs[other]);
      }
    }
  }

  lemma BeginMoves(s: Sys, s': Sys, id: RunId, step: Step)
    requires LedgerOk(s) && id !in s.runs && BeginNext(s, s', id, step)
    ensures Moves(s, s', if step.BeginMint? then Some(step.gen) else None)
  {
  }

  lemma BeginKeeps(s: Sys, s': Sys, id: RunId, step: Step)
    requires Inv(s) && id !in s.runs && BeginNext(s, s', id, step)
    ensures Inv(s')
  {
    var own := if step.BeginMint? then Some(step.gen) else None;
    BeginLedger(s, s', id, step);
    BeginMints(s, s', id, step);
    BeginMoves(s, s', id, step);
    Carried(s, s', own, id);
  }

  /** A mint that keeps its timing is not minting a dead generation. */
  lemma PromptMintAlive(s: Sys, s': Sys, id: RunId, step: Step)
    requires id in s.runs && s.runs[id].Mint? && 0 < |s.account|
    requires MintNext(s, s', id, step) && Prompt(s, id, step)
    ensures !Dead(s, s.runs[id].gen)
  {
    assert !Late(s, s.runs[id]);
  }

  lemma RePointLedger(s: Sys, s': Sys, id: RunId)
    requires Inv(s) && id in s.runs && s.runs[id].Mint? && Prompt(s, id, RePoint)
    requires MintNext(s, s', id, RePoint)
    ensures LedgerOk(s')
  {
    var run := s.runs[id];
    assert MintOk(s, run) && Some(run.gen) !in s.account;
    NeverReturnsExtended(s.account, Some(run.gen));
    forall gen | Some(gen) in s'.account ensures PointedOk(s', gen) {
      if gen != run.gen { PointedOkKept(s, s', gen); }
    }
  }

  lemma MintLedger(s: Sys, s': Sys, id: RunId, step: Step)
    requires Inv(s) && id in s.runs && s.runs[id].Mint? && Prompt(s, id, step)
    requires MintNext(s, s', id, step)
    ensures LedgerOk(s')
  {
    if step.RePoint? {
      RePointLedger(s, s', id);
    } else {
      assert s'.gens.Keys == s.gens.Keys;
      assert MintOk(s, s.runs[id]);
      forall gen | Some(gen) in s'.account ensures PointedOk(s', gen) { PointedOkKept(s, s', gen); }
    }
  }

  lemma OwnMintOk(s: Sys, s': Sys, id: RunId, step: Step)
    requires 0 < |s.account| && MintsOk(s) && id in s.runs && s.runs[id].Mint? && MintNext(s, s', id, step)
    ensures id in s'.runs ==> s'.runs[id].Mint? && s'.runs[id].gen == s.runs[id].gen && MintOk(s', s'.runs[id])
  {
    assert MintOk(s, s.runs[id]);
  }

  lemma OtherMintOk(s: Sys, s': Sys, id: RunId, step: Step, other: RunId)
    requires 0 < |s.account| && MintsOk(s) && id in s.runs && s.runs[id].Mint? && MintNext(s, s', id, step)
    requires other != id && other in s'.runs && s'.runs[other].Mint?
    ensures other in s.runs && s'.runs[other] == s.runs[other] && MintOk(s', s'.runs[other])
  {
    assert MintOk(s, s.runs[other]) && s.runs[other].gen != s.runs[id].gen;
    MintOkKept(s, s', s.runs[other]);
  }

  lemma MintsAfterMint(s: Sys, s': Sys, id: RunId, step: Step)
    requires 0 < |s.account| && MintsOk(s) && id in s.runs && s.runs[id].Mint? && MintNext(s, s', id, step)
    ensures MintsOk(s')
  {
    OwnMintOk(s, s', id, step);
    forall other | other in s'.runs && s'.runs[other].Mint?
      ensures MintOk(s', s'.runs[other]) && other in s.runs && s.runs[other].Mint? && s'.runs[other].gen == s.runs[other].gen
    {
      if other != id { OtherMintOk(s, s', id, step, other); }
    }
  }

  lemma MintLogs(s: Sys, s': Sys, id: RunId, step: Step)
    requires 0 < |s.account| && id in s.runs && s.runs[id].Mint? && MintNext(s, s', id, step)
    requires MintOk(s, s.runs[id])
    ensures LogsGrow(s, s', Some(s.runs[id].gen))
  {
    forall gen ensures LogOf(s, gen) <= LogOf(s', gen) {
      if gen != s.runs[id].gen { assert LogOf(s', gen) == LogOf(s, gen); }
    }
  }

  lemma MintMoves(s: Sys, s': Sys, id: RunId, step: Step)
    requires 0 < |s.account| && id in s.runs && s.runs[id].Mint? && MintNext(s, s', id, step)
    requires MintOk(s, s.runs[id])
    ensures Moves(s, s', Some(s.runs[id].gen))
  {
    MintLogs(s, s', id, step);
    if step.RePoint? { assert !Pointed(s, s.runs[id].gen); }
  }

  lemma MintFrame(s: Sys, s': Sys, id: RunId, step: Step)
    requires 0 < |s.account| && id in s.runs && s.runs[id].Mint? && MintNext(s, s', id, step)
    ensures s'.deleted == s.deleted && s'.digests == s.digests
    ensures id in s'.runs ==> s'.runs[id].Mint?
    ensures forall other :: other in s'.runs && other != id ==> other in s.runs && s'.runs[other] == s.runs[other]
  {
  }

  lemma MintKeeps(s: Sys, s': Sys, id: RunId, step: Step)
    requires Inv(s) && id in s.runs && s.runs[id].Mint? && Prompt(s, id, step)
    requires MintNext(s, s', id, step)
    ensures Inv(s')
  {
    PromptMintAlive(s, s', id, step);
    assert MintOk(s, s.runs[id]);
    MintLedger(s, s', id, step);
    MintsAfterMint(s, s', id, step);
    MintMoves(s, s', id, step);
    MintFrame(s, s', id, step);
    Carried(s, s', Some(s.runs[id].gen), id);
  }

  // ---- Passes

  ghost predicate Unminted(s: Sys, gen: GenId) {
    forall id :: id in s.runs && s.runs[id].Mint? ==> s.runs[id].gen != gen
  }

  lemma PointedIsUnminted(s: Sys, gen: GenId)
    requires MintsOk(s) && Pointed(s, gen)
    ensures Unminted(s, gen)
  {
    forall id | id in s.runs && s.runs[id].Mint? ensures s.runs[id].gen != gen { assert MintOk(s, s.runs[id]); }
  }

  /** A generation the pointer left before a pass read the head is dead. */
  lemma SupersededIsDead(s: Sys, head: nat, gen: GenId)
    requires LedgerOk(s) && MintsOk(s) && head < |s.account|
    requires Some(gen) in s.account[..head + 1] && s.account[head] != Some(gen)
    ensures Dead(s, gen)
  {
    var i :| 0 <= i < head && s.account[i] == Some(gen);
    assert Pointed(s, gen) && PointedOk(s, gen);
    PointedIsUnminted(s, gen);
    assert i < head <= |s.account| - 1;
  }

  /** A quiet generation a pass's head read never shows was not pointed at since,
      and every mint of it is late. */
  lemma QuietIsDead(s: Sys, run: Run, head: nat, gen: GenId)
    requires LedgerOk(s) && MintsOk(s) && run.Pass? && PassOk(s, run) && HeadOk(s, head, run.startedAt)
    requires gen in s.gens && Some(gen) !in s.account[..head + 1] && GenerationQuiet(s.gens[gen], run.now)
    ensures Dead(s, gen)
  {
    forall g | Some(g) in s.account && Some(g) !in s.account[..head + 1] && g in s.gens
      ensures !GenerationQuiet(s.gens[g], run.now)
    {
      assert PointedOk(s, g);
    }
    forall id | id in s.runs && s.runs[id].Mint? && s.runs[id].gen == gen ensures Late(s, s.runs[id]) {
      assert MintOk(s, s.runs[id]);
    }
  }

  /** A generation with no log to read is dead: it was deleted, or its mint
      stopped before its genesis. */
  lemma EmptyIsDead(s: Sys, gen: GenId)
    requires Inv(s) && gen in s.used && (gen !in s.gens || s.gens[gen] == [])
    requires forall id :: id in s.runs && s.runs[id].Mint? && s.runs[id].gen == gen ==> s.runs[id].stage.Written?
    ensures Dead(s, gen)
  {
    if gen !in s.gens {
      assert DeletionOk(s, gen, s.deleted[gen]);
    } else {
      forall g | Some(g) in s.account && g in s.gens ensures s.gens[g] != [] { assert PointedOk(s, g); }
      forall id | id in s.runs && s.runs[id].Mint? ensures s.runs[id].gen != gen {
        assert MintOk(s, s.runs[id]);
      }
      assert Unminted(s, gen);
    }
  }

  /** A pass's reading condemns only what is dead. */
  lemma VerdictIsDead(s: Sys, s': Sys, id: RunId, gen: GenId)
    requires Inv(s) && id in s.runs && s.runs[id].Pass? && PassNext(s, s', id, ReadGeneration(gen))
    requires Prompt(s, id, ReadGeneration(gen))
    ensures id in s'.runs && s'.runs[id].Pass? && s'.runs[id].stageOfPass.Collecting?
    ensures gen in s'.runs[id].stageOfPass.items ==> Dead(s, gen)
  {
    var run := s.runs[id];
    var head := run.stageOfPass.head;
    assert PassOk(s, run) && ItemOk(s, head, gen, run.stageOfPass.items[gen]);
    if gen !in s.gens || s.gens[gen] == [] {
      EmptyIsDead(s, gen);
    } else if !DeferredLive(s, head, gen, s.gens[gen], run.now) {
      if Some(gen) in s.account[..head + 1] {
        SupersededIsDead(s, head, gen);
      } else {
        QuietIsDead(s, run, head, gen);
      }
    }
  }

  /** What a pass's step leaves alone: it moves no pointer and no mint, and takes
      away at most the one generation it records as deleted. */
  ghost predicate PassFrame(s: Sys, s': Sys, id: RunId, step: Step) {
    && s'.account == s.account && s'.time == s.time && s'.skew == s.skew
    && s'.used == s.used && s'.pointedAt == s.pointedAt
    && s.settled <= s'.settled && s.digests <= s'.digests
    && id in s'.runs && s'.runs[id].Pass? && s'.runs.Keys == s.runs.Keys
    && (forall other :: other in s'.runs && other != id ==> s'.runs[other] == s.runs[other])
    && (if step.Delete?
        then s'.gens == s.gens - {step.stale} && s'.deleted.Keys == s.deleted.Keys + {step.stale}
             && forall gen :: gen in s.deleted ==> s'.deleted[gen] == s.deleted[gen]
        else s'.gens == s.gens && s'.deleted == s.deleted)
  }

  /** What a pass's bookkeeping of one generation leaves alone. */
  ghost predicate ItemFrame(run: Run, run': Run, gen: GenId)
    requires run.Pass? && run.stageOfPass.Collecting?
  {
    && run'.Pass? && run'.stageOfPass.Collecting? && run' == run.(stageOfPass := run'.stageOfPass)
    && run'.stageOfPass.head == run.stageOfPass.head
    && forall other :: other in run'.stageOfPass.items && other != gen ==>
         other in run.stageOfPass.items && run'.stageOfPass.items[other] == run.stageOfPass.items[other]
  }

  lemma DeleteFrames(s: Sys, s': Sys, id: RunId, gen: GenId)
    requires 0 < |s.account| && id in s.runs && s.runs[id].Pass? && s.runs[id].stageOfPass.Collecting?
    requires CollectNext(s, s', id, Delete(gen))
    ensures PassFrame(s, s', id, Delete(gen)) && ItemFrame(s.runs[id], s'.runs[id], gen)
  {
  }

  lemma CollectFrames(s: Sys, s': Sys, id: RunId, step: Step)
    requires 0 < |s.account| && id in s.runs && s.runs[id].Pass? && s.runs[id].stageOfPass.Collecting?
    requires step.CollectStep() && CollectNext(s, s', id, step)
    ensures PassFrame(s, s', id, step) && ItemFrame(s.runs[id], s'.runs[id], step.stale)
  {
    match step
    case Delete(gen) => DeleteFrames(s, s', id, gen);
    case ReadGeneration(gen) =>
    case SettleDelegation(gen) =>
    case RecordDigest(gen) =>
    case Drop(gen) =>
  }

  lemma PassFrames(s: Sys, s': Sys, id: RunId, step: Step)
    requires 0 < |s.account| && id in s.runs && s.runs[id].Pass? && PassNext(s, s', id, step)
    ensures PassFrame(s, s', id, step)
  {
    if s.runs[id].stageOfPass.Collecting? { CollectFrames(s, s', id, step); }
  }

  lemma PassLedger(s: Sys, s': Sys, id: RunId, step: Step)
    requires LedgerOk(s) && PassFrame(s, s', id, step)
    requires step.Delete? ==> step.stale in s.used
    ensures LedgerOk(s')
  {
    forall gen | Some(gen) in s'.account ensures PointedOk(s', gen) { PointedOkKept(s, s', gen); }
  }

  lemma PassMints(s: Sys, s': Sys, id: RunId, step: Step)
    requires MintsOk(s) && id in s.runs && s.runs[id].Pass? && PassFrame(s, s', id, step)
    ensures MintsOk(s')
  {
    forall other | other in s'.runs && s'.runs[other].Mint? ensures MintOk(s', s'.runs[other]) {
      assert MintOk(s, s.runs[other]);
      MintOkKept(s, s', s.runs[other]);
    }
  }

  /** What a delete found: a generation with no log, or one already digested. */
  lemma DeleteShape(s: Sys, s': Sys, id: RunId, gen: GenId) returns (seen: Option<Snapshot>)
    requires 0 < |s.account| && id in s.runs && s.runs[id].Pass? && PassNext(s, s', id, Delete(gen))
    ensures s.runs[id].stageOfPass.Collecting? && gen in s.runs[id].stageOfPass.items
    ensures s.runs[id].stageOfPass.items[gen] == if seen.Some? then DigestRecorded(seen.value) else Condemned(None)
    ensures s'.account == s.account && s'.settled == s.settled && s'.digests == s.digests
    ensures gen in s'.deleted
    ensures gen !in s.deleted ==> s'.deleted[gen] == Deletion(|s.account| - 1, seen, LogOf(s, gen))
  {
    var item := s.runs[id].stageOfPass.items[gen];
    seen := if item.DigestRecorded? then Some(item.snapshot) else None;
  }

  lemma PassLogs(s: Sys, s': Sys, id: RunId, step: Step)
    requires LedgerOk(s) && id in s.runs && s.runs[id].Pass? && PassNext(s, s', id, step)
    requires PassFrame(s, s', id, step)
    ensures LogsGrow(s, s', None)
  {
    if step.Delete? { var seen := DeleteShape(s, s', id, step.stale); }
  }

  lemma PassMoves(s: Sys, s': Sys, id: RunId, step: Step)
    requires LedgerOk(s) && id in s.runs && s.runs[id].Pass? && PassNext(s, s', id, step)
    requires PassFrame(s, s', id, step)
    ensures Moves(s, s', None)
  {
    PassLogs(s, s', id, step);
  }

  lemma CollectedItem(s: Sys, id: RunId, gen: GenId)
    requires Inv(s) && id in s.runs && s.runs[id].Pass? && s.runs[id].stageOfPass.Collecting?
    requires gen in s.runs[id].stageOfPass.items
    ensures s.runs[id].stageOfPass.head < |s.account|
    ensures ItemOk(s, s.runs[id].stageOfPass.head, gen, s.runs[id].stageOfPass.items[gen])
  {
    assert PassOk(s, s.runs[id]);
  }

  /** What a pass condemns is dead, with the log it read or with none. */
  lemma ReadItem(s: Sys, s': Sys, id: RunId, gen: GenId)
    requires Inv(s) && id in s.runs && s.runs[id].Pass? && s.runs[id].stageOfPass.Collecting?
    requires PassNext(s, s', id, ReadGeneration(gen)) && Prompt(s, id, ReadGeneration(gen))
    ensures id in s'.runs && s'.runs[id].Pass? && s'.runs[id].stageOfPass.Collecting?
    ensures gen in s'.runs[id].stageOfPass.items ==>
              ItemOk(s, s.runs[id].stageOfPass.head, gen, s'.runs[id].stageOfPass.items[gen])
  {
    CollectedItem(s, id, gen);
    VerdictIsDead(s, s', id, gen);
    if gen in s.gens { assert s.gens[gen][..|s.gens[gen]|] == s.gens[gen]; }
  }

  lemma ReadItemAfter(s: Sys, s': Sys, id: RunId, gen: GenId)
    requires Inv(s) && id in s.runs && s.runs[id].Pass? && s.runs[id].stageOfPass.Collecting?
    requires PassNext(s, s', id, ReadGeneration(gen)) && Prompt(s, id, ReadGeneration(gen))
    requires Moves(s, s', None)
    ensures id in s'.runs && s'.runs[id].Pass? && s'.runs[id].stageOfPass.Collecting?
    ensures gen in s'.runs[id].stageOfPass.items ==>
              ItemOk(s', s.runs[id].stageOfPass.head, gen, s'.runs[id].stageOfPass.items[gen])
  {
    ReadItem(s, s', id, gen);
    CollectedItem(s, id, gen);
    if gen in s'.runs[id].stageOfPass.items {
      ItemKept(s, s', None, s.runs[id].stageOfPass.head, gen, s'.runs[id].stageOfPass.items[gen]);
    }
  }

  /** Settling, digesting, deleting and giving up, seen from the one item. */
  lemma CollectShape(s: Sys, s': Sys, id: RunId, step: Step)
    requires 0 < |s.account| && id in s.runs && s.runs[id].Pass? && s.runs[id].stageOfPass.Collecting?
    requires PassNext(s, s', id, step) && !step.ReadGeneration?
    ensures step.CollectStep() && step.stale in s.runs[id].stageOfPass.items
    ensures id in s'.runs && s'.runs[id].Pass? && s'.runs[id].stageOfPass.Collecting?
    ensures var item, items := s.runs[id].stageOfPass.items[step.stale], s'.runs[id].stageOfPass.items;
            match step
            case SettleDelegation(gen) =>
              item.Condemned? && item.seen.Some? && gen in items && items[gen] == DelegationSettled(item.seen.value)
              && (item.seen.value.delegation.Some? ==> item.seen.value.delegation.value in s'.settled)
              && s'.digests == s.digests
            case RecordDigest(gen) =>
              item.DelegationSettled? && gen in items && items[gen] == DigestRecorded(item.snapshot)
              && s'.digests == s.digests + {(gen, item.snapshot)}
            case _ => step.stale !in items && s'.digests == s.digests
  {
  }

  lemma HandledItem(s: Sys, s': Sys, head: nat, gen: GenId, snapshot: Snapshot, item: Item)
    requires head < |s.account| && Moves(s, s', None) && ItemOk(s, head, gen, item)
    requires item == Condemned(Some(snapshot)) || item == DelegationSettled(snapshot)
    requires snapshot.delegation.Some? ==> snapshot.delegation.value in s'.settled
    ensures ItemOk(s', head, gen, DelegationSettled(snapshot))
    ensures (gen, snapshot) in s'.digests ==> ItemOk(s', head, gen, DigestRecorded(snapshot))
  {
    ItemKept(s, s', None, head, gen, item);
  }

  lemma WorkedItem(s: Sys, s': Sys, id: RunId, step: Step)
    requires Inv(s) && id in s.runs && s.runs[id].Pass? && s.runs[id].stageOfPass.Collecting?
    requires PassNext(s, s', id, step) && Moves(s, s', None) && (step.SettleDelegation? || step.RecordDigest?)
    ensures id in s'.runs && s'.runs[id].Pass? && s'.runs[id].stageOfPass.Collecting?
    ensures step.stale in s'.runs[id].stageOfPass.items && s.runs[id].stageOfPass.head < |s'.account|
    ensures ItemOk(s', s.runs[id].stageOfPass.head, step.stale, s'.runs[id].stageOfPass.items[step.stale])
  {
    CollectShape(s, s', id, step);
    CollectedItem(s, id, step.stale);
    var head, item := s.runs[id].stageOfPass.head, s.runs[id].stageOfPass.items[step.stale];
    HandledItem(s, s', head, step.stale, if item.Condemned? then item.seen.value else item.snapshot, item);
  }

  /** The generation a pass works on next is in order after the step. */
  lemma ItemAfter(s: Sys, s': Sys, id: RunId, step: Step)
    requires Inv(s) && id in s.runs && s.runs[id].Pass? && s.runs[id].stageOfPass.Collecting?
    requires PassNext(s, s', id, step) && Prompt(s, id, step) && Moves(s, s', None)
    ensures step.CollectStep() && id in s'.runs && s'.runs[id].Pass? && s'.runs[id].stageOfPass.Collecting?
    ensures var head, items := s.runs[id].stageOfPass.head, s'.runs[id].stageOfPass.items;
            step.stale in items ==> head < |s'.account| && ItemOk(s', head, step.stale, items[step.stale])
  {
    if step.ReadGeneration? {
      ReadItemAfter(s, s', id, step.stale);
    } else {
      CollectShape(s, s', id, step);
      if step.SettleDelegation? || step.RecordDigest? { WorkedItem(s, s', id, step); }
    }
  }

  lemma CollectAfter(s: Sys, s': Sys, id: RunId, step: Step)
    requires Inv(s) && id in s.runs && s.runs[id].Pass? && s.runs[id].stageOfPass.Collecting?
    requires PassNext(s, s', id, step) && Prompt(s, id, step) && Moves(s, s', None)
    ensures id in s'.runs && s'.runs[id].Pass? && PassOk(s', s'.runs[id])
  {
    var run := s.runs[id];
    CollectFrames(s, s', id, step);
    ItemAfter(s, s', id, step);
    PassKept(s, s', None, run);
    var items, items' := run.stageOfPass.items, s'.runs[id].stageOfPass.items;
    forall gen | gen in items' ensures ItemOk(s', run.stageOfPass.head, gen, items'[gen]) {
      if gen != step.stale { assert items'[gen] == items[gen]; }
    }
  }

  lemma PassAfter(s: Sys, s': Sys, id: RunId, step: Step)
    requires Inv(s) && id in s.runs && s.runs[id].Pass?
    requires PassNext(s, s', id, step) && Prompt(s, id, step) && Moves(s, s', None)
    ensures id in s'.runs && s'.runs[id].Pass? && PassOk(s', s'.runs[id])
  {
    assert PassOk(s, s.runs[id]);
    match s.runs[id].stageOfPass
    case Starting =>
    case HeadRead(head) =>
    case Collecting(_, _) => CollectAfter(s, s', id, step);
  }

  lemma DeletionRecorded(s: Sys, s': Sys, gen: GenId, seen: Option<Snapshot>)
    requires Moves(s, s', None) && Dead(s, gen) && s'.account == s.account && gen !in s'.gens
    requires match seen
             case None => LogOf(s, gen) == []
             case Some(snapshot) => ReadOf(LogOf(s, gen), snapshot) && SnapshotHandled(s, gen, snapshot)
    ensures DeletionOk(s', gen, Deletion(|s.account| - 1, seen, LogOf(s, gen)))
  {
    DeadKept(s, s', None, gen);
  }

  /** A delete lands on a dead generation, which had no log or one settled and
      digested as far as it was read. */
  lemma DeleteIsOk(s: Sys, s': Sys, id: RunId, gen: GenId)
    requires Inv(s) && id in s.runs && s.runs[id].Pass? && PassNext(s, s', id, Delete(gen))
    requires Moves(s, s', None)
    ensures gen in s.used
    ensures gen in s'.deleted && (gen !in s.deleted ==> DeletionOk(s', gen, s'.deleted[gen]))
  {
    var seen := DeleteShape(s, s', id, gen);
    CollectedItem(s, id, gen);
    PassFrames(s, s', id, Delete(gen));
    if gen !in s.deleted { DeletionRecorded(s, s', gen, seen); }
  }

  lemma RecordIsOk(s: Sys, s': Sys, id: RunId, step: Step)
    requires Inv(s) && id in s.runs && s.runs[id].Pass? && PassNext(s, s', id, step)
    requires Moves(s, s', None)
    ensures forall gen, snapshot :: (gen, snapshot) in s'.digests && (gen, snapshot) !in s.digests ==>
              DigestOk(s', gen, snapshot)
  {
    if s.runs[id].stageOfPass.Collecting? && !step.ReadGeneration? {
      CollectShape(s, s', id, step);
      if step.RecordDigest? { WorkedItem(s, s', id, step); }
    }
  }

  lemma PassCarried(s: Sys, s': Sys, id: RunId, step: Step)
    requires Inv(s) && PassFrame(s, s', id, step) && Moves(s, s', None)
    requires LedgerOk(s') && MintsOk(s') && PassOk(s', s'.runs[id])
    requires step.Delete? ==> step.stale in s.deleted || DeletionOk(s', step.stale, s'.deleted[step.stale])
    requires forall gen, snapshot :: (gen, snapshot) in s'.digests && (gen, snapshot) !in s.digests ==>
               DigestOk(s', gen, snapshot)
    ensures Inv(s')
  {
    Carried(s, s', None, id);
  }

  lemma PassKeeps(s: Sys, s': Sys, id: RunId, step: Step)
    requires Inv(s) && id in s.runs && s.runs[id].Pass? && Prompt(s, id, step)
    requires PassNext(s, s', id, step)
    ensures Inv(s')
  {
    PassFrames(s, s', id, step);
    PassMoves(s, s', id, step);
    if step.Delete? { DeleteIsOk(s, s', id, step.stale); }
    PassLedger(s, s', id, step);
    PassMints(s, s', id, step);
    PassAfter(s, s', id, step);
    RecordIsOk(s, s', id, step);
    PassCarried(s, s', id, step);
  }

  lemma CrashKeeps(s: Sys, id: RunId)
    requires Inv(s) && id in s.runs
    ensures Inv(Ended(s, id))
  {
    var s' := Ended(s, id);
    forall other | other in s'.runs && s'.runs[other].Mint? ensures MintOk(s', s'.runs[other]) {
      assert MintOk(s, s.runs[other]);
    }
    forall gen | Some(gen) in s'.account ensures PointedOk(s', gen) { PointedOkKept(s, s', gen); }
    Carried(s, s', None, id);
  }

  /** Every step of every run that keeps the mints' timing keeps the invariant. */
  lemma StepKeeps(s: Sys, s': Sys, id: RunId, step: Step)
    requires Inv(s) && Next(s, s', id, step) && Prompt(s, id, step)
    ensures Inv(s')
  {
    if step.Tick? || step.OtherAccountEntry? || step.Visit? || step.Revoke? {
      WorldKeeps(s, s', id, step);
    } else if step.BeginMint? || step.BeginPass? {
      BeginKeeps(s, s', id, step);
    } else if step.Crash? {
      CrashKeeps(s, id);
    } else if s.runs[id].Mint? {
      MintKeeps(s, s', id, step);
    } else {
      PassKeeps(s, s', id, step);
    }
  }

  // ---- Whole runs

  datatype Move = Move(id: RunId, step: Step)

  ghost predicate Execution(states: seq<Sys>, moves: seq<Move>) {
    && |states| == |moves| + 1 && Init(states[0])
    && forall i :: 0 <= i < |moves| ==> Next(states[i], states[i + 1], moves[i].id, moves[i].step)
  }

  ghost predicate Timely(states: seq<Sys>, moves: seq<Move>)
    requires |states| == |moves| + 1
  {
    forall i :: 0 <= i < |moves| ==> Prompt(states[i], moves[i].id, moves[i].step)
  }

  lemma {:induction false} ReachableIsOk(states: seq<Sys>, moves: seq<Move>, n: nat)
    requires Execution(states, moves) && Timely(states, moves) && n < |states|
    ensures Inv(states[n])
  {
    if n == 0 {
      InitHolds(states[0]);
    } else {
      ReachableIsOk(states, moves, n - 1);
      StepKeeps(states[n - 1], states[n], moves[n - 1].id, moves[n - 1].step);
    }
  }

  /** Deletes are kept, and the account log only grows. */
  ghost predicate Later(s: Sys, s': Sys) {
    && s.account <= s'.account
    && forall gen :: gen in s.deleted ==> gen in s'.deleted && s'.deleted[gen] == s.deleted[gen]
  }

  lemma LaterStep(s: Sys, s': Sys, id: RunId, step: Step)
    requires Next(s, s', id, step)
    ensures Later(s, s')
  {
    if id in s.runs && !step.Tick? && !step.OtherAccountEntry? && !step.Visit? && !step.Revoke? && !step.Crash?
       && !step.BeginMint? && !step.BeginPass? && s.runs[id].Pass? {
      PassFrames(s, s', id, step);
    }
  }

  lemma LaterStill(s: Sys, s': Sys, s'': Sys)
    requires Later(s, s') && Later(s', s'')
    ensures Later(s, s'')
  {
  }

  lemma {:induction false} DeletesStay(states: seq<Sys>, moves: seq<Move>, i: nat, j: nat)
    requires Execution(states, moves) && i <= j < |states|
    ensures Later(states[i], states[j])
    decreases j - i
  {
    if i < j {
      DeletesStay(states, moves, i, j - 1);
      LaterStep(states[j - 1], states[j], moves[j - 1].id, moves[j - 1].step);
      LaterStill(states[i], states[j - 1], states[j]);
    }
  }

  /** Whatever swaps and passes race, and wherever they stop: no generation is
      deleted that the account log points at from that moment on, in that state
      or any later one. One deleted unread had no log; one deleted after a read
      had the log that was read, perhaps with entries after it, and the
      delegation that reading found was settled and its digest recorded. */
  lemma NoDeletedGenerationIsPointedAt(states: seq<Sys>, moves: seq<Move>, i: nat, j: nat, gen: GenId)
    requires Execution(states, moves) && Timely(states, moves) && i <= j < |states|
    requires gen in states[i].deleted
    ensures forall k :: states[i].deleted[gen].at <= k < |states[j].account| ==> states[j].account[k] != Some(gen)
    ensures match states[i].deleted[gen].seen
            case None => states[i].deleted[gen].log == []
            case Some(snapshot) =>
              ReadOf(states[i].deleted[gen].log, snapshot) && SnapshotHandled(states[i], gen, snapshot)
  {
    ReachableIsOk(states, moves, i);
    ReachableIsOk(states, moves, j);
    DeletesStay(states, moves, i, j);
    assert DeletionOk(states[i], gen, states[i].deleted[gen]) && DeletionOk(states[j], gen, states[j].deleted[gen]);
  }

  /** What a delete destroys was handled, exactly when no entry has landed since
      some pass read the log it recorded a digest of: the pass that deletes does
      not read again. */
  lemma HandledAtDeleteIff(states: seq<Sys>, moves: seq<Move>, i: nat, gen: GenId)
    requires Execution(states, moves) && Timely(states, moves) && i < |moves|
    requires moves[i].step == Delete(gen) && gen in states[i].gens
    ensures gen in states[i + 1].deleted && states[i + 1].deleted[gen].log == states[i].gens[gen]
    ensures gen !in states[i + 1].gens
    ensures LogHandled(states[i], gen, states[i].gens[gen]) <==>
            states[i].gens[gen] == [] || DigestOfLength(states[i], gen, |states[i].gens[gen]|)
  {
    var s := states[i];
    ReachableIsOk(states, moves, i);
    DigestCoversIff(s, gen);
    PassFrames(s, states[i + 1], moves[i].id, moves[i].step);
    var seen := DeleteShape(s, states[i + 1], moves[i].id, gen);
  }

  ghost predicate DigestOfLength(s: Sys, gen: GenId, n: nat) {
    exists snapshot :: (gen, snapshot) in s.digests && snapshot.count == n
  }

  lemma DigestCoversIff(s: Sys, gen: GenId)
    requires Inv(s) && gen in s.gens
    ensures LogHandled(s, gen, s.gens[gen]) <==>
            s.gens[gen] == [] || DigestOfLength(s, gen, |s.gens[gen]|)
  {
    var log := s.gens[gen];
    assert log[..|log|] == log;
    if log != [] && LogHandled(s, gen, log) {
      assert SnapshotOf(log).count == |log| && (gen, SnapshotOf(log)) in s.digests;
    }
    if log != [] && DigestOfLength(s, gen, |log|) {
      var snapshot :| (gen, snapshot) in s.digests && snapshot.count == |log|;
      assert DigestOk(s, gen, snapshot);
    }
  }

  // ---- The pointer, whatever the timing

  /** A mint in flight was never pointed at, and no other mint shares its id. */
  ghost predicate PointerInv(s: Sys) {
    && 0 < |s.account| && NeverReturns(s.account)
    && (forall gen :: Some(gen) in s.account ==> gen in s.used)
    && (forall id :: id in s.runs && s.runs[id].Mint? ==>
          s.runs[id].gen in s.used && Some(s.runs[id].gen) !in s.account)
    && (forall a, b :: a in s.runs && b in s.runs && s.runs[a].Mint? && s.runs[b].Mint? && a != b ==>
          s.runs[a].gen != s.runs[b].gen)
  }

  lemma PointerMint(s: Sys, s': Sys, id: RunId, step: Step)
    requires PointerInv(s) && id in s.runs && s.runs[id].Mint? && MintNext(s, s', id, step)
    ensures PointerInv(s')
  {
    if step.RePoint? { NeverReturnsExtended(s.account, Some(s.runs[id].gen)); }
  }

  lemma PointerOther(s: Sys, s': Sys, id: RunId, step: Step)
    requires PointerInv(s) && s'.account == s.account && s'.used == s.used
    requires forall other :: other in s'.runs && s'.runs[other].Mint? ==>
               other in s.runs && s'.runs[other] == s.runs[other]
    ensures PointerInv(s')
  {
  }

  lemma PointerStep(s: Sys, s': Sys, id: RunId, step: Step)
    requires PointerInv(s) && Next(s, s', id, step)
    ensures PointerInv(s')
  {
    if step.Tick? || step.OtherAccountEntry? || step.Visit? || step.Revoke? {
      NeverReturnsExtended(s.account, Pointer(s));
    } else if step.BeginMint? || step.BeginPass? {
    } else if step.Crash? {
      PointerOther(s, s', id, step);
    } else if s.runs[id].Mint? {
      PointerMint(s, s', id, step);
    } else {
      PassFrames(s, s', id, step);
      PointerOther(s, s', id, step);
    }
  }

  /** The pointer never returns to a generation it left, however late any mint
      re-points and whatever a pass reads. */
  lemma {:induction false} PointerNeverReturns(states: seq<Sys>, moves: seq<Move>, n: nat)
    requires Execution(states, moves) && n < |states|
    ensures PointerInv(states[n])
  {
    if n > 0 {
      PointerNeverReturns(states, moves, n - 1);
      PointerStep(states[n - 1], states[n], moves[n - 1].id, moves[n - 1].step);
    }
  }

  /** A re-point that landed, by a mint that expects `expected` if it checks. */
  ghost predicate Lands(states: seq<Sys>, moves: seq<Move>, i: nat, expected: Option<Option<GenId>>)
    requires Execution(states, moves) && i < |moves|
  {
    var id := moves[i].id;
    && moves[i].step.RePoint? && id in states[i].runs && states[i].runs[id].Mint?
    && states[i].runs[id].expected == expected
    && states[i + 1].account == states[i].account + [Some(states[i].runs[id].gen)]
  }

  /** Of any number of swaps that expect one pointer, whatever their timing, at
      most one lands, and it finds that pointer standing: the others refuse. */
  lemma OneSwapLands(states: seq<Sys>, moves: seq<Move>, i: nat, j: nat, expected: Option<GenId>)
    requires Execution(states, moves) && i <= j < |moves|
    requires Lands(states, moves, i, Some(expected)) && Lands(states, moves, j, Some(expected))
    ensures i == j && 0 < |states[i].account| && Pointer(states[i]) == expected
  {
    LandsAsExpected(states, moves, i, expected);
    LandsAsExpected(states, moves, j, expected);
    if i < j { LandedIsLeft(states, moves, i, j, expected); }
  }

  lemma LandedIsLeft(states: seq<Sys>, moves: seq<Move>, i: nat, j: nat, expected: Option<GenId>)
    requires Execution(states, moves) && i < |moves| && i < j < |states|
    requires Lands(states, moves, i, Some(expected))
    ensures 0 < |states[j].account| && Pointer(states[j]) != expected
  {
    PointerNeverReturns(states, moves, j);
    LandsAsExpected(states, moves, i, expected);
    DeletesStay(states, moves, i + 1, j);
    LeftForGood(states[j].account, states[i + 1].account, |states[i].account| - 1);
  }

  lemma LeftForGood(account: seq<Option<GenId>>, before: seq<Option<GenId>>, p: nat)
    requires NeverReturns(account) && before <= account && p + 1 < |before| && before[p] != before[p + 1]
    ensures account[|account| - 1] != before[p]
  {
    assert account[p] == before[p] && account[p + 1] == before[p + 1];
  }

  lemma LandsAsExpected(states: seq<Sys>, moves: seq<Move>, i: nat, expected: Option<GenId>)
    requires Execution(states, moves) && i < |moves| && Lands(states, moves, i, Some(expected))
    ensures 0 < |states[i].account| && Pointer(states[i]) == expected
    ensures Some(states[i].runs[moves[i].id].gen) != expected
  {
    PointerNeverReturns(states, moves, i);
    assert MintNext(states[i], states[i + 1], moves[i].id, RePoint);
  }

  // ---- The timing is needed, to the millisecond

  lemma OneMoreStep(states: seq<Sys>, moves: seq<Move>, s': Sys, id: RunId, step: Step)
    requires Execution(states, moves) && Timely(states, moves)
    requires Next(states[|moves|], s', id, step) && Prompt(states[|moves|], id, step)
    ensures Execution(states + [s'], moves + [Move(id, step)])
    ensures Timely(states + [s'], moves + [Move(id, step)])
    ensures (states + [s'])[|moves| + 1] == s'
  {
  }

  const GENESIS: seq<AnnexEntry> := [AnnexEntry(0, None)]
  const DIGEST: Snapshot := Snapshot(None, 0, 0, 1)

  /** One generation minted at time 0 and a pass whose clock runs ahead by the
      whole skew. */
  function LateMint(gen: GenId, skew: nat, time: int, log: seq<AnnexEntry>, stage: MintStage): Sys {
    Sys(time, skew, [None], map[gen := log], {gen}, map[], {}, {}, map[], map[0 := Mint(gen, None, 0, stage)])
  }

  function LatePass(gen: GenId, skew: nat, stage: PassStage): Sys {
    var s := LateMint(gen, skew, QUIET_FOR - skew, GENESIS, Written(0));
    s.(runs := s.runs[1 := Pass(gen.space, QUIET_FOR, QUIET_FOR - skew, stage)])
  }

  function LateItem(gen: GenId, skew: nat, item: Item): Sys {
    LatePass(gen, skew, Collecting(0, map[gen := item]))
  }

  function LateDeleted(gen: GenId, skew: nat): Sys {
    LatePass(gen, skew, Collecting(0, map[])).(
      gens := map[], digests := {(gen, DIGEST)}, deleted := map[gen := Deletion(0, Some(DIGEST), GENESIS)])
  }

  lemma LateGenesis(gen: GenId, skew: nat) returns (states: seq<Sys>, moves: seq<Move>)
    ensures Execution(states, moves) && Timely(states, moves)
    ensures states[|moves|] == LateMint(gen, skew, 0, GENESIS, Written(0))
  {
    var start := Sys(0, skew, [None], map[], {}, map[], {}, {}, map[], map[]);
    var created := LateMint(gen, skew, 0, [], Created);
    assert start.used + {gen} == created.used;
    OneMoreStep([start], [], created, 0, BeginMint(gen, 0, None));
    states, moves := [start] + [created], [] + [Move(0, BeginMint(gen, 0, None))];
    OneMoreStep(states, moves, LateMint(gen, skew, 0, GENESIS, Written(0)), 0, PutGenesis(0));
    states := states + [LateMint(gen, skew, 0, GENESIS, Written(0))];
    moves := moves + [Move(0, PutGenesis(0))];
  }

  lemma LatePassSteps(gen: GenId, skew: nat)
    requires skew <= QUIET_FOR
    ensures Next(LateMint(gen, skew, 0, GENESIS, Written(0)), LateMint(gen, skew, QUIET_FOR - skew, GENESIS, Written(0)),
                 1, Tick(QUIET_FOR - skew))
    ensures Next(LateMint(gen, skew, QUIET_FOR - skew, GENESIS, Written(0)), LatePass(gen, skew, Starting),
                 1, BeginPass(gen.space, QUIET_FOR))
  {
  }

  lemma LateReadHead(gen: GenId, skew: nat)
    ensures Next(LatePass(gen, skew, Starting), LatePass(gen, skew, HeadRead(0)), 1, ReadHead)
  {
    assert LatePass(gen, skew, Starting).runs[1 := LatePass(gen, skew, HeadRead(0)).runs[1]] ==
           LatePass(gen, skew, HeadRead(0)).runs;
  }

  lemma LateList(gen: GenId, skew: nat)
    ensures Next(LatePass(gen, skew, HeadRead(0)), LateItem(gen, skew, Stale), 1, ListSpace)
  {
    var s := LatePass(gen, skew, HeadRead(0));
    assert StaleIn(s, gen.space, None) == map[gen := Stale];
    assert s.runs[1 := LateItem(gen, skew, Stale).runs[1]] == LateItem(gen, skew, Stale).runs;
  }

  lemma LateItemSet(gen: GenId, skew: nat, item: Item, item': Item)
    ensures WithItem(LateItem(gen, skew, item), 1, gen, item') == LateItem(gen, skew, item')
  {
    assert map[gen := item][gen := item'] == map[gen := item'];
    assert LateItem(gen, skew, item).runs[1 := LateItem(gen, skew, item').runs[1]] == LateItem(gen, skew, item').runs;
  }

  lemma LateVerdict(gen: GenId, skew: nat)
    ensures Next(LateItem(gen, skew, Stale), LateItem(gen, skew, Condemned(Some(DIGEST))), 1, ReadGeneration(gen))
    ensures Prompt(LateItem(gen, skew, Stale), 1, ReadGeneration(gen))
  {
    LateItemSet(gen, skew, Stale, Condemned(Some(DIGEST)));
  }

  lemma LateSettled(gen: GenId, skew: nat)
    ensures Next(LateItem(gen, skew, Condemned(Some(DIGEST))), LateItem(gen, skew, DelegationSettled(DIGEST)),
                 1, SettleDelegation(gen))
  {
    LateItemSet(gen, skew, Condemned(Some(DIGEST)), DelegationSettled(DIGEST));
    var none: set<DelegationId> := {};
    assert none + none == none;
  }

  function LateDigested(gen: GenId, skew: nat): Sys {
    LateItem(gen, skew, DigestRecorded(DIGEST)).(digests := {(gen, DIGEST)})
  }

  lemma LateDigest(gen: GenId, skew: nat)
    ensures Next(LateItem(gen, skew, DelegationSettled(DIGEST)), LateDigested(gen, skew), 1, RecordDigest(gen))
  {
    LateItemSet(gen, skew, DelegationSettled(DIGEST), DigestRecorded(DIGEST));
    var none: set<(GenId, Snapshot)> := {};
    assert none + {(gen, DIGEST)} == {(gen, DIGEST)};
  }

  lemma LateDelete(gen: GenId, skew: nat)
    ensures Next(LateDigested(gen, skew), LateDeleted(gen, skew), 1, Delete(gen))
  {
    var s := LateDigested(gen, skew);
    assert map[gen := DigestRecorded(DIGEST)] - {gen} == map[];
    assert s.runs[1 := LateDeleted(gen, skew).runs[1]] == LateDeleted(gen, skew).runs;
    assert s.gens - {gen} == map[];
    var none: map<GenId, Deletion> := map[];
    assert none[gen := Deletion(0, Some(DIGEST), GENESIS)] == map[gen := Deletion(0, Some(DIGEST), GENESIS)];
  }

  lemma LateListed(gen: GenId, skew: nat) returns (states: seq<Sys>, moves: seq<Move>)
    requires skew <= QUIET_FOR
    ensures Execution(states, moves) && Timely(states, moves) && states[|moves|] == LateItem(gen, skew, Stale)
  {
    states, moves := LateGenesis(gen, skew);
    LatePassSteps(gen, skew);
    LateReadHead(gen, skew);
    LateList(gen, skew);
    states, moves := Stepped(states, moves, LateMint(gen, skew, QUIET_FOR - skew, GENESIS, Written(0)), 1, Tick(QUIET_FOR - skew));
    states, moves := Stepped(states, moves, LatePass(gen, skew, Starting), 1, BeginPass(gen.space, QUIET_FOR));
    states, moves := Stepped(states, moves, LatePass(gen, skew, HeadRead(0)), 1, ReadHead);
    states, moves := Stepped(states, moves, LateItem(gen, skew, Stale), 1, ListSpace);
  }

  lemma Stepped(states: seq<Sys>, moves: seq<Move>, s': Sys, id: RunId, step: Step)
    returns (states': seq<Sys>, moves': seq<Move>)
    requires Execution(states, moves) && Timely(states, moves)
    requires Next(states[|moves|], s', id, step) && Prompt(states[|moves|], id, step)
    ensures Execution(states', moves') && Timely(states', moves') && states'[|moves'|] == s'
  {
    OneMoreStep(states, moves, s', id, step);
    states', moves' := states + [s'], moves + [Move(id, step)];
  }

  lemma LateCollected(gen: GenId, skew: nat) returns (states: seq<Sys>, moves: seq<Move>)
    requires skew <= QUIET_FOR
    ensures Execution(states, moves) && Timely(states, moves) && states[|moves|] == LateDeleted(gen, skew)
  {
    states, moves := LateListed(gen, skew);
    LateVerdict(gen, skew);
    LateSettled(gen, skew);
    LateDigest(gen, skew);
    LateDelete(gen, skew);
    states, moves := Stepped(states, moves, LateItem(gen, skew, Condemned(Some(DIGEST))), 1, ReadGeneration(gen));
    states, moves := Stepped(states, moves, LateItem(gen, skew, DelegationSettled(DIGEST)), 1, SettleDelegation(gen));
    states, moves := Stepped(states, moves, LateDigested(gen, skew), 1, RecordDigest(gen));
    states, moves := Stepped(states, moves, LateDeleted(gen, skew), 1, Delete(gen));
  }

  /** A mint whose re-point lands at the very moment the bound ends can point the
      account at a generation already deleted, though every step before it kept
      the timing. */
  lemma LateRePointIsDangling(gen: GenId, skew: nat) returns (states: seq<Sys>, moves: seq<Move>, s: Sys, s': Sys)
    requires skew <= QUIET_FOR
    ensures Execution(states, moves) && Timely(states, moves) && s == states[|moves|]
    ensures 0 in s.runs && s.runs[0] == Mint(gen, None, 0, Written(0)) && s.time == 0 + QUIET_FOR - s.skew
    ensures Next(s, s', 0, RePoint) && gen in s'.deleted && Pointer(s') == Some(gen)
  {
    states, moves := LateCollected(gen, skew);
    s := LateDeleted(gen, skew);
    s' := Ended(s, 0).(account := s.account + [Some(gen)], pointedAt := s.pointedAt[gen := s.time]);
  }

  // ---- A generation read before its genesis

  /** Every mint kept its time, and no pass but one reading `gen` read a generation
      before its genesis. */
  ghost predicate TimelyBut(states: seq<Sys>, moves: seq<Move>, gen: GenId)
    requires Execution(states, moves)
  {
    forall i :: 0 <= i < |moves| ==>
      && MintsInTime(states[i], moves[i].id, moves[i].step)
      && (ReadsAfterGenesis(states[i], moves[i].step) || moves[i].step == ReadGeneration(gen))
  }

  lemma SteppedEarly(states: seq<Sys>, moves: seq<Move>, gen: GenId, s': Sys, id: RunId, step: Step)
    returns (states': seq<Sys>, moves': seq<Move>)
    requires Execution(states, moves) && TimelyBut(states, moves, gen)
    requires Next(states[|moves|], s', id, step) && MintsInTime(states[|moves|], id, step)
    requires ReadsAfterGenesis(states[|moves|], step) || step == ReadGeneration(gen)
    ensures Execution(states', moves') && TimelyBut(states', moves', gen) && states'[|moves'|] == s'
  {
    states', moves' := states + [s'], moves + [Move(id, step)];
    forall i | 0 <= i < |moves'| ensures Next(states'[i], states'[i + 1], moves'[i].id, moves'[i].step) {
      if i < |moves| { assert states'[i] == states[i] && states'[i + 1] == states[i + 1] && moves'[i] == moves[i]; }
    }
  }

  /** A mint between its creation and its re-point, and a pass over its Space. */
  function Early(gen: GenId, skew: nat, log: seq<AnnexEntry>, mint: MintStage, stage: PassStage): Sys {
    var s := LateMint(gen, skew, 0, log, mint);
    s.(runs := s.runs[1 := Pass(gen.space, 0, 0, stage)])
  }

  function EarlyItem(gen: GenId): PassStage {
    Collecting(0, map[gen := Condemned(None)])
  }

  function EarlyPointed(gen: GenId, skew: nat): Sys {
    var s := Early(gen, skew, GENESIS, Written(0), EarlyItem(gen));
    s.(account := [None, Some(gen)], pointedAt := map[gen := 0], runs := map[1 := Pass(gen.space, 0, 0, EarlyItem(gen))])
  }

  function EarlyDeleted(gen: GenId, skew: nat): Sys {
    var s := EarlyPointed(gen, skew);
    s.(gens := map[], deleted := map[gen := Deletion(1, None, GENESIS)],
       runs := map[1 := Pass(gen.space, 0, 0, Collecting(0, map[]))])
  }

  lemma EarlyBegins(gen: GenId, skew: nat)
    ensures Next(LateMint(gen, skew, 0, [], Created), Early(gen, skew, [], Created, Starting), 1, BeginPass(gen.space, 0))
    ensures Next(Early(gen, skew, [], Created, Starting), Early(gen, skew, [], Created, HeadRead(0)), 1, ReadHead)
  {
    assert Early(gen, skew, [], Created, Starting).runs[1 := Pass(gen.space, 0, 0, HeadRead(0))] ==
           Early(gen, skew, [], Created, HeadRead(0)).runs;
  }

  lemma EarlyLists(gen: GenId, skew: nat)
    ensures Next(Early(gen, skew, [], Created, HeadRead(0)),
                 Early(gen, skew, [], Created, Collecting(0, map[gen := Stale])), 1, ListSpace)
  {
    var s, s' := Early(gen, skew, [], Created, HeadRead(0)), Early(gen, skew, [], Created, Collecting(0, map[gen := Stale]));
    assert StaleIn(s, gen.space, None) == map[gen := Stale];
    assert s.runs[1 := s'.runs[1]] == s'.runs;
  }

  lemma EarlyReads(gen: GenId, skew: nat)
    ensures Next(Early(gen, skew, [], Created, Collecting(0, map[gen := Stale])),
                 Early(gen, skew, [], Created, EarlyItem(gen)), 1, ReadGeneration(gen))
  {
    var s := Early(gen, skew, [], Created, Collecting(0, map[gen := Stale]));
    assert map[gen := Stale][gen := Condemned(None)] == map[gen := Condemned(None)];
    assert s.runs[1 := Pass(gen.space, 0, 0, EarlyItem(gen))] == Early(gen, skew, [], Created, EarlyItem(gen)).runs;
  }

  lemma EarlyMints(gen: GenId, skew: nat)
    ensures Next(Early(gen, skew, [], Created, EarlyItem(gen)), Early(gen, skew, GENESIS, Written(0), EarlyItem(gen)), 0,
                 PutGenesis(0))
    ensures Next(Early(gen, skew, GENESIS, Written(0), EarlyItem(gen)), EarlyPointed(gen, skew), 0, RePoint)
  {
    var created, written := Early(gen, skew, [], Created, EarlyItem(gen)), Early(gen, skew, GENESIS, Written(0), EarlyItem(gen));
    assert created.runs[0 := written.runs[0]] == written.runs;
    assert created.gens[gen := GENESIS] == written.gens;
    assert written.runs - {0} == EarlyPointed(gen, skew).runs;
    assert written.pointedAt[gen := 0] == map[gen := 0];
  }

  lemma EarlyDeletes(gen: GenId, skew: nat)
    ensures Next(EarlyPointed(gen, skew), EarlyDeleted(gen, skew), 1, Delete(gen))
  {
    var s := EarlyPointed(gen, skew);
    assert map[gen := Condemned(None)] - {gen} == map[];
    assert s.runs[1 := EarlyDeleted(gen, skew).runs[1]] == EarlyDeleted(gen, skew).runs;
    assert s.gens - {gen} == map[];
    var none: map<GenId, Deletion> := map[];
    assert none[gen := Deletion(1, None, GENESIS)] == EarlyDeleted(gen, skew).deleted;
  }

  lemma EarlyRead(gen: GenId, skew: nat) returns (states: seq<Sys>, moves: seq<Move>)
    ensures Execution(states, moves) && TimelyBut(states, moves, gen)
    ensures states[|moves|] == Early(gen, skew, [], Created, EarlyItem(gen))
  {
    var created := LateMint(gen, skew, 0, [], Created);
    states, moves := [Sys(0, skew, [None], map[], {}, map[], {}, {}, map[], map[])], [];
    assert states[0].used + {gen} == created.used;
    states, moves := SteppedEarly(states, moves, gen, created, 0, BeginMint(gen, 0, None));
    EarlyBegins(gen, skew);
    EarlyLists(gen, skew);
    EarlyReads(gen, skew);
    states, moves := SteppedEarly(states, moves, gen, Early(gen, skew, [], Created, Starting), 1, BeginPass(gen.space, 0));
    states, moves := SteppedEarly(states, moves, gen, Early(gen, skew, [], Created, HeadRead(0)), 1, ReadHead);
    states, moves := SteppedEarly(states, moves, gen, Early(gen, skew, [], Created, Collecting(0, map[gen := Stale])), 1, ListSpace);
    states, moves := SteppedEarly(states, moves, gen, Early(gen, skew, [], Created, EarlyItem(gen)), 1, ReadGeneration(gen));
  }

  /** A pass that reads a generation between its creation and its genesis takes it
      for one without a log, and deletes it once the mint, in time throughout, has
      written it and pointed the account at it. */
  lemma EarlyReadIsDangling(gen: GenId, skew: nat) returns (states: seq<Sys>, moves: seq<Move>)
    requires skew < QUIET_FOR
    ensures Execution(states, moves) && TimelyBut(states, moves, gen)
    ensures var s := states[|moves|]; 0 < |s.account| && gen in s.deleted && Pointer(s) == Some(gen)
    ensures states[|moves|].deleted[gen].log != [] && !LogHandled(states[|moves|], gen, states[|moves|].deleted[gen].log)
  {
    states, moves := EarlyRead(gen, skew);
    EarlyMints(gen, skew);
    EarlyDeletes(gen, skew);
    states, moves := SteppedEarly(states, moves, gen, Early(gen, skew, GENESIS, Written(0), EarlyItem(gen)), 0, PutGenesis(0));
    states, moves := SteppedEarly(states, moves, gen, EarlyPointed(gen, skew), 0, RePoint);
    states, moves := SteppedEarly(states, moves, gen, EarlyDeleted(gen, skew), 1, Delete(gen));
  }

  // ---- A visit between a pass's reading and its delete

  function MintRun(s: Sys, gen: GenId, stage: MintStage): Run
    requires 0 < |s.account|
  {
    Mint(gen, None, |s.account| - 1, stage)
  }

  function Minting(s: Sys, gen: GenId, log: seq<AnnexEntry>, stage: MintStage): Sys
    requires 0 < |s.account|
  {
    s.(runs := map[0 := MintRun(s, gen, stage)], gens := s.gens[gen := log], used := s.used + {gen})
  }

  /** A mint that went through: created, written and pointed at. */
  function Minted(s: Sys, gen: GenId): Sys {
    s.(gens := s.gens[gen := [AnnexEntry(s.time, None)]], used := s.used + {gen},
       account := s.account + [Some(gen)], pointedAt := s.pointedAt[gen := s.time])
  }

  lemma MintSteps(s: Sys, gen: GenId)
    requires 0 < |s.account| && s.runs == map[] && gen !in s.used && s.skew == 0
    ensures Next(s, Minting(s, gen, [], Created), 0, BeginMint(gen, |s.account| - 1, None))
    ensures Next(Minting(s, gen, [], Created), Minting(s, gen, [AnnexEntry(s.time, None)], Written(s.time)), 0,
                 PutGenesis(s.time))
  {
    var created, written := Minting(s, gen, [], Created), Minting(s, gen, [AnnexEntry(s.time, None)], Written(s.time));
    assert s.runs[0 := created.runs[0]] == created.runs;
    assert created.runs[0 := written.runs[0]] == written.runs;
    assert created.gens[gen := [AnnexEntry(s.time, None)]] == written.gens;
  }

  lemma MintPoints(s: Sys, gen: GenId)
    requires 0 < |s.account| && s.runs == map[] && s.skew == 0
    requires s.account[|s.account| - 1] != Some(gen)
    ensures Next(Minting(s, gen, [AnnexEntry(s.time, None)], Written(s.time)), Minted(s, gen), 0, RePoint)
    ensures Prompt(Minting(s, gen, [AnnexEntry(s.time, None)], Written(s.time)), 0, RePoint)
  {
    assert Minting(s, gen, [AnnexEntry(s.time, None)], Written(s.time)).runs - {0} == s.runs;
  }

  lemma MintLands(states: seq<Sys>, moves: seq<Move>, gen: GenId) returns (states': seq<Sys>, moves': seq<Move>)
    requires Execution(states, moves) && Timely(states, moves)
    requires var s := states[|moves|];
             0 < |s.account| && s.runs == map[] && s.skew == 0 && gen !in s.used && Pointer(s) != Some(gen)
    ensures Execution(states', moves') && Timely(states', moves') && states'[|moves'|] == Minted(states[|moves|], gen)
  {
    var s := states[|moves|];
    MintSteps(s, gen);
    MintPoints(s, gen);
    states', moves' := Stepped(states, moves, Minting(s, gen, [], Created), 0, BeginMint(gen, |s.account| - 1, None));
    states', moves' := Stepped(states', moves', Minting(s, gen, [AnnexEntry(s.time, None)], Written(s.time)), 0, PutGenesis(s.time));
    states', moves' := Stepped(states', moves', Minted(s, gen), 0, RePoint);
  }

  function Start(): Sys {
    Sys(0, 0, [None], map[], {}, map[], {}, {}, map[], map[])
  }

  /** Two swaps, one after the other, and a pass over the first one's Space. */
  function Swapped(gen: GenId, next: GenId, stage: PassStage): Sys {
    Minted(Minted(Start(), gen), next).(runs := map[1 := Pass(gen.space, 0, 0, stage)])
  }

  function SwappedItem(gen: GenId, next: GenId, item: Item): Sys {
    Swapped(gen, next, Collecting(2, map[gen := item]))
  }

  function SwappedDigested(gen: GenId, next: GenId): Sys {
    SwappedItem(gen, next, DigestRecorded(DIGEST)).(digests := {(gen, DIGEST)})
  }

  function Visited(d: DelegationId): seq<AnnexEntry> {
    GENESIS + [AnnexEntry(0, Some(d))]
  }

  function SwappedVisited(gen: GenId, next: GenId, d: DelegationId): Sys {
    var s := SwappedDigested(gen, next);
    s.(gens := s.gens[gen := Visited(d)])
  }

  function SwappedDeleted(gen: GenId, next: GenId, d: DelegationId): Sys {
    var s := SwappedVisited(gen, next, d);
    s.(gens := s.gens - {gen}, deleted := map[gen := Deletion(2, Some(DIGEST), Visited(d))],
       runs := Swapped(gen, next, Collecting(2, map[])).runs)
  }

  lemma SwappedLists(gen: GenId, next: GenId)
    requires gen != next
    ensures Next(Swapped(gen, next, HeadRead(2)), SwappedItem(gen, next, Stale), 1, ListSpace)
  {
    var s := Swapped(gen, next, HeadRead(2));
    assert s.account == [None, Some(gen), Some(next)];
    assert StaleIn(s, gen.space, Some(next)) == map[gen := Stale];
    assert s.runs[1 := SwappedItem(gen, next, Stale).runs[1]] == SwappedItem(gen, next, Stale).runs;
  }

  lemma SwappedBegins(gen: GenId, next: GenId)
    ensures Next(Minted(Minted(Start(), gen), next), Swapped(gen, next, Starting), 1, BeginPass(gen.space, 0))
    ensures Next(Swapped(gen, next, Starting), Swapped(gen, next, HeadRead(2)), 1, ReadHead)
  {
    var none: map<RunId, Run> := map[];
    assert none[1 := Pass(gen.space, 0, 0, Starting)] == Swapped(gen, next, Starting).runs;
    assert Swapped(gen, next, Starting).runs[1 := Swapped(gen, next, HeadRead(2)).runs[1]] ==
           Swapped(gen, next, HeadRead(2)).runs;
  }

  lemma SwappedItemSet(gen: GenId, next: GenId, item: Item, item': Item)
    ensures WithItem(SwappedItem(gen, next, item), 1, gen, item') == SwappedItem(gen, next, item')
  {
    assert map[gen := item][gen := item'] == map[gen := item'];
    assert SwappedItem(gen, next, item).runs[1 := SwappedItem(gen, next, item').runs[1]] ==
           SwappedItem(gen, next, item').runs;
  }

  lemma SwappedVerdict(gen: GenId, next: GenId)
    requires gen != next
    ensures Next(SwappedItem(gen, next, Stale), SwappedItem(gen, next, Condemned(Some(DIGEST))), 1, ReadGeneration(gen))
  {
    SwappedItemSet(gen, next, Stale, Condemned(Some(DIGEST)));
    var s := SwappedItem(gen, next, Stale);
    assert s.gens[gen] == GENESIS;
    assert s.account[..3][1] == Some(gen);
  }

  lemma SwappedSettled(gen: GenId, next: GenId)
    ensures Next(SwappedItem(gen, next, Condemned(Some(DIGEST))), SwappedItem(gen, next, DelegationSettled(DIGEST)),
                 1, SettleDelegation(gen))
  {
    SwappedItemSet(gen, next, Condemned(Some(DIGEST)), DelegationSettled(DIGEST));
    var none: set<DelegationId> := {};
    assert none + none == none;
  }

  lemma SwappedDigest(gen: GenId, next: GenId)
    ensures Next(SwappedItem(gen, next, DelegationSettled(DIGEST)), SwappedDigested(gen, next), 1, RecordDigest(gen))
  {
    SwappedItemSet(gen, next, DelegationSettled(DIGEST), DigestRecorded(DIGEST));
    var none: set<(GenId, Snapshot)> := {};
    assert none + {(gen, DIGEST)} == {(gen, DIGEST)};
  }

  lemma SwappedVisit(gen: GenId, next: GenId, d: DelegationId)
    requires gen != next
    ensures Next(SwappedDigested(gen, next), SwappedVisited(gen, next, d), 1, Visit(gen, AnnexEntry(0, Some(d))))
  {
    var s := SwappedDigested(gen, next);
    assert s.gens[gen] == GENESIS;
    assert s.account[1] == Some(gen);
  }

  lemma SwappedDelete(gen: GenId, next: GenId, d: DelegationId)
    requires gen != next
    ensures Next(SwappedVisited(gen, next, d), SwappedDeleted(gen, next, d), 1, Delete(gen))
  {
    var s := SwappedVisited(gen, next, d);
    assert map[gen := DigestRecorded(DIGEST)] - {gen} == map[];
    assert s.runs[1 := SwappedDeleted(gen, next, d).runs[1]] == SwappedDeleted(gen, next, d).runs;
    var none: map<GenId, Deletion> := map[];
    assert none[gen := Deletion(2, Some(DIGEST), Visited(d))] == SwappedDeleted(gen, next, d).deleted;
  }

  lemma SwappedRead(gen: GenId, next: GenId) returns (states: seq<Sys>, moves: seq<Move>)
    requires gen != next
    ensures Execution(states, moves) && Timely(states, moves) && states[|moves|] == SwappedItem(gen, next, Stale)
  {
    states, moves := MintLands([Start()], [], gen);
    states, moves := MintLands(states, moves, next);
    SwappedBegins(gen, next);
    SwappedLists(gen, next);
    states, moves := Stepped(states, moves, Swapped(gen, next, Starting), 1, BeginPass(gen.space, 0));
    states, moves := Stepped(states, moves, Swapped(gen, next, HeadRead(2)), 1, ReadHead);
    states, moves := Stepped(states, moves, SwappedItem(gen, next, Stale), 1, ListSpace);
  }

  lemma SwappedRecorded(gen: GenId, next: GenId) returns (states: seq<Sys>, moves: seq<Move>)
    requires gen != next
    ensures Execution(states, moves) && Timely(states, moves) && states[|moves|] == SwappedDigested(gen, next)
  {
    states, moves := SwappedRead(gen, next);
    SwappedVerdict(gen, next);
    SwappedSettled(gen, next);
    SwappedDigest(gen, next);
    states, moves := Stepped(states, moves, SwappedItem(gen, next, Condemned(Some(DIGEST))), 1, ReadGeneration(gen));
    states, moves := Stepped(states, moves, SwappedItem(gen, next, DelegationSettled(DIGEST)), 1, SettleDelegation(gen));
    states, moves := Stepped(states, moves, SwappedDigested(gen, next), 1, RecordDigest(gen));
  }

  /** A visit landing after the digest and before the delete: the log deleted
      embeds a delegation nobody settled, and no digest covers it, though every
      mint and pass kept the timing. */
  lemma VisitOutrunsTheDigest(gen: GenId, next: GenId, d: DelegationId) returns (states: seq<Sys>, moves: seq<Move>)
    requires gen != next
    ensures Execution(states, moves) && Timely(states, moves)
    ensures gen in states[|moves|].deleted && states[|moves|].deleted[gen].log == Visited(d)
    ensures d !in states[|moves|].settled && !LogHandled(states[|moves|], gen, Visited(d))
  {
    states, moves := SwappedRecorded(gen, next);
    SwappedVisit(gen, next, d);
    SwappedDelete(gen, next, d);
    states, moves := Stepped(states, moves, SwappedVisited(gen, next, d), 1, Visit(gen, AnnexEntry(0, Some(d))));
    states, moves := Stepped(states, moves, SwappedDeleted(gen, next, d), 1, Delete(gen));
  }
}
