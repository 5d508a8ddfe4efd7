/** Enrolling a visit while others re-point, write and collect: the loop that
    enrolls into the pointed generation until the pointer holds still. */
module Transient {
  import opened Seqs
  import opened AnnexLog

  type GenId = nat

  /** What another client does meanwhile: an entry on some generation, a fresh
      generation, a re-point, or a delete of one nothing points at. */
  datatype Interference =
    | Writes(gen: GenId, cer: Ceremony)
    | Creates(created: GenId, minter: Credential, standing: seq<Hash>)
    | Points(target: GenId)
    | Collects(collected: GenId)

  datatype Outcome =
    | Enrolled(gen: GenId, log: Log)
    | NoPointer
    | LogGone
    | Refused(plan: Plan)
    | Conflict
    | KeptMoving

  ghost predicate Once(methods: seq<VisitKey>) {
    forall i, j :: 0 <= i < j < |methods| ==> methods[i] != methods[j]
  }

  /** A log that only had entries appended, none dropping a method. */
  ghost predicate Grown(before: Log, after: Log) {
    && before <= after
    && forall m :: m in Head(before).methods ==> m in Head(after).methods
  }

  lemma EntryGrows(log: Log, cer: Ceremony)
    requires PlanFor(cer, Head(log)).Publish? && Once(Head(log).methods)
    ensures var longer := log + [PlanFor(cer, Head(log)).entry];
            Grown(log, longer) && Once(Head(longer).methods)
  {
    if cer.Enroll? {
      assert forall i :: 0 <= i < |Head(log).methods| ==> Head(log).methods[i] in Head(log).methods;
    }
  }

  const CONFLICT_ATTEMPTS: nat := 3

  /** What an enrollment alone on a generation comes to, and the log it leaves. */
  function AloneOn(gen: GenId, log: Log, acting: Credential, visit: VisitKey, minted: Option<DelegationId>): (Outcome, Log) {
    var plan := PlanFor(Enroll(acting, visit, None, minted), Head(log));
    if plan.Unchanged? then (Enrolled(gen, log), log)
    else if plan.Publish? then (Enrolled(gen, log + [plan.entry]), log + [plan.entry])
    else (Refused(plan), log)
  }

  /** The Space and the account's pointer at it. */
  datatype World = World(pointer: Option<GenId>, gens: map<GenId, Log>, used: set<GenId>)

  /** What one act of another client makes of it. */
  function Acted(w: World, i: Interference): World {
    match i
    case Writes(gen, cer) =>
      if gen in w.gens && PlanFor(cer, Head(w.gens[gen])).Publish?
      then w.(gens := w.gens[gen := w.gens[gen] + [PlanFor(cer, Head(w.gens[gen])).entry]]) else w
    case Creates(gen, minter, standing) =>
      if gen !in w.used then w.(gens := w.gens[gen := [Genesis(minter, standing)]], used := w.used + {gen}) else w
    case Points(gen) => if gen in w.gens then w.(pointer := Some(gen)) else w
    case Collects(gen) => if w.pointer != Some(gen) then w.(gens := w.gens - {gen}) else w
  }

  function AllActed(w: World, batch: seq<Interference>): World {
    if batch == [] then w else Acted(AllActed(w, batch[..|batch| - 1]), batch[|batch| - 1])
  }

  class Host {
    var pointer: Option<GenId>
    var gens: map<GenId, Log>
    var used: set<GenId>
    var script: seq<seq<Interference>>

    constructor (script: seq<seq<Interference>>)
      ensures Valid() && pointer == None && gens == map[] && used == {} && this.script == script
    {
      pointer, gens, used, this.script := None, map[], {}, script;
    }

    ghost predicate Valid()
      reads this
    {
      && gens.Keys <= used
      && (pointer.Some? ==> pointer.value in gens)
      && forall g :: g in gens ==> Once(Head(gens[g]).methods)
    }

    function Now(): World
      reads this
    {
      World(pointer, gens, used)
    }

    ghost predicate AllDelegated()
      reads this
    {
      forall g :: g in gens ==> Delegated(Head(gens[g]))
    }

    /** Every enrollment others make can mint, and so far each listed visit has its
        delegation. */
    ghost predicate Minting()
      reads this
    {
      AllDelegated() && forall batch, i: Interference :: batch in script && i in batch && i.Writes? ==> Mints(i.cer)
    }

    /** Every generation of `was` that is still here has only grown, and none that
        is gone came back. */
    ghost predicate Evolved(was: map<GenId, Log>, wasUsed: set<GenId>)
      reads this
    {
      && wasUsed <= used
      && forall g :: g in gens && g in wasUsed ==> g in was && Grown(was[g], gens[g])
    }

    method Apply(i: Interference)
      requires Valid()
      modifies this`pointer, this`gens, this`used
      ensures Valid() && Evolved(old(gens), old(used))
      ensures Now() == Acted(old(Now()), i)
      ensures old(AllDelegated()) && (i.Writes? ==> Mints(i.cer)) ==> AllDelegated()
    {
      match i
      case Writes(gen, cer) =>
        if gen in gens {
          var plan := PlanFor(cer, Head(gens[gen]));
          if plan.Publish? {
            EntryGrows(gens[gen], cer);
            DelegationWithFirstMethod(cer, Head(gens[gen]));
            gens := gens[gen := gens[gen] + [plan.entry]];
          }
        }
      case Creates(gen, minter, standing) =>
        if gen !in used {
          gens, used := gens[gen := [Genesis(minter, standing)]], used + {gen};
        }
      case Points(gen) =>
        if gen in gens { pointer := Some(gen); }
      case Collects(gen) =>
        if pointer != Some(gen) { gens := gens - {gen}; }
    }

    /** The next batch of what others do. */
    method Interfere()
      requires Valid()
      modifies this
      ensures Valid() && Evolved(old(gens), old(used))
      ensures old(script) == [] ==> script == [] && pointer == old(pointer) && gens == old(gens)
      ensures old(script) != [] ==> script == old(script)[1..] && Now() == AllActed(old(Now()), old(script)[0])
      ensures old(Minting()) ==> Minting()
    {
      if script == [] { return; }
      var batch := script[0];
      script := script[1..];
      for n := 0 to |batch|
        invariant Valid() && Evolved(old(gens), old(used))
        invariant script == old(script)[1..] && Now() == AllActed(old(Now()), batch[..n])
        invariant old(Minting()) ==> Minting() && (forall i :: i in batch && i.Writes? ==> Mints(i.cer))
      {
        ghost var was, wasUsed := gens, used;
        assert batch[n] in batch && batch[..n + 1][..n] == batch[..n];
        Apply(batch[n]);
        EvolvedTwice(old(gens), old(used), was, wasUsed);
      }
      assert batch[..|batch|] == batch;
    }

    lemma EvolvedTwice(first: map<GenId, Log>, firstUsed: set<GenId>, was: map<GenId, Log>, wasUsed: set<GenId>)
      requires Evolved(was, wasUsed) && firstUsed <= wasUsed
      requires forall g :: g in was && g in firstUsed ==> g in first && Grown(first[g], was[g])
      ensures Evolved(first, firstUsed)
    {
    }

    /** The conditional write: it lands on the log it was built on, and on no other. */
    method PutEntry(gen: GenId, read: Log, acting: Credential, visit: VisitKey, minted: Option<DelegationId>)
      returns (outcome: Option<Outcome>)
      requires Valid() && gen in used && PlanFor(Enroll(acting, visit, None, minted), Head(read)).Publish?
      modifies this`gens
      ensures Valid() && Evolved(old(gens), old(used))
      ensures gen !in old(gens) ==> outcome == Some(LogGone) && gens == old(gens)
      ensures gen in old(gens) && old(gens)[gen] != read ==> outcome == None && gens == old(gens)
      ensures gen in old(gens) && old(gens)[gen] == read ==>
                && outcome == Some(AloneOn(gen, read, acting, visit, minted).0)
                && gens == old(gens)[gen := AloneOn(gen, read, acting, visit, minted).1]
      ensures old(AllDelegated()) && minted.Some? ==> AllDelegated()
      ensures gens.Keys == old(gens).Keys
    {
      if gen !in gens { return Some(LogGone); }
      if gens[gen] != read { return None; }
      var plan := PlanFor(Enroll(acting, visit, None, minted), Head(read));
      EntryGrows(read, Enroll(acting, visit, None, minted));
      DelegationWithFirstMethod(Enroll(acting, visit, None, minted), Head(read));
      gens := gens[gen := read + [plan.entry]];
      return Some(Enrolled(gen, gens[gen]));
    }

    lemma AloneListsVisit(gen: GenId, log: Log, acting: Credential, visit: VisitKey, minted: Option<DelegationId>)
      ensures var alone := AloneOn(gen, log, acting, visit, minted);
              alone.0.Enrolled? ==> alone.0.gen == gen && alone.0.log == alone.1 && visit in Head(alone.1).methods
    {
    }

    /** One attempt: build on the head read (or handed in), then publish if the log
        is still that one. `None` is a lost race. */
    method EnrollOnce(gen: GenId, acting: Credential, visit: VisitKey, minted: Option<DelegationId>, threaded: Option<Log>)
      returns (outcome: Option<Outcome>)
      requires Valid() && gen in used
      requires threaded.Some? ==> forall g :: g == gen && g in gens ==> Grown(threaded.value, gens[g])
      modifies this
      ensures Valid() && Evolved(old(gens), old(used))
      ensures outcome.Some? && outcome.value.Enrolled? ==>
                && outcome.value.gen == gen && visit in Head(outcome.value.log).methods
                && (gen in gens ==> Grown(outcome.value.log, gens[gen]))
      ensures outcome.Some? ==> outcome.value.Enrolled? || outcome.value.LogGone? || outcome.value.Refused?
      ensures outcome == Some(LogGone) ==> gen !in gens
      ensures outcome.Some? && outcome.value.Refused? ==> outcome.value.plan.RungUncommitted? || outcome.value.plan.CarryOverBroken?
      ensures outcome.None? ==> gen in gens && (old(script) != [] || threaded.Some?)
      ensures outcome.None? && threaded.None? ==> gen in old(gens) && |old(gens)[gen]| < |gens[gen]|
      ensures old(Minting()) && minted.Some? ==> Minting()
      ensures old(script) == [] ==> script == [] && pointer == old(pointer) && gens.Keys == old(gens).Keys
      ensures old(script) == [] && gen in old(gens) && (threaded.Some? ==> threaded.value == old(gens)[gen]) ==>
                && outcome == Some(AloneOn(gen, old(gens)[gen], acting, visit, minted).0)
                && gens == old(gens)[gen := AloneOn(gen, old(gens)[gen], acting, visit, minted).1]
    {
      if threaded.None? && gen !in gens { return Some(LogGone); }
      var read := if threaded.Some? then threaded.value else gens[gen];
      var plan := PlanFor(Enroll(acting, visit, None, minted), Head(read));
      if plan.Unchanged? { return Some(Enrolled(gen, read)); }
      if !plan.Publish? { return Some(Refused(plan)); }
      Interfere();
      ghost var was, wasUsed := gens, used;
      outcome := PutEntry(gen, read, acting, visit, minted);
      EvolvedTwice(old(gens), old(used), was, wasUsed);
      AloneListsVisit(gen, read, acting, visit, minted);
    }

    /** The threaded head first, then up to three attempts on fresh reads; it is a
        conflict once the log grew under each of those. */
    method EnrollClientAnnexTransientClient(gen: GenId, acting: Credential, visit: VisitKey, minted: Option<DelegationId>,
                                            threaded: Option<Log>) returns (outcome: Outcome)
      requires Valid() && gen in used
      requires threaded.Some? ==> forall g :: g == gen && g in gens ==> Grown(threaded.value, gens[g])
      modifies this
      ensures Valid() && Evolved(old(gens), old(used))
      ensures outcome.Enrolled? ==>
                && outcome.gen == gen && visit in Head(outcome.log).methods
                && (gen in gens ==> Grown(outcome.log, gens[gen]))
      ensures outcome.Enrolled? || outcome.LogGone? || outcome.Refused? || outcome.Conflict?
      ensures outcome.LogGone? ==> gen !in gens
      ensures outcome.Refused? ==> outcome.plan.RungUncommitted? || outcome.plan.CarryOverBroken?
      ensures outcome.Conflict? ==> gen in gens && old(script) != []
      ensures outcome.Conflict? ==> gen in old(gens) && |old(gens)[gen]| + CONFLICT_ATTEMPTS <= |gens[gen]|
      ensures old(Minting()) && minted.Some? ==> Minting()
      ensures old(script) == [] ==> script == [] && pointer == old(pointer) && gens.Keys == old(gens).Keys
      ensures old(script) == [] && gen in old(gens) && threaded.None? ==>
                && outcome == AloneOn(gen, old(gens)[gen], acting, visit, minted).0
                && gens == old(gens)[gen := AloneOn(gen, old(gens)[gen], acting, visit, minted).1]
    {
      if threaded.Some? {
        var first := EnrollOnce(gen, acting, visit, minted, threaded);
        if first.Some? { return first.value; }
      }
      for attempt := 0 to CONFLICT_ATTEMPTS
        invariant Valid() && Evolved(old(gens), old(used))
        invariant old(Minting()) && minted.Some? ==> Minting()
        invariant old(script) == [] ==> script == [] && pointer == old(pointer) && gens.Keys == old(gens).Keys
        invariant old(script) == [] && threaded.None? && gen in old(gens) ==> attempt == 0 && gens == old(gens)
        invariant attempt > 0 ==> old(script) != [] && gen in gens
        invariant gen in gens ==> gen in old(gens) && |old(gens)[gen]| + attempt <= |gens[gen]|
      {
        ghost var was, wasUsed := gens, used;
        Interfere();
        EvolvedTwice(old(gens), old(used), was, wasUsed);
        was, wasUsed := gens, used;
        var outcome := EnrollOnce(gen, acting, visit, minted, None);
        EvolvedTwice(old(gens), old(used), was, wasUsed);
        if outcome.Some? { return outcome.value; }
      }
      return Conflict;
    }

    /** One round: the enrollment, and once it landed the pointer read again. */
    method EnrollRound(gen: GenId, acting: Credential, visit: VisitKey, minted: Option<DelegationId>, threaded: Option<Log>)
      returns (outcome: Outcome)
      requires Valid() && gen in gens
      requires threaded.Some? ==> Grown(threaded.value, gens[gen])
      modifies this
      ensures Valid() && Evolved(old(gens), old(used))
      ensures outcome.Enrolled? ==>
                outcome.gen == gen && (gen in gens ==> outcome.log <= gens[gen] && visit in Head(gens[gen]).methods)
      ensures outcome.Enrolled? || outcome.LogGone? || outcome.Refused? || outcome.Conflict?
      ensures outcome.LogGone? || outcome.Conflict? ==> old(script) != []
      ensures outcome.Refused? ==> outcome.plan.RungUncommitted? || outcome.plan.CarryOverBroken?
      ensures old(Minting()) && minted.Some? ==> Minting()
      ensures old(script) == [] ==> script == [] && pointer == old(pointer)
      ensures old(script) == [] && threaded.None? ==>
                && outcome == AloneOn(gen, old(gens)[gen], acting, visit, minted).0
                && gens == old(gens)[gen := AloneOn(gen, old(gens)[gen], acting, visit, minted).1]
    {
      outcome := EnrollClientAnnexTransientClient(gen, acting, visit, minted, threaded);
      if !outcome.Enrolled? { return; }
      ghost var was, wasUsed := gens, used;
      Interfere();
      EvolvedTwice(old(gens), old(used), was, wasUsed);
    }

    /** `enrollTransientClient`. On return the pointer, read after the enrollment
        landed, names the generation enrolled into, whose newest document lists the
        visit's method once, beside a delegation if every enrollment can mint one;
        with no such round inside `maxRounds` it gives up, and
        no generation that was enrolled into on the way lost the method. */
    method EnrollTransientClient(acting: Credential, visit: VisitKey, minted: Option<DelegationId>, maxRounds: nat,
                                 threaded: Option<(GenId, Log)>) returns (outcome: Outcome, tried: seq<GenId>)
      requires Valid()
      requires threaded.Some? && threaded.value.0 in gens ==> Grown(threaded.value.1, gens[threaded.value.0])
      requires threaded.Some? ==> threaded.value.0 in used
      modifies this
      ensures Valid()
      ensures outcome.Enrolled? ==>
                && pointer == Some(outcome.gen) && outcome.gen in gens
                && outcome.log <= gens[outcome.gen]
                && visit in Head(gens[outcome.gen]).methods && Once(Head(gens[outcome.gen]).methods)
                && tried != [] && tried[|tried| - 1] == outcome.gen
      ensures outcome.Enrolled? && old(Minting()) && minted.Some? ==> Head(gens[outcome.gen]).delegation.Some?
      ensures |tried| <= maxRounds
      ensures outcome.KeptMoving? ==> |tried| == maxRounds
      ensures outcome.KeptMoving? && tried != [] ==> pointer != Some(tried[|tried| - 1])
      ensures outcome.NoPointer? ==> pointer.None?
      ensures outcome.LogGone? || outcome.Conflict? ==> old(script) != []
      ensures outcome.Refused? ==> outcome.plan.RungUncommitted? || outcome.plan.CarryOverBroken?
      ensures forall g :: g in tried && g in gens ==> visit in Head(gens[g]).methods
      ensures old(script) == [] && threaded.None? && 0 < maxRounds && old(pointer).Some? ==>
                var gen := old(pointer).value;
                var alone := AloneOn(gen, old(gens)[gen], acting, visit, minted);
                outcome == alone.0 && gens == old(gens)[gen := alone.1] && pointer == old(pointer)
    {
      tried := [];
      ghost var startGens, startUsed := gens, used;
      Interfere();
      var accountPointer := pointer;
      for round := 0 to maxRounds
        invariant Valid() && accountPointer == pointer && |tried| == round
        invariant round == 0 ==> Evolved(startGens, startUsed)
        invariant old(Minting()) && minted.Some? ==> Minting()
        invariant old(script) == [] ==> script == [] && pointer == old(pointer)
        invariant old(script) == [] && threaded.None? && old(pointer).Some? ==> round == 0 && gens == old(gens)
        invariant forall g :: g in tried ==> g in used
        invariant tried != [] ==> accountPointer != Some(tried[|tried| - 1])
        invariant forall g :: g in tried && g in gens ==> visit in Head(gens[g]).methods
      {
        if accountPointer.None? { return NoPointer, tried; }
        var gen := accountPointer.value;
        var head := if round == 0 && threaded.Some? && threaded.value.0 == gen then Some(threaded.value.1) else None;
        outcome := EnrollRound(gen, acting, visit, minted, head);
        if !outcome.Enrolled? { return; }
        tried := tried + [gen];
        accountPointer := pointer;
        if accountPointer == Some(gen) { return; }
      }
      return KeptMoving, tried;
    }
  }
}
