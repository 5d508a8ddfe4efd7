/** Establishments and mends racing to create one roster and every collection's
    first epoch: each run holds its own throwaway candidate key and reaches the
    roster in its own way, any step may be a run's last, and a rotation may land
    between any two. */
module MintRuns {
  import opened Seqs
  import opened MintPolicy

  type RunId = nat

  /** A genesis mints when it reads no roster and gives up when its create is lost;
      a mend first reads every collection, and adopts the winner of a lost create;
      a run over an adopted roster never mints. */
  datatype Kind = Genesis | Mend | Adopted

  /** Where a run stands. `Checking` the collections it has still to read before it
      mints; `Holding` the descriptor it read when the roster had `size` epochs;
      `Installing` under `key` the first epochs it has still to install. */
  datatype Phase =
    | Reading
    | Checking(unread: set<CollectionId>)
    | Rereading
    | Holding(descriptor: KeyId, size: nat)
    | Installing(key: KeyId, heldAt: nat, rest: set<CollectionId>, failed: set<CollectionId>)

  /** `wraps` is what the run's credential opens besides its own candidate. */
  datatype Run = Run(candidate: KeyId, kind: Kind, wraps: set<KeyId>, ids: set<CollectionId>, phase: Phase)

  datatype Sys = Sys(
    roster: seq<KeyId>,
    firstEpochs: map<CollectionId, KeyId>,
    geneses: nat,
    rotations: nat,
    runs: map<RunId, Run>)

  datatype Step =
    | Begin(candidate: KeyId, kind: Kind, wraps: set<KeyId>, ids: set<CollectionId>)
    | ReadRoster
    | CheckCollection(unread: CollectionId)
    | PutRoster
    | Reread
    | Gate
    | PutFirstEpoch(collection: CollectionId)
    | Fail(failing: CollectionId)
    | PutRotation(key: KeyId)
    | Stop

  function Current(s: Sys): KeyId
    requires s.roster != []
  {
    s.roster[|s.roster| - 1]
  }

  function WithPhase(s: Sys, id: RunId, phase: Phase): Sys
    requires id in s.runs
  {
    s.(runs := s.runs[id := s.runs[id].(phase := phase)])
  }

  function Ended(s: Sys, id: RunId): Sys {
    s.(runs := s.runs - {id})
  }

  function Held(s: Sys, id: RunId): Sys
    requires id in s.runs && s.roster != []
  {
    WithPhase(s, id, Holding(Current(s), |s.roster|))
  }

  // ---- Steps

  /** A roster read as absent: a genesis goes on to mint, a mend to read its
      collections, a run over an adopted roster refuses. */
  function AfterRead(s: Sys, id: RunId): Sys
    requires id in s.runs
  {
    if s.roster != [] then Held(s, id)
    else match s.runs[id].kind
      case Genesis => WithPhase(s, id, Checking({}))
      case Mend => WithPhase(s, id, Checking(s.runs[id].ids))
      case Adopted => Ended(s, id)
  }

  /** The guarded roster create: it lands while there is no roster. */
  function AfterPutRoster(s: Sys, id: RunId): Sys
    requires id in s.runs
  {
    var run := s.runs[id];
    if s.roster == [] then
      WithPhase(s, id, Holding(run.candidate, 1)).(roster := [run.candidate], geneses := s.geneses + 1)
    else if run.kind == Mend then WithPhase(s, id, Rereading)
    else Ended(s, id)
  }

  /** The mint gate: a genesis installs only under its own candidate and turns to
      the adopted arm otherwise; the others install under the delivered key, if
      they can open it. */
  function AfterGate(s: Sys, id: RunId, descriptor: KeyId, size: nat): Sys
    requires id in s.runs
  {
    var run := s.runs[id];
    if descriptor == run.candidate || (run.kind != Genesis && descriptor in run.wraps) then
      WithPhase(s, id, Installing(descriptor, size, run.ids, {}))
    else if run.kind == Genesis then s.(runs := s.runs[id := run.(kind := Adopted, phase := Reading)])
    else Ended(s, id)
  }

  ghost predicate RunNext(s: Sys, s': Sys, id: RunId, step: Step)
    requires id in s.runs
  {
    var run := s.runs[id];
    match run.phase
    case Reading => step.ReadRoster? && s' == AfterRead(s, id)
    case Checking(unread) =>
      if step.CheckCollection? then
        step.unread in unread
        && s' == (if step.unread in s.firstEpochs then Ended(s, id) else WithPhase(s, id, Checking(unread - {step.unread})))
      else step.PutRoster? && unread == {} && s' == AfterPutRoster(s, id)
    case Rereading => step.Reread? && s.roster != [] && s' == Held(s, id)
    case Holding(descriptor, size) => step.Gate? && s' == AfterGate(s, id, descriptor, size)
    case Installing(key, heldAt, rest, failed) =>
      if step.PutFirstEpoch? then
        step.collection in rest
        && s' == WithPhase(s, id, Installing(key, heldAt, rest - {step.collection}, failed)).(firstEpochs :=
                   if step.collection in s.firstEpochs then s.firstEpochs else s.firstEpochs[step.collection := key])
      else
        step.Fail? && step.failing in rest
        && s' == WithPhase(s, id, Installing(key, heldAt, rest - {step.failing}, failed + {step.failing}))
  }

  /** A rotation appends a key no roster epoch had, to a roster that stands. */
  ghost predicate Next(s: Sys, s': Sys, id: RunId, step: Step) {
    match step
    case Begin(candidate, kind, wraps, ids) =>
      id !in s.runs && s' == s.(runs := s.runs[id := Run(candidate, kind, wraps, ids, Reading)])
    case PutRotation(key) =>
      s.roster != [] && key !in s.roster && s' == s.(roster := s.roster + [key], rotations := s.rotations + 1)
    case Stop => id in s.runs && s' == Ended(s, id)
    case _ => id in s.runs && RunNext(s, s', id, step)
  }

  // ---- The invariant

  ghost predicate Distinct(keys: seq<KeyId>) {
    forall i, j :: 0 <= i < j < |keys| ==> keys[i] != keys[j]
  }

  /** A descriptor held was the roster's newest key when it was taken. */
  predicate TakenAt(roster: seq<KeyId>, key: KeyId, size: nat) {
    0 < size <= |roster| && roster[size - 1] == key
  }

  ghost predicate RunOk(s: Sys, run: Run) {
    match run.phase
    case Reading => true
    case Checking(_) => run.kind != Adopted
    case Rereading => s.roster != []
    case Holding(descriptor, size) => TakenAt(s.roster, descriptor, size)
    case Installing(key, heldAt, rest, failed) =>
      && TakenAt(s.roster, key, heldAt) && (key == run.candidate || key in run.wraps)
      && forall c :: c in run.ids ==> c in rest || c in failed || c in s.firstEpochs
  }

  /** One genesis at most, and every first epoch under a key the roster delivered. */
  ghost predicate Inv(s: Sys) {
    && s.geneses <= 1 && (s.geneses == 0 <==> s.roster == [])
    && |s.roster| == s.geneses + s.rotations && (s.roster == [] ==> s.rotations == 0) && Distinct(s.roster)
    && (forall c :: c in s.firstEpochs ==> s.firstEpochs[c] in s.roster)
    && forall id :: id in s.runs ==> RunOk(s, s.runs[id])
  }

  ghost predicate Init(s: Sys) {
    s == Sys([], map[], 0, 0, map[])
  }

  /** Rosters and first epochs are never taken back. */
  ghost predicate Later(s: Sys, s': Sys) {
    && s.roster <= s'.roster
    && forall c :: c in s.firstEpochs ==> c in s'.firstEpochs && s'.firstEpochs[c] == s.firstEpochs[c]
  }

  lemma RunOkLater(s: Sys, s': Sys, run: Run)
    requires RunOk(s, run) && Later(s, s')
    ensures RunOk(s', run)
  {
  }

  lemma OthersOk(s: Sys, s': Sys, id: RunId)
    requires Inv(s) && Later(s, s')
    requires forall other :: other in s'.runs && other != id ==> other in s.runs && s'.runs[other] == s.runs[other]
    requires id in s'.runs ==> RunOk(s', s'.runs[id])
    ensures forall other :: other in s'.runs ==> RunOk(s', s'.runs[other])
  {
    forall other | other in s'.runs ensures RunOk(s', s'.runs[other]) {
      if other != id { RunOkLater(s, s', s.runs[other]); }
    }
  }

  lemma PutRosterKeeps(s: Sys, id: RunId)
    requires Inv(s) && id in s.runs
    ensures Inv(AfterPutRoster(s, id)) && Later(s, AfterPutRoster(s, id))
    ensures s.roster == [] ==> s.firstEpochs == map[]
  {
    assert s.roster == [] ==> forall c :: c !in s.firstEpochs;
    OthersOk(s, AfterPutRoster(s, id), id);
  }

  lemma InstallKeeps(s: Sys, s': Sys, id: RunId, step: Step)
    requires Inv(s) && id in s.runs && s.runs[id].phase.Installing? && step.PutFirstEpoch? && RunNext(s, s', id, step)
    ensures Inv(s') && Later(s, s')
  {
    assert RunOk(s, s.runs[id]);
    assert s.roster[s.runs[id].phase.heldAt - 1] in s.roster;
    OthersOk(s, s', id);
  }

  lemma RotationKeeps(s: Sys, s': Sys, id: RunId, step: Step)
    requires Inv(s) && step.PutRotation? && Next(s, s', id, step)
    ensures Inv(s') && Later(s, s')
  {
    forall other | other in s'.runs ensures RunOk(s', s'.runs[other]) { RunOkLater(s, s', s.runs[other]); }
  }

  /** A step that writes nothing. */
  lemma QuietKeeps(s: Sys, s': Sys, id: RunId)
    requires Inv(s) && s' == s.(runs := s'.runs)
    requires forall other :: other in s'.runs && other != id ==> other in s.runs && s'.runs[other] == s.runs[other]
    requires id in s'.runs ==> RunOk(s', s'.runs[id])
    ensures Inv(s') && Later(s, s')
  {
    OthersOk(s, s', id);
  }

  lemma QuietStep(s: Sys, s': Sys, id: RunId, step: Step)
    requires Inv(s) && id in s.runs && RunNext(s, s', id, step) && !step.PutRoster? && !step.PutFirstEpoch?
    ensures s' == s.(runs := s'.runs)
    ensures forall other :: other in s'.runs && other != id ==> other in s.runs && s'.runs[other] == s.runs[other]
    ensures id in s'.runs ==> RunOk(s', s'.runs[id])
  {
    assert RunOk(s, s.runs[id]);
  }

  lemma RunKeeps(s: Sys, s': Sys, id: RunId, step: Step)
    requires Inv(s) && id in s.runs && RunNext(s, s', id, step)
    ensures Inv(s') && Later(s, s')
  {
    if step.PutRoster? {
      PutRosterKeeps(s, id);
    } else if step.PutFirstEpoch? {
      InstallKeeps(s, s', id, step);
    } else {
      QuietStep(s, s', id, step);
      QuietKeeps(s, s', id);
    }
  }

  lemma StepKeeps(s: Sys, s': Sys, id: RunId, step: Step)
    requires Inv(s) && Next(s, s', id, step)
    ensures Inv(s') && Later(s, s')
  {
    if step.PutRotation? {
      RotationKeeps(s, s', id, step);
    } else if step.Begin? || step.Stop? {
      OthersOk(s, s', id);
    } else {
      RunKeeps(s, s', id, step);
    }
  }

  // ---- Whole runs

  datatype Move = Move(id: RunId, step: Step)

  ghost predicate Execution(states: seq<Sys>, moves: seq<Move>) {
    && |states| == |moves| + 1 && Init(states[0])
    && forall i :: 0 <= i < |moves| ==> Next(states[i], states[i + 1], moves[i].id, moves[i].step)
  }

  /** Over any number of concurrent and torn runs: one roster genesis at most lands,
      and every first epoch stands under a key the roster delivered. */
  lemma {:induction false} EveryReachableStateIsKeyed(states: seq<Sys>, moves: seq<Move>, n: nat)
    requires Execution(states, moves) && n < |states|
    ensures Inv(states[n])
    ensures states[n].geneses <= 1
    ensures forall c :: c in states[n].firstEpochs ==> states[n].firstEpochs[c] in states[n].roster
  {
    if n > 0 {
      EveryReachableStateIsKeyed(states, moves, n - 1);
      StepKeeps(states[n - 1], states[n], moves[n - 1].id, moves[n - 1].step);
    }
  }

  lemma LaterStill(s: Sys, s': Sys, s'': Sys)
    requires Later(s, s') && Later(s', s'')
    ensures Later(s, s'')
  {
  }

  lemma {:induction false} NothingTakenBack(states: seq<Sys>, moves: seq<Move>, i: nat, j: nat)
    requires Execution(states, moves) && i <= j < |states|
    ensures Later(states[i], states[j])
    decreases j - i
  {
    if i < j {
      var k := j - 1;
      NothingTakenBack(states, moves, i, k);
      EveryReachableStateIsKeyed(states, moves, k);
      StepKeeps(states[k], states[k + 1], moves[k].id, moves[k].step);
      LaterStill(states[i], states[k], states[k + 1]);
    }
  }

  // ---- What a mend reads before it mints

  /** Since it began, the run read collection `c` and found it unkeyed. */
  ghost predicate ReadUnkeyed(states: seq<Sys>, moves: seq<Move>, n: nat, id: RunId, c: CollectionId)
    requires |states| == |moves| + 1 && n <= |moves|
  {
    exists k: nat :: ReadUnkeyedAt(states, moves, n, id, c, k)
  }

  ghost predicate ReadUnkeyedAt(states: seq<Sys>, moves: seq<Move>, n: nat, id: RunId, c: CollectionId, k: nat)
    requires |states| == |moves| + 1 && n <= |moves|
  {
    && k < n && moves[k] == Move(id, CheckCollection(c)) && c !in states[k].firstEpochs
    && forall l :: k < l < n && moves[l].id == id ==> !moves[l].step.Begin?
  }

  lemma StillReadUnkeyed(states: seq<Sys>, moves: seq<Move>, n: nat, id: RunId, c: CollectionId)
    requires |states| == |moves| + 1 && n < |moves| && ReadUnkeyed(states, moves, n, id, c)
    requires moves[n].id == id ==> !moves[n].step.Begin?
    ensures ReadUnkeyed(states, moves, n + 1, id, c)
  {
    var k: nat :| ReadUnkeyedAt(states, moves, n, id, c, k);
    assert ReadUnkeyedAt(states, moves, n + 1, id, c, k);
  }

  lemma {:induction false} CheckedIsReadUnkeyed(states: seq<Sys>, moves: seq<Move>, n: nat, id: RunId, c: CollectionId)
    requires Execution(states, moves) && n <= |moves| && id in states[n].runs
    requires var run := states[n].runs[id]; run.kind == Mend && run.phase.Checking? && c in run.ids - run.phase.unread
    ensures ReadUnkeyed(states, moves, n, id, c)
  {
    if n > 0 {
      var s, s', move := states[n - 1], states[n], moves[n - 1];
      assert Next(s, s', move.id, move.step);
      if move == Move(id, CheckCollection(c)) && c !in s.firstEpochs {
        assert ReadUnkeyedAt(states, moves, n, id, c, n - 1);
      } else {
        CheckedIsReadUnkeyed(states, moves, n - 1, id, c);
        StillReadUnkeyed(states, moves, n - 1, id, c);
      }
    }
  }

  /** A mend puts its roster create only after it read every one of its collections
      unkeyed. */
  lemma MendReadsBeforeItMints(states: seq<Sys>, moves: seq<Move>, n: nat)
    requires Execution(states, moves) && n < |moves| && moves[n].step.PutRoster?
    ensures moves[n].id in states[n].runs
    ensures var id := moves[n].id;
            states[n].runs[id].kind == Mend ==>
              forall c :: c in states[n].runs[id].ids ==> ReadUnkeyed(states, moves, n, id, c)
  {
    var id := moves[n].id;
    assert Next(states[n], states[n + 1], id, PutRoster);
    if states[n].runs[id].kind == Mend {
      forall c | c in states[n].runs[id].ids ensures ReadUnkeyed(states, moves, n, id, c) {
        CheckedIsReadUnkeyed(states, moves, n, id, c);
      }
    }
  }

  predicate MintsRoster(s: Sys, s': Sys, step: Step) {
    step.PutRoster? && s'.roster != s.roster
  }

  lemma MintShape(s: Sys, s': Sys, id: RunId, step: Step)
    requires Inv(s) && Next(s, s', id, step) && MintsRoster(s, s', step)
    ensures id in s.runs && s.runs[id].kind != Adopted
    ensures s.roster == [] && s.firstEpochs == map[] && s'.roster == [s.runs[id].candidate]
  {
    PutRosterKeeps(s, id);
    assert RunOk(s, s.runs[id]);
  }

  /** A roster genesis that lands, lands beside no keyed collection and under its
      run's own candidate; no run over an adopted roster lands one; and no two
      land, wherever in the execution. */
  lemma OneGenesis(states: seq<Sys>, moves: seq<Move>, i: nat, j: nat)
    requires Execution(states, moves) && i <= j < |moves|
    requires MintsRoster(states[i], states[i + 1], moves[i].step)
    requires MintsRoster(states[j], states[j + 1], moves[j].step)
    ensures i == j
    ensures moves[i].id in states[i].runs && states[i].runs[moves[i].id].kind != Adopted
    ensures states[i].firstEpochs == map[] && states[i + 1].roster == [states[i].runs[moves[i].id].candidate]
  {
    EveryReachableStateIsKeyed(states, moves, i);
    EveryReachableStateIsKeyed(states, moves, j);
    MintShape(states[i], states[i + 1], moves[i].id, moves[i].step);
    MintShape(states[j], states[j + 1], moves[j].id, moves[j].step);
    if i < j { NothingTakenBack(states, moves, i + 1, j); }
  }

  /** A run writes a first epoch. */
  predicate Installs(s: Sys, s': Sys, id: RunId, step: Step) {
    step.PutFirstEpoch? && id in s.runs && s.runs[id].phase.Installing? && s'.firstEpochs != s.firstEpochs
  }

  lemma InstallShape(s: Sys, s': Sys, id: RunId, step: Step)
    requires Inv(s) && Next(s, s', id, step) && Installs(s, s', id, step)
    ensures var phase := s.runs[id].phase;
            && step.collection in phase.rest && step.collection !in s.firstEpochs
            && s'.firstEpochs == s.firstEpochs[step.collection := phase.key]
            && TakenAt(s.roster, phase.key, phase.heldAt)
  {
    assert RunOk(s, s.runs[id]);
  }

  lemma CurrentIffTakenLast(roster: seq<KeyId>, key: KeyId, size: nat)
    requires Distinct(roster) && TakenAt(roster, key, size)
    ensures key == roster[|roster| - 1] <==> |roster| == size
  {
  }

  /** Every first epoch that lands is one the guarded write permits -- its key is in
      the roster -- and it is under the roster's current key exactly when no
      rotation landed since its run took the descriptor it installs under. */
  lemma EveryInstallIsPermitted(states: seq<Sys>, moves: seq<Move>, i: nat)
    requires Execution(states, moves) && i < |moves| && Installs(states[i], states[i + 1], moves[i].id, moves[i].step)
    ensures var s, phase := states[i], states[i].runs[moves[i].id].phase;
            && phase.key in s.roster && s.roster != []
            && states[i + 1].firstEpochs == s.firstEpochs[moves[i].step.collection := phase.key]
            && (phase.key == Current(s) <==> |s.roster| == phase.heldAt)
  {
    EveryReachableStateIsKeyed(states, moves, i);
    var s, phase := states[i], states[i].runs[moves[i].id].phase;
    InstallShape(s, states[i + 1], moves[i].id, moves[i].step);
    CurrentIffTakenLast(s.roster, phase.key, phase.heldAt);
    assert s.roster[phase.heldAt - 1] in s.roster;
  }

  /** While nothing rotates, every keyed collection is under the roster's one key,
      which every run that installs holds. */
  lemma UnrotatedIsOneKey(states: seq<Sys>, moves: seq<Move>, n: nat)
    requires Execution(states, moves) && n < |states| && states[n].rotations == 0
    ensures forall c :: c in states[n].firstEpochs ==>
              states[n].roster != [] && states[n].firstEpochs[c] == Current(states[n])
    ensures forall id :: id in states[n].runs && states[n].runs[id].phase.Installing? ==>
              states[n].roster != [] && states[n].runs[id].phase.key == Current(states[n])
  {
    EveryReachableStateIsKeyed(states, moves, n);
    var s := states[n];
    forall c | c in s.firstEpochs ensures s.roster != [] && s.firstEpochs[c] == Current(s) {
      assert s.firstEpochs[c] in s.roster;
    }
    forall id | id in s.runs && s.runs[id].phase.Installing?
      ensures s.roster != [] && s.runs[id].phase.key == Current(s)
    {
      assert RunOk(s, s.runs[id]);
    }
  }

  /** A run with nothing left to install keyed every collection it did not report. */
  lemma InstalledIsKeyed(states: seq<Sys>, moves: seq<Move>, n: nat, id: RunId)
    requires Execution(states, moves) && n < |states| && id in states[n].runs
    requires states[n].runs[id].phase.Installing? && states[n].runs[id].phase.rest == {}
    ensures forall c :: c in states[n].runs[id].ids && c !in states[n].runs[id].phase.failed ==>
              c in states[n].firstEpochs
  {
    EveryReachableStateIsKeyed(states, moves, n);
    assert RunOk(states[n], states[n].runs[id]);
  }

  // ---- Runs that get through

  lemma Stepped(states: seq<Sys>, moves: seq<Move>, s': Sys, id: RunId, step: Step)
    returns (states': seq<Sys>, moves': seq<Move>)
    requires Execution(states, moves) && Next(states[|moves|], s', id, step)
    ensures Execution(states', moves') && states'[|moves'|] == s'
  {
    states', moves' := states + [s'], moves + [Move(id, step)];
    forall i | 0 <= i < |moves'| ensures Next(states'[i], states'[i + 1], moves'[i].id, moves'[i].step) {
      if i < |moves| { assert states'[i] == states[i] && states'[i + 1] == states[i + 1] && moves'[i] == moves[i]; }
    }
  }

  /** Run `id` alone installs what it has left. */
  lemma {:induction false} InstallsRest(states: seq<Sys>, moves: seq<Move>, id: RunId, rest: set<CollectionId>)
    returns (states': seq<Sys>, moves': seq<Move>)
    requires Execution(states, moves) && id in states[|moves|].runs && states[|moves|].runs[id].phase.Installing?
    requires states[|moves|].runs[id].phase.rest == rest
    ensures Execution(states', moves')
    ensures var s, s' := states[|moves|], states'[|moves'|];
            && s'.roster == s.roster && id in s'.runs && s'.runs.Keys == s.runs.Keys
            && (forall other :: other in s.runs && other != id ==> s'.runs[other] == s.runs[other])
            && (forall c :: c in s.firstEpochs ==> c in s'.firstEpochs && s'.firstEpochs[c] == s.firstEpochs[c])
            && (forall c :: c in rest && c !in s.firstEpochs ==>
                  c in s'.firstEpochs && s'.firstEpochs[c] == s.runs[id].phase.key)
    decreases |rest|
  {
    if rest == {} {
      states', moves' := states, moves;
    } else {
      var s := states[|moves|];
      var c :| c in rest;
      var s' := WithPhase(s, id, s.runs[id].phase.(rest := rest - {c})).(firstEpochs :=
                  if c in s.firstEpochs then s.firstEpochs else s.firstEpochs[c := s.runs[id].phase.key]);
      states', moves' := Stepped(states, moves, s', id, PutFirstEpoch(c));
      states', moves' := InstallsRest(states', moves', id, rest - {c});
    }
  }

  function Begun(s: Sys, id: RunId, run: Run): Sys {
    s.(runs := s.runs[id := run])
  }

  lemma PhaseOf(s: Sys, id: RunId, run: Run, phase: Phase)
    ensures WithPhase(Begun(s, id, run), id, phase) == Begun(s, id, run.(phase := phase))
  {
    assert s.runs[id := run][id := run.(phase := phase)] == s.runs[id := run.(phase := phase)];
  }

  /** A first run mints the roster under its candidate. */
  lemma Mints(candidate: KeyId, ids: set<CollectionId>) returns (states: seq<Sys>, moves: seq<Move>)
    ensures Execution(states, moves)
    ensures var s := states[|moves|];
            s.roster == [candidate] && s.firstEpochs == map[] && s.runs.Keys == {0}
            && s.runs[0] == Run(candidate, Genesis, {}, ids, Installing(candidate, 1, ids, {}))
  {
    var s := Sys([], map[], 0, 0, map[]);
    var run := Run(candidate, Genesis, {}, ids, Reading);
    var minted := s.(roster := [candidate], geneses := 1);
    PhaseOf(s, 0, run, Checking({}));
    PhaseOf(s, 0, run.(phase := Checking({})), Holding(candidate, 1));
    PhaseOf(minted, 0, run.(phase := Holding(candidate, 1)), Installing(candidate, 1, ids, {}));
    states, moves := Stepped([s], [], Begun(s, 0, run), 0, Begin(candidate, Genesis, {}, ids));
    states, moves := Stepped(states, moves, Begun(s, 0, run.(phase := Checking({}))), 0, ReadRoster);
    states, moves := Stepped(states, moves, Begun(minted, 0, run.(phase := Holding(candidate, 1))), 0, PutRoster);
    states, moves := Stepped(states, moves, Begun(minted, 0, run.(phase := Installing(candidate, 1, ids, {}))), 0, Gate);
  }

  /** A genesis that finds another's roster turns to the adopted arm and installs
      under the key delivered. */
  lemma Adopts(states: seq<Sys>, moves: seq<Move>, id: RunId, candidate: KeyId, delivered: KeyId, ids: set<CollectionId>)
    returns (states': seq<Sys>, moves': seq<Move>)
    requires Execution(states, moves) && id !in states[|moves|].runs && states[|moves|].roster == [delivered]
    requires candidate != delivered
    ensures Execution(states', moves')
    ensures var s, s' := states[|moves|], states'[|moves'|];
            && s' == Begun(s, id, Run(candidate, Adopted, {delivered}, ids, Installing(delivered, 1, ids, {})))
  {
    var s := states[|moves|];
    var run := Run(candidate, Genesis, {delivered}, ids, Reading);
    var turned := run.(kind := Adopted);
    PhaseOf(s, id, run, Holding(delivered, 1));
    PhaseOf(s, id, turned, Holding(delivered, 1));
    PhaseOf(s, id, turned.(phase := Holding(delivered, 1)), Installing(delivered, 1, ids, {}));
    assert s.runs[id := run.(phase := Holding(delivered, 1))][id := turned] == s.runs[id := turned];
    states', moves' := Stepped(states, moves, Begun(s, id, run), id, Begin(candidate, Genesis, {delivered}, ids));
    states', moves' := Stepped(states', moves', Begun(s, id, run.(phase := Holding(delivered, 1))), id, ReadRoster);
    states', moves' := Stepped(states', moves', Begun(s, id, turned), id, Gate);
    states', moves' := Stepped(states', moves', Begun(s, id, turned.(phase := Holding(delivered, 1))), id, ReadRoster);
    states', moves' := Stepped(states', moves', Begun(s, id, turned.(phase := Installing(delivered, 1, ids, {}))), id, Gate);
  }

  /** Two establishments, one after the other, get through: the second adopts the
      first one's roster, and what either was asked for is keyed under its key. */
  lemma SecondEstablishmentAdopts(first: KeyId, second: KeyId, ids: set<CollectionId>, more: set<CollectionId>)
    returns (states: seq<Sys>, moves: seq<Move>)
    requires first != second
    ensures Execution(states, moves) && states[|moves|].roster == [first]
    ensures forall c :: c in ids || c in more ==>
              c in states[|moves|].firstEpochs && states[|moves|].firstEpochs[c] == first
  {
    states, moves := Mints(first, ids);
    states, moves := InstallsRest(states, moves, 0, ids);
    assert 1 !in states[|moves|].runs;
    states, moves := Adopts(states, moves, 1, second, first, more);
    states, moves := InstallsRest(states, moves, 1, more);
    EveryReachableStateIsKeyed(states, moves, |moves|);
  }

  /** A mend reads its collections one by one while none is keyed. */
  lemma {:induction false} ChecksRest(states: seq<Sys>, moves: seq<Move>, id: RunId, run: Run, unread: set<CollectionId>)
    returns (states': seq<Sys>, moves': seq<Move>)
    requires Execution(states, moves) && states[|moves|].firstEpochs == map[]
    requires id in states[|moves|].runs && states[|moves|].runs[id] == run.(phase := Checking(unread))
    ensures Execution(states', moves')
    ensures states'[|moves'|] == Begun(states[|moves|], id, run.(phase := Checking({})))
    decreases |unread|
  {
    var s := states[|moves|];
    if unread == {} {
      states', moves' := states, moves;
      assert Begun(s, id, run.(phase := Checking({}))) == s;
    } else {
      var c :| c in unread;
      var checked := Begun(s, id, run.(phase := Checking(unread - {c})));
      assert WithPhase(s, id, Checking(unread - {c})) == checked;
      states', moves' := Stepped(states, moves, checked, id, CheckCollection(c));
      states', moves' := ChecksRest(states', moves', id, run, unread - {c});
      assert checked.runs[id := run.(phase := Checking({}))] == s.runs[id := run.(phase := Checking({}))];
    }
  }

  /** A mend begun over an absent roster gets to its create. */
  lemma MendReady(states: seq<Sys>, moves: seq<Move>, id: RunId, run: Run)
    returns (states': seq<Sys>, moves': seq<Move>)
    requires Execution(states, moves) && id !in states[|moves|].runs && run.kind == Mend
    requires states[|moves|].roster == [] && states[|moves|].firstEpochs == map[]
    ensures Execution(states', moves')
    ensures states'[|moves'|] == Begun(states[|moves|], id, run.(phase := Checking({})))
  {
    var s := states[|moves|];
    var reading, checking := run.(phase := Reading), run.(phase := Checking(run.ids));
    PhaseOf(s, id, reading, Checking(run.ids));
    states', moves' := Stepped(states, moves, Begun(s, id, reading), id, Begin(run.candidate, Mend, run.wraps, run.ids));
    states', moves' := Stepped(states', moves', Begun(s, id, checking), id, ReadRoster);
    states', moves' := ChecksRest(states', moves', id, run, run.ids);
    assert s.runs[id := checking][id := run.(phase := Checking({}))] == s.runs[id := run.(phase := Checking({}))];
  }

  /** The winner's create and gate, from where both mends are about to create. */
  lemma WinnerMints(states: seq<Sys>, moves: seq<Move>, id: RunId, run: Run)
    returns (states': seq<Sys>, moves': seq<Move>)
    requires Execution(states, moves) && id in states[|moves|].runs && states[|moves|].roster == [] && run.kind == Mend
    requires states[|moves|].runs[id] == run.(phase := Checking({}))
    ensures Execution(states', moves')
    ensures var s := states[|moves|];
            states'[|moves'|] == Begun(s, id, run.(phase := Installing(run.candidate, 1, run.ids, {}))).(
                                   roster := [run.candidate], geneses := s.geneses + 1)
  {
    var s := states[|moves|];
    var minted := s.(roster := [run.candidate], geneses := s.geneses + 1);
    var holding := run.(phase := Holding(run.candidate, 1));
    PhaseOf(minted, id, holding, Installing(run.candidate, 1, run.ids, {}));
    states', moves' := Stepped(states, moves, Begun(minted, id, holding), id, PutRoster);
    states', moves' := Stepped(states', moves', Begun(minted, id, run.(phase := Installing(run.candidate, 1, run.ids, {}))), id, Gate);
  }

  /** The loser's create is lost; it reads the roster again and takes its key. */
  lemma LoserAdopts(states: seq<Sys>, moves: seq<Move>, id: RunId, run: Run, delivered: KeyId)
    returns (states': seq<Sys>, moves': seq<Move>)
    requires Execution(states, moves) && id in states[|moves|].runs && states[|moves|].roster == [delivered]
    requires run.kind == Mend && delivered in run.wraps && states[|moves|].runs[id] == run.(phase := Checking({}))
    ensures Execution(states', moves')
    ensures states'[|moves'|] == Begun(states[|moves|], id, run.(phase := Installing(delivered, 1, run.ids, {})))
  {
    var s := states[|moves|];
    var rereading, holding := run.(phase := Rereading), run.(phase := Holding(delivered, 1));
    PhaseOf(s, id, rereading, Holding(delivered, 1));
    PhaseOf(s, id, holding, Installing(delivered, 1, run.ids, {}));
    states', moves' := Stepped(states, moves, Begun(s, id, rereading), id, PutRoster);
    states', moves' := Stepped(states', moves', Begun(s, id, holding), id, Reread);
    states', moves' := Stepped(states', moves', Begun(s, id, run.(phase := Installing(delivered, 1, run.ids, {}))), id, Gate);
  }

  /** Two mends race to their creates and both get through: the one whose create is
      lost adopts the other's key, and what either was asked for is keyed under it. */
  lemma RacingMendsConverge(first: KeyId, second: KeyId, ids: set<CollectionId>, more: set<CollectionId>)
    returns (states: seq<Sys>, moves: seq<Move>)
    requires first != second
    ensures Execution(states, moves) && states[|moves|].roster == [first]
    ensures forall c :: c in ids || c in more ==>
              c in states[|moves|].firstEpochs && states[|moves|].firstEpochs[c] == first
  {
    var s := Sys([], map[], 0, 0, map[]);
    var winner, loser := Run(first, Mend, {}, ids, Reading), Run(second, Mend, {first}, more, Reading);
    states, moves := [s], [];
    states, moves := MendReady(states, moves, 0, winner);
    states, moves := MendReady(states, moves, 1, loser);
    states, moves := WinnerMints(states, moves, 0, winner);
    states, moves := LoserAdopts(states, moves, 1, loser, first);
    states, moves := InstallsRest(states, moves, 0, ids);
    states, moves := InstallsRest(states, moves, 1, more);
    EveryReachableStateIsKeyed(states, moves, |moves|);
  }
}
