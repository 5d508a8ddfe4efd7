/** Retiring the generation delegations one credential's ladder VM signed:
    revoke the historical ones, replace the embedded one, then revoke it. */
module Retirement {
  import opened Seqs

  type DelegationId = nat
  type VmKey = nat

  const ZCAP_RENEWAL_WINDOW_MS: int := 30 * 24 * 60 * 60 * 1000
  const STANDING_ZCAP_TTL_MS: int := 365 * 24 * 60 * 60 * 1000
  const REVOCATION_CLOCK_SKEW_MS: int := 10 * 60 * 1000

  /** A delegation as its bytes read: its id, its proof key and its expiry, each of
      which may be missing. */
  datatype Delegation = Delegation(id: Option<DelegationId>, signer: Option<VmKey>, expires: Option<int>)

  predicate Expired(d: Delegation, now: int) {
    d.expires.Some? && d.expires.value + REVOCATION_CLOCK_SKEW_MS <= now
  }

  predicate AtExpiry(d: Delegation, now: int) {
    d.expires.Some? && d.expires.value - REVOCATION_CLOCK_SKEW_MS <= now
  }

  predicate SignerGone(d: Delegation, docKeys: set<VmKey>) {
    d.signer.Some? && d.signer.value !in docKeys
  }

  /** Due for renewal: expiring, signed by a retiring key, or by none the document
      lists. */
  predicate Stale(d: Delegation, retiring: set<VmKey>, docKeys: set<VmKey>, now: int) {
    || d.expires.None? || d.expires.value - now <= ZCAP_RENEWAL_WINDOW_MS
    || d.signer.None? || d.signer.value in retiring || d.signer.value !in docKeys
  }

  /** A generation's log: the delegation each entry's document embeds. */
  type GenerationLog = seq<Option<Delegation>>

  function Embedded(log: GenerationLog): Option<Delegation> {
    if log == [] then None else log[|log| - 1]
  }

  /** Two embeddings of one id are the same delegation. */
  ghost predicate IdsName(log: GenerationLog) {
    forall d, e: Delegation :: Some(d) in log && Some(e) in log && d.id.Some? && d.id == e.id ==> d == e
  }

  function IdsOf(log: GenerationLog): set<DelegationId> {
    set i | 0 <= i < |log| && log[i].Some? && log[i].value.id.Some? :: log[i].value.id.value
  }

  method GenerationDelegationHistory(log: GenerationLog) returns (delegations: seq<Delegation>)
    ensures forall d :: d in delegations ==> d.id.Some? && Some(d) in log
    ensures IdsName(log) ==> forall d: Delegation :: d.id.Some? && Some(d) in log ==> d in delegations
    ensures forall i, j :: 0 <= i < j < |delegations| ==> delegations[i].id != delegations[j].id
  {
    var seen: set<DelegationId> := {};
    delegations := [];
    for n := 0 to |log|
      invariant forall d :: d in delegations ==> d.id.Some? && Some(d) in log[..n]
      invariant forall d :: d in delegations ==> d.id.value in seen
      invariant forall id :: id in seen ==> exists d :: d in delegations && d.id == Some(id)
      invariant IdsName(log) ==> forall d: Delegation :: d.id.Some? && Some(d) in log[..n] ==> d in delegations
      invariant forall i, j :: 0 <= i < j < |delegations| ==> delegations[i].id != delegations[j].id
    {
      assert log[..n + 1] == log[..n] + [log[n]];
      if log[n].Some? && log[n].value.id.Some? && log[n].value.id.value !in seen {
        var d := log[n].value;
        ghost var before := delegations;
        assert forall i :: 0 <= i < |before| ==> before[i] in before;
        seen := seen + {d.id.value};
        delegations := delegations + [d];
        assert d in delegations;
        assert forall e :: e in before ==> e in delegations;
      }
    }
    assert log[..|log|] == log;
  }

  datatype RevokeOutcome = Revoked | AlreadyRevoked | TreatedExpired | TreatedSignerGone | Threw

  /** How the server takes a revocation it has not recorded yet. */
  datatype Answer = Lands | Invalid | Fails

  /** A delegation the server keeps refusing to revoke. */
  predicate RefusedBy(d: Delegation, revoked: set<DelegationId>, answers: map<DelegationId, Answer>) {
    d.id.Some? && d.id.value !in revoked && d.id.value in answers && answers[d.id.value] == Fails
  }

  function AnswerTo(d: Delegation, answers: map<DelegationId, Answer>): Answer
    requires d.id.Some?
  {
    if d.id.value in answers then answers[d.id.value] else Lands
  }

  /** A revocation the server's answer neither lands nor excuses: the delegation is
      not past its expiry, nor revoked before, and an invalid chain is explained
      neither by its expiry nor by its signer being gone. */
  predicate Throws(d: Delegation, revoked: set<DelegationId>, docKeys: set<VmKey>, now: int, answer: Answer) {
    && d.id.Some? && d.id.value !in revoked && !Expired(d, now)
    && (answer == Fails || (answer == Invalid && !AtExpiry(d, now) && !SignerGone(d, docKeys)))
  }

  /** Whether this credential may write the generation's log. */
  datatype Writer = Committed | Uncommitted | CarryOverBroken

  /** Where a run is cut short, besides inside a batch of revocations. */
  datatype Stop = BeforeMint | BeforeLast | Nowhere

  /** One run's circumstances: its clock, the id a mint would take, the server's
      answers, the writer's standing and where the run is cut. */
  datatype Attempt = Attempt(now: int, minted: DelegationId, answers: map<DelegationId, Answer>, writer: Writer, stop: Stop)

  /** A delegation of this ladder's whose revocation this attempt cannot land. */
  predicate Persists(d: Delegation, vmKey: VmKey, revoked: set<DelegationId>, attempt: Attempt) {
    d.signer == Some(vmKey) && RefusedBy(d, revoked, attempt.answers) && !Expired(d, attempt.now)
  }

  /** No cut, no refused revocation, no broken carry-over. */
  ghost predicate Unhindered(attempt: Attempt) {
    && attempt.stop == Nowhere && attempt.writer != CarryOverBroken
    && forall id :: id in attempt.answers ==> attempt.answers[id] == Lands
  }

  datatype Report = Halted | Retired(replaced: bool, rungUncommitted: bool)

  class Generation {
    var log: GenerationLog
    var revoked: set<DelegationId>

    constructor ()
      ensures log == [] && revoked == {}
    {
      log, revoked := [], {};
    }

    /** Nothing can invoke `d` any more, as far as this run can tell. */
    predicate Spent(d: Delegation, docKeys: set<VmKey>, now: int)
      reads this
    {
      (d.id.Some? && d.id.value in revoked) || AtExpiry(d, now) || SignerGone(d, docKeys)
    }

    /** The generation embeds a delegation no revocation reached. */
    predicate Live()
      reads this
    {
      Embedded(log).Some? && (Embedded(log).value.id.Some? ==> Embedded(log).value.id.value !in revoked)
    }

    method RevokeTreatingAlreadyRevokedAsSuccess(d: Delegation, docKeys: set<VmKey>, now: int, answer: Answer)
      returns (outcome: RevokeOutcome)
      requires d.id.Some?
      modifies this`revoked
      ensures outcome != Threw ==> Spent(d, docKeys, now)
      ensures outcome == Threw <==> Throws(d, old(revoked), docKeys, now, answer)
      ensures revoked == if answer == Lands && !Expired(d, now) then old(revoked) + {d.id.value} else old(revoked)
    {
      if Expired(d, now) { return TreatedExpired; }
      if d.id.value in revoked { return AlreadyRevoked; }
      match answer
      case Lands =>
        revoked := revoked + {d.id.value};
        return Revoked;
      case Invalid =>
        if AtExpiry(d, now) { return TreatedExpired; }
        if SignerGone(d, docKeys) { return TreatedSignerGone; }
        return Threw;
      case Fails => return Threw;
    }

    /** One batch: every revocation is attempted, and a rejection is reported only
        after all of them. */
    method RevokeDoomed(doomed: seq<Delegation>, docKeys: set<VmKey>, now: int, answers: map<DelegationId, Answer>)
      returns (rejected: bool)
      requires forall d :: d in doomed ==> d.id.Some?
      modifies this`revoked
      ensures old(revoked) <= revoked
      ensures forall id :: id in revoked && id !in old(revoked) ==>
                exists d :: d in doomed && d.id == Some(id) && !Expired(d, now) && AnswerTo(d, answers) == Lands
      ensures forall d :: d in doomed && !Expired(d, now) && AnswerTo(d, answers) == Lands ==> d.id.value in revoked
      ensures !rejected ==> forall d :: d in doomed ==> Spent(d, docKeys, now)
      ensures rejected <==> exists d :: d in doomed && Throws(d, old(revoked), docKeys, now, AnswerTo(d, answers))
      ensures forall d :: d in doomed && RefusedBy(d, old(revoked), answers) && !Expired(d, now) ==> rejected
      ensures forall id :: id !in old(revoked) && id in answers && answers[id] == Fails ==> id !in revoked
      ensures (forall id :: id in answers ==> answers[id] == Lands) ==> !rejected
    {
      rejected := false;
      for n := 0 to |doomed|
        invariant old(revoked) <= revoked
        invariant forall id :: id in revoked && id !in old(revoked) ==>
                    exists d :: d in doomed[..n] && d.id == Some(id) && !Expired(d, now) && AnswerTo(d, answers) == Lands
        invariant forall d :: d in doomed[..n] && !Expired(d, now) && AnswerTo(d, answers) == Lands ==> d.id.value in revoked
        invariant rejected <==> exists d :: d in doomed[..n] && Throws(d, old(revoked), docKeys, now, AnswerTo(d, answers))
        invariant !rejected ==> forall d :: d in doomed[..n] ==> Spent(d, docKeys, now)
        invariant forall id :: id !in old(revoked) && id in answers && answers[id] == Fails ==> id !in revoked
        invariant forall d :: d in doomed[..n] && RefusedBy(d, old(revoked), answers) && !Expired(d, now) ==> rejected
        invariant (forall id :: id in answers ==> answers[id] == Lands) ==> !rejected
      {
        var d := doomed[n];
        assert doomed[..n + 1] == doomed[..n] + [d];
        var outcome := RevokeTreatingAlreadyRevokedAsSuccess(d, docKeys, now, AnswerTo(d, answers));
        if outcome == Threw { rejected := true; }
      }
      assert doomed[..|doomed|] == doomed;
    }

    /** What the stage is to end: the history's delegations signed by the ladder VM,
        the embedded one (`embedded`) or all the others. */
    method Doomed(vmKey: VmKey, embedded: bool) returns (doomed: seq<Delegation>)
      requires IdsName(log)
      ensures forall d: Delegation :: d in doomed <==>
                && d.id.Some? && Some(d) in log && d.signer == Some(vmKey)
                && (embedded <==> Embedded(log).Some? && Embedded(log).value.id == d.id)
    {
      var history := GenerationDelegationHistory(log);
      doomed := [];
      for n := 0 to |history|
        invariant forall d :: d in doomed <==>
                    && d in history[..n] && d.signer == Some(vmKey)
                    && (embedded <==> Embedded(log).Some? && Embedded(log).value.id == d.id)
      {
        var d := history[n];
        assert history[..n + 1] == history[..n] + [d];
        if d.signer == Some(vmKey) && (embedded <==> Embedded(log).Some? && Embedded(log).value.id == d.id) {
          doomed := doomed + [d];
        }
      }
      assert history[..|history|] == history;
    }

    /** The house staleness policy's replacement; `Uncommitted` and
        `CarryOverBroken` are the ways it cannot write. */
    method EnsureCurrent(vmKey: VmKey, clientKey: VmKey, docKeys: set<VmKey>, attempt: Attempt)
      returns (replaced: bool, failure: Option<Writer>)
      requires IdsName(log) && attempt.minted !in IdsOf(log)
      modifies this`log
      ensures IdsName(log)
      ensures failure.Some? ==> failure == Some(attempt.writer) && attempt.writer != Committed
      ensures replaced <==> log != old(log)
      ensures replaced ==> old(Embedded(log)).None? || Stale(old(Embedded(log)).value, {vmKey, clientKey}, docKeys, attempt.now)
      ensures replaced ==> log == old(log) + [Some(Delegation(Some(attempt.minted), Some(vmKey),
                                                              Some(attempt.now + STANDING_ZCAP_TTL_MS)))]
      ensures failure.None? && !replaced ==>
                && Embedded(log).Some? && var d := Embedded(log).value;
                && d.expires.Some? && d.expires.value > attempt.now + ZCAP_RENEWAL_WINDOW_MS
                && d.signer.Some? && d.signer.value in docKeys && d.signer.value != vmKey && d.signer.value != clientKey
      ensures attempt.writer == Committed ==>
                failure.None? && (replaced <==> old(Embedded(log)).None?
                                                || Stale(old(Embedded(log)).value, {vmKey, clientKey}, docKeys, attempt.now))
    {
      var standing := Embedded(log);
      if standing.Some? && !Stale(standing.value, {vmKey, clientKey}, docKeys, attempt.now) { return false, None; }
      if attempt.writer != Committed { return false, Some(attempt.writer); }
      var minted := Delegation(Some(attempt.minted), Some(vmKey), Some(attempt.now + STANDING_ZCAP_TTL_MS));
      InLogHasId(log);
      log := log + [Some(minted)];
      return true, None;
    }

    /** The stage. Wherever it stops, a generation that embedded a live delegation
        still does -- unless this ladder signed it and cannot write the log; a run
        that ends leaves every delegation of the log it found that this ladder
        signed spent; and a revocation the server refuses halts it, before any
        mint when the delegation is a historical one. */
    method RetireLadderGenerationDelegations(vmKey: VmKey, clientKey: VmKey, docKeys: set<VmKey>, attempt: Attempt)
      returns (report: Report)
      requires IdsName(log) && attempt.minted !in IdsOf(log) && attempt.minted !in revoked
      modifies this
      ensures IdsName(log) && old(revoked) <= revoked && attempt.minted !in revoked
      ensures forall id :: id in revoked && id !in old(revoked) ==> id in IdsOf(old(log))
      ensures forall d: Delegation :: Some(d) in old(log) && d.id.Some? && d.id.value in revoked && d.id.value !in old(revoked) ==>
                d.signer == Some(vmKey)
      ensures log != old(log) ==>
                old(Embedded(log)).None? || Stale(old(Embedded(log)).value, {vmKey, clientKey}, docKeys, attempt.now)
      ensures log == old(log) || (|log| == |old(log)| + 1 && old(log) <= log
                                  && Embedded(log).Some? && Embedded(log).value.id == Some(attempt.minted))
      ensures old(Live()) && !(attempt.writer == Uncommitted && Embedded(old(log)).value.signer == Some(vmKey)) ==> Live()
      ensures report.Retired? ==> forall d: Delegation :: Some(d) in old(log) && d.id.Some? && d.signer == Some(vmKey) ==>
                Spent(d, docKeys, attempt.now)
      ensures report.Retired? ==> (report.replaced <==> log != old(log))
      ensures Unhindered(attempt) ==> report.Retired?
      ensures report == Halted ==>
                || attempt.stop != Nowhere || attempt.writer == CarryOverBroken
                || exists d: Delegation :: Some(d) in old(log) && d.signer == Some(vmKey) && d.id.Some?
                     && Throws(d, old(revoked), docKeys, attempt.now, AnswerTo(d, attempt.answers))
      ensures report.Retired? && report.rungUncommitted ==> attempt.writer == Uncommitted
      ensures report.Retired? && !report.rungUncommitted ==>
                && Embedded(log).Some? && var d := Embedded(log).value;
                && d.expires.Some? && d.expires.value > attempt.now + ZCAP_RENEWAL_WINDOW_MS
                && d.signer.Some?
                && if report.replaced then d.signer.value == vmKey
                   else d.signer.value in docKeys && d.signer.value != vmKey && d.signer.value != clientKey
      ensures attempt.writer == Committed && report.Retired? ==> !report.rungUncommitted
      ensures forall d: Delegation :: Some(d) in old(log) && Persists(d, vmKey, old(revoked), attempt) ==>
                && report == Halted && d.id.value !in revoked
                && (!(Embedded(old(log)).Some? && Embedded(old(log)).value.id == d.id) ==> log == old(log))
    {
      InLogHasId(log);
      var historical := Doomed(vmKey, false);
      var embedded := Doomed(vmKey, true);
      var rejected := RevokeDoomed(historical, docKeys, attempt.now, attempt.answers);
      if rejected || attempt.stop == BeforeMint { return Halted; }
      var replaced, failure := EnsureCurrent(vmKey, clientKey, docKeys, attempt);
      if failure == Some(CarryOverBroken) || attempt.stop == BeforeLast { return Halted; }
      rejected := RevokeDoomed(embedded, docKeys, attempt.now, attempt.answers);
      if rejected { return Halted; }
      return Retired(replaced, failure.Some?);
    }

    /** Run as often as one likes against a server that refuses one of this
        ladder's delegations for good: at most one delegation is ever minted. */
    method RetryAgainstRefusal(vmKey: VmKey, clientKey: VmKey, docKeys: set<VmKey>, refused: Delegation,
                               attempts: seq<Attempt>)
      requires IdsName(log) && Some(refused) in log && refused.id.Some? && refused.id.value !in revoked
      requires forall k :: 0 <= k < |attempts| ==> Persists(refused, vmKey, revoked, attempts[k])
      requires forall k :: 0 <= k < |attempts| ==> attempts[k].minted !in IdsOf(log) && attempts[k].minted !in revoked
      requires forall j, k :: 0 <= j < k < |attempts| ==> attempts[j].minted != attempts[k].minted
      modifies this
      ensures |old(log)| <= |log| <= |old(log)| + 1 && old(log) <= log
      ensures !(Embedded(old(log)).Some? && Embedded(old(log)).value.id == refused.id) ==> log == old(log)
      ensures refused.id.value !in revoked
      ensures old(Live()) && (forall k :: 0 <= k < |attempts| ==> attempts[k].writer != Uncommitted) ==> Live()
    {
      ghost var wasEmbedded := Embedded(log).Some? && Embedded(log).value.id == refused.id;
      for n := 0 to |attempts|
        invariant IdsName(log) && Some(refused) in log && refused.id.value !in revoked
        invariant old(log) <= log
        invariant if Embedded(log).Some? && Embedded(log).value.id == refused.id
                  then log == old(log) else |log| <= |old(log)| + 1
        invariant !wasEmbedded ==> log == old(log)
        invariant forall k :: n <= k < |attempts| ==> attempts[k].minted !in IdsOf(log) && attempts[k].minted !in revoked
        invariant old(Live()) && (forall k :: 0 <= k < n ==> attempts[k].writer != Uncommitted) ==> Live()
      {
        ghost var before := log;
        InLogHasId(log);
        var _ := RetireLadderGenerationDelegations(vmKey, clientKey, docKeys, attempts[n]);
        IdsAfter(before, log, attempts[n].minted);
      }
    }
  }

  lemma InLogHasId(log: GenerationLog)
    ensures forall d: Delegation :: Some(d) in log && d.id.Some? ==> d.id.value in IdsOf(log)
  {
    forall d: Delegation | Some(d) in log && d.id.Some? ensures d.id.value in IdsOf(log) {
      var i :| 0 <= i < |log| && log[i] == Some(d);
      assert log[i].value.id.value == d.id.value;
    }
  }

  lemma IdsAfter(before: GenerationLog, log: GenerationLog, minted: DelegationId)
    requires log == before || (|log| == |before| + 1 && before <= log && Embedded(log).Some? && Embedded(log).value.id == Some(minted))
    ensures IdsOf(log) <= IdsOf(before) + {minted}
  {
    forall i | 0 <= i < |before| && before[i].Some? && before[i].value.id.Some?
      ensures before[i].value.id.value in IdsOf(before)
    {
    }
  }
}
