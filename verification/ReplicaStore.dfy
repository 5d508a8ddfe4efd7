/** The compare-and-swap loop every directory write runs, beside others running the
    same loop. */
module ReplicaStore {
  import opened Seqs
  import opened LabelText
  import opened Entry
  import opened Replicas
  import opened ReplicaLife

  const WRITE_ATTEMPTS: nat := 3

  datatype Outcome = Created | Updated | NothingThere | NothingToWrite | Refused(why: Refusal) | NoEtag | LostRace

  /** A writer's callback: what it makes of the body it is handed. */
  type Callback = (Op, Option<Members>) -> Change

  function Applied(change: Callback, op: Op, stored: Option<Members>): Option<Members> {
    if change(op, stored).Body? then Some(change(op, stored).members) else stored
  }

  /** A batch of writes, one after another. */
  function AllApplied(change: Callback, ops: seq<Op>, stored: Option<Members>): Option<Members> {
    if ops == [] then stored
    else Applied(change, ops[|ops| - 1], AllApplied(change, ops[..|ops| - 1], stored))
  }

  ghost predicate IsTail(rest: seq<seq<Op>>, script: seq<seq<Op>>) {
    |rest| <= |script| && rest == script[|script| - |rest|..]
  }

  /** Every write from the `from`th on is one of these. */
  ghost predicate OnlyOf(writes: seq<Op>, from: nat, script: seq<seq<Op>>) {
    forall n :: from <= n < |writes| ==> exists i :: 0 <= i < |script| && writes[n] in script[i]
  }

  /** The resource, its ETag, and -- for the proof -- every body it held and the
      write that made each from the one before. */
  class Resource {
    const change: Callback
    const servesEtag: bool
    var stored: Option<Members>
    var etag: nat
    var script: seq<seq<Op>>
    ghost var bodies: seq<Option<Members>>
    ghost var writes: seq<Op>

    constructor (change: Callback, servesEtag: bool, script: seq<seq<Op>>)
      ensures this.change == change && this.servesEtag == servesEtag && this.script == script
      ensures Valid() && stored == None && writes == []
    {
      this.change, this.servesEtag, this.script := change, servesEtag, script;
      stored, etag, bodies, writes := None, 0, [None], [];
    }

    /** What is stored is what the landed writes make one after another, each applied
        whole to the body the one before left. */
    ghost predicate Valid()
      reads this
    {
      && |bodies| == |writes| + 1 && bodies[0] == None && bodies[|writes|] == stored && etag == |writes|
      && forall n :: 0 <= n < |writes| ==> bodies[n + 1] == Applied(change, writes[n], bodies[n])
    }

    /** One conditional write of a body computed from the one still stored. */
    method Land(op: Op, members: Members)
      requires Valid() && change(op, stored) == Body(members)
      modifies this
      ensures Valid() && stored == Some(members) && writes == old(writes) + [op] && script == old(script)
      ensures bodies == old(bodies) + [stored] && etag == old(etag) + 1
    {
      stored := Some(members);
      etag := etag + 1;
      bodies, writes := bodies + [stored], writes + [op];
    }

    /** Others' writes landing meanwhile. */
    method Interfere()
      requires Valid()
      modifies this
      ensures Valid() && old(writes) <= writes && old(bodies) <= bodies
      ensures etag >= old(etag) && (etag == old(etag) ==> stored == old(stored) && writes == old(writes))
      ensures old(script) == [] ==> script == [] && etag == old(etag)
      ensures old(script) != [] ==>
                script == old(script)[1..] && stored == AllApplied(change, old(script)[0], old(stored))
      ensures OnlyOf(writes, |old(writes)|, old(script))
    {
      if script == [] { return; }
      var batch := script[0];
      script := script[1..];
      for n := 0 to |batch|
        invariant Valid() && old(writes) <= writes && old(bodies) <= bodies && script == old(script)[1..]
        invariant etag >= old(etag) && (etag == old(etag) ==> stored == old(stored) && writes == old(writes))
        invariant stored == AllApplied(change, batch[..n], old(stored))
        invariant forall k :: |old(writes)| <= k < |writes| ==> writes[k] in old(script)[0]
      {
        assert batch[..n + 1][..n] == batch[..n];
        var next := change(batch[n], stored);
        if next.Body? { Land(batch[n], next.members); }
      }
      assert batch[..|batch|] == batch;
    }

    /** `writePartyConnection`. A write that lands is applied whole to the body that
        stood at that moment, however many races it lost first; any other outcome
        leaves only what others wrote. */
    method WritePartyConnection(op: Op) returns (outcome: Outcome)
      requires Valid()
      modifies this
      ensures Valid() && old(writes) <= writes
      ensures outcome.Created? || outcome.Updated? ==>
                && |old(writes)| < |writes| && writes[|writes| - 1] == op
                && change(op, bodies[|writes| - 1]).Body? && stored == Applied(change, op, bodies[|writes| - 1])
                && (outcome.Created? <==> bodies[|writes| - 1].None?)
      ensures if outcome.Created? || outcome.Updated? then OnlyOf(writes[..|writes| - 1], |old(writes)|, old(script))
              else OnlyOf(writes, |old(writes)|, old(script))
      ensures outcome.LostRace? ==> |writes| >= |old(writes)| + WRITE_ATTEMPTS
      ensures old(script) == [] ==>
                var next := change(op, old(stored));
                if next.Body? && (old(stored).None? || servesEtag) then
                  && outcome == (if old(stored).None? then Created else Updated)
                  && stored == Some(next.members) && writes == old(writes) + [op]
                else
                  && stored == old(stored) && writes == old(writes)
                  && outcome == match next
                                case Body(_) => NoEtag
                                case Absent => NothingThere
                                case Unchanged => NothingToWrite
                                case Refuse(why) => Refused(why)
      ensures outcome.Refused? ==> change(op, stored) == Refuse(outcome.why)
      ensures outcome.NothingToWrite? ==> change(op, stored) == Unchanged
      ensures outcome.NothingThere? ==> change(op, stored) == Absent
      ensures outcome.NoEtag? ==> !servesEtag
    {
      for attempt := 0 to WRITE_ATTEMPTS
        invariant Valid() && old(writes) <= writes && |writes| >= |old(writes)| + attempt
        invariant OnlyOf(writes, |old(writes)|, old(script)) && IsTail(script, old(script))
        invariant old(script) == [] ==> attempt == 0 && stored == old(stored) && writes == old(writes)
      {
        Interfere();
        var read, readTag := stored, etag;
        var next := change(op, read);
        match next
        case Absent => return NothingThere;
        case Unchanged => return NothingToWrite;
        case Refuse(why) => return Refused(why);
        case Body(members) =>
          if read.Some? && !servesEtag { return NoEtag; }
          Interfere();
          if etag == readTag {
            Land(op, members);
            return if read.None? then Created else Updated;
          }
      }
      return LostRace;
    }
  }

  /** Over the replica writers' own callback, what the loop reaches is one of the
      runs every property of an entry's life is proved for. */
  lemma LandedWritesAreARun(rules: Rules, did: Text, change: Callback, bodies: seq<Option<Members>>, writes: seq<Op>)
    requires forall op, stored :: change(op, stored) == ChangeOf(rules, did, op, stored)
    requires |bodies| == |writes| + 1 && bodies[0] == None && IsDid(did)
    requires forall n :: 0 <= n < |writes| ==> bodies[n + 1] == Applied(change, writes[n], bodies[n])
    requires forall n :: 0 <= n < |writes| ==> OpOk(rules, writes[n], Parsed(rules, bodies[n]))
    ensures Execution(rules, did, bodies, writes)
    ensures forall n :: 0 <= n < |bodies| ==> StoredOk(rules, did, bodies[n])
  {
    assert Execution(rules, did, bodies, writes);
    forall n | 0 <= n < |bodies| ensures StoredOk(rules, did, bodies[n]) { EveryStateOk(rules, did, bodies, writes, n); }
  }
}
