/** The update-key ladder: recovering a credential's acting rung from the
    published log's standing parameters, and the frontier every run keeps. */
module Ladder {
  import opened Seqs
  import opened WebvhLog

  const LADDER_MAX_SCAN: nat := 128

  datatype RungState = Committed | Revealed

  datatype Attributed = Attributed(rung: nat, state: RungState)

  datatype AttributionError = Ambiguous | Uncommitted

  /** The scanned rungs standing in `updateKeys`, ascending. */
  function RevealedBelow(ladder: LadderId, e: Entry, n: nat): seq<nat> {
    if n == 0 then []
    else RevealedBelow(ladder, e, n - 1) + (if Rung(ladder, n - 1) in e.updateKeys then [n - 1] else [])
  }

  /** The scanned rungs of which only the hash stands, ascending. */
  function CommittedBelow(ladder: LadderId, e: Entry, n: nat): seq<nat> {
    if n == 0 then []
    else
      CommittedBelow(ladder, e, n - 1) +
      (if Rung(ladder, n - 1) !in e.updateKeys && HashOf(Rung(ladder, n - 1)) in e.nextKeyHashes
       then [n - 1] else [])
  }

  /** What `attributeLadderRung` answers, fail-closed. */
  function Attribute(ladder: LadderId, e: Entry): Result<Attributed, AttributionError> {
    var revealed := RevealedBelow(ladder, e, LADDER_MAX_SCAN);
    var committed := CommittedBelow(ladder, e, LADDER_MAX_SCAN);
    if |revealed| > 1 || |committed| > 1 then Failure(Ambiguous)
    else if |revealed| == 1 then Success(Attributed(revealed[0], Revealed))
    else if |committed| == 1 then Success(Attributed(committed[0], Committed))
    else Failure(Uncommitted)
  }

  method AttributeLadderRung(ladder: LadderId, published: Entry)
    returns (r: Result<Attributed, AttributionError>)
    ensures r == Attribute(ladder, published)
  {
    var revealed: seq<nat>, committed: seq<nat> := [], [];
    for index := 0 to LADDER_MAX_SCAN
      invariant revealed == RevealedBelow(ladder, published, index)
      invariant committed == CommittedBelow(ladder, published, index)
    {
      if Rung(ladder, index) in published.updateKeys {
        revealed := revealed + [index];
      } else if HashOf(Rung(ladder, index)) in published.nextKeyHashes {
        committed := committed + [index];
      }
    }
    if |revealed| > 1 || |committed| > 1 { return Failure(Ambiguous); }
    if |revealed| == 1 { return Success(Attributed(revealed[0], Revealed)); }
    if |committed| == 1 { return Success(Attributed(committed[0], Committed)); }
    return Failure(Uncommitted);
  }

  /** A rung the scan finds standing among the update keys. */
  predicate RevealedAt(ladder: LadderId, e: Entry, j: nat) {
    j < LADDER_MAX_SCAN && Rung(ladder, j) in e.updateKeys
  }

  /** A rung the scan finds with only its hash standing. */
  predicate CommittedAt(ladder: LadderId, e: Entry, j: nat) {
    && j < LADDER_MAX_SCAN
    && Rung(ladder, j) !in e.updateKeys
    && HashOf(Rung(ladder, j)) in e.nextKeyHashes
  }

  ghost predicate TwoRevealed(ladder: LadderId, e: Entry) {
    exists i: nat, j: nat :: i < j && RevealedAt(ladder, e, i) && RevealedAt(ladder, e, j)
  }

  ghost predicate TwoCommitted(ladder: LadderId, e: Entry) {
    exists i: nat, j: nat :: i < j && CommittedAt(ladder, e, i) && CommittedAt(ladder, e, j)
  }

  lemma {:induction false} RevealedScan(ladder: LadderId, e: Entry, n: nat)
    requires n <= LADDER_MAX_SCAN
    ensures var s := RevealedBelow(ladder, e, n);
            && (forall j: nat :: j in s <==> j < n && RevealedAt(ladder, e, j))
            && (forall p :: 0 <= p < |s| ==> s[p] < n)
            && (forall p, q :: 0 <= p < q < |s| ==> s[p] < s[q])
  {
    if n > 0 { RevealedScan(ladder, e, n - 1); }
  }

  lemma {:induction false} CommittedScan(ladder: LadderId, e: Entry, n: nat)
    requires n <= LADDER_MAX_SCAN
    ensures var s := CommittedBelow(ladder, e, n);
            && (forall j: nat :: j in s <==> j < n && CommittedAt(ladder, e, j))
            && (forall p :: 0 <= p < |s| ==> s[p] < n)
            && (forall p, q :: 0 <= p < q < |s| ==> s[p] < s[q])
  {
    if n > 0 { CommittedScan(ladder, e, n - 1); }
  }

  lemma RevealedPair(ladder: LadderId, e: Entry, n: nat)
    requires n == LADDER_MAX_SCAN
    ensures |RevealedBelow(ladder, e, n)| > 1 <==> TwoRevealed(ladder, e)
  {
    RevealedScan(ladder, e, n);
    var s := RevealedBelow(ladder, e, n);
    if |s| > 1 { assert s[0] in s && s[1] in s; }
  }

  lemma RevealedScanned(ladder: LadderId, e: Entry, n: nat)
    requires n == LADDER_MAX_SCAN
    ensures var s := RevealedBelow(ladder, e, n);
            && (|s| == 0 <==> forall j: nat :: !RevealedAt(ladder, e, j))
            && (|s| == 1 ==> forall j: nat :: RevealedAt(ladder, e, j) <==> j == s[0])
  {
    RevealedScan(ladder, e, n);
    var s := RevealedBelow(ladder, e, n);
    if |s| > 0 { assert s[0] in s; }
  }

  lemma CommittedPair(ladder: LadderId, e: Entry, n: nat)
    requires n == LADDER_MAX_SCAN
    ensures |CommittedBelow(ladder, e, n)| > 1 <==> TwoCommitted(ladder, e)
  {
    CommittedScan(ladder, e, n);
    var s := CommittedBelow(ladder, e, n);
    if |s| > 1 { assert s[0] in s && s[1] in s; }
  }

  lemma CommittedScanned(ladder: LadderId, e: Entry, n: nat)
    requires n == LADDER_MAX_SCAN
    ensures var s := CommittedBelow(ladder, e, n);
            && (|s| == 0 <==> forall j: nat :: !CommittedAt(ladder, e, j))
            && (|s| == 1 ==> forall j: nat :: CommittedAt(ladder, e, j) <==> j == s[0])
  {
    CommittedScan(ladder, e, n);
    var s := CommittedBelow(ladder, e, n);
    if |s| > 0 { assert s[0] in s; }
  }

  /** Over any entry whatever: the attribution refuses as ambiguous exactly
      when two scanned rungs stand in one role, answers a revealed rung
      before a committed one, and refuses as uncommitted exactly when no
      scanned rung stands. */
  lemma AttributedIff(ladder: LadderId, e: Entry)
    ensures Attribute(ladder, e) == Failure(Ambiguous)
            <==> TwoRevealed(ladder, e) || TwoCommitted(ladder, e)
    ensures forall j: nat ::
              (Attribute(ladder, e) == Success(Attributed(j, Revealed))
               <==> RevealedAt(ladder, e, j) && !TwoRevealed(ladder, e) && !TwoCommitted(ladder, e))
    ensures forall j: nat ::
              (Attribute(ladder, e) == Success(Attributed(j, Committed))
               <==> CommittedAt(ladder, e, j) && !TwoCommitted(ladder, e) && forall i: nat :: !RevealedAt(ladder, e, i))
    ensures Attribute(ladder, e) == Failure(Uncommitted)
            <==> forall j: nat :: !RevealedAt(ladder, e, j) && !CommittedAt(ladder, e, j)
  {
    RevealedPair(ladder, e, LADDER_MAX_SCAN);
    RevealedScanned(ladder, e, LADDER_MAX_SCAN);
    CommittedPair(ladder, e, LADDER_MAX_SCAN);
    CommittedScanned(ladder, e, LADDER_MAX_SCAN);
  }

  /** `a.rung` is the ladder's one acting rung: no other rung stands revealed,
      nothing below it stands committed, and nothing above it does beyond its
      successor. A revealed rung's own hash is committed; a committed rung has
      no successor committed beside it. */
  ghost predicate ActsAt(ladder: LadderId, e: Entry, a: Attributed) {
    && (Rung(ladder, a.rung) in e.updateKeys <==> a.state == Revealed)
    && HashOf(Rung(ladder, a.rung)) in e.nextKeyHashes
    && (forall j: nat :: Rung(ladder, j) in e.updateKeys ==> j == a.rung)
    && (forall j: nat :: HashOf(Rung(ladder, j)) in e.nextKeyHashes ==>
          j == a.rung || (a.state == Revealed && j == a.rung + 1))
  }

  ghost predicate Standing(ladder: LadderId, e: Entry) {
    exists a :: ActsAt(ladder, e, a)
  }

  /** No rung of the ladder stands in any role. */
  ghost predicate Unbound(ladder: LadderId, e: Entry) {
    && (forall j: nat :: Rung(ladder, j) !in e.updateKeys)
    && (forall j: nat :: HashOf(Rung(ladder, j)) !in e.nextKeyHashes)
    && ladder !in e.ladderVms
  }

  lemma {:induction false} ScanOfFrontier(ladder: LadderId, e: Entry, a: Attributed, n: nat)
    requires ActsAt(ladder, e, a)
    ensures RevealedBelow(ladder, e, n) == if a.state == Revealed && a.rung < n then [a.rung] else []
    ensures CommittedBelow(ladder, e, n) ==
            if a.state == Committed then (if a.rung < n then [a.rung] else [])
            else if a.rung + 1 < n && HashOf(Rung(ladder, a.rung + 1)) in e.nextKeyHashes then [a.rung + 1] else []
  {
    if n > 0 { ScanOfFrontier(ladder, e, a, n - 1); }
  }

  /** The acting rung of a standing ladder is unique, and the attribution
      recovers it exactly while it lies inside the scanned range; past the
      range the attribution refuses. */
  lemma AttributionRecoversTheFrontier(ladder: LadderId, e: Entry, a: Attributed)
    requires ActsAt(ladder, e, a)
    ensures Attribute(ladder, e) == Success(a) <==> a.rung < LADDER_MAX_SCAN
    ensures a.rung >= LADDER_MAX_SCAN ==> Attribute(ladder, e) == Failure(Uncommitted)
    ensures forall b :: ActsAt(ladder, e, b) ==> b == a
  {
    ScanOfFrontier(ladder, e, a, LADDER_MAX_SCAN);
  }
}
