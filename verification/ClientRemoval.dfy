/** Taking one enrolled client's inventory out of the account log: the
    staged-hash attribution read off the log's history, and the fields a
    removal entry states. */
module ClientRemoval {
  import opened Seqs
  import opened WebvhLog

  /** What an entry builder states; the seam that signs it unions in the acting
      key, its hash and `commitHashes`. */
  datatype Fields = Fields(
    updateKeys: seq<Key>,
    nextKeyHashes: seq<Hash>,
    commitHashes: seq<Hash>,
    clients: set<ClientId>,
    ladderVms: set<LadderId>,
    pointer: Option<Generation>)

  function HashBefore(log: Log, i: nat): set<Hash>
    requires i < |log|
  {
    if i == 0 then {} else SetOf(log[i - 1].nextKeyHashes)
  }

  /** The hashes entry `i` adds to the standing set, in the order it adds them. */
  function OrderedAdded(log: Log, i: nat): seq<Hash>
    requires i < |log|
  {
    Without(log[i].nextKeyHashes, HashBefore(log, i))
  }

  function KeyFlags(log: Log, key: Key): (r: seq<bool>)
    ensures |r| == |log|
    ensures forall i :: 0 <= i < |log| ==> r[i] == (key in log[i].updateKeys)
  {
    seq(|log|, i requires 0 <= i < |log| => key in log[i].updateKeys)
  }

  function HashFlags(log: Log, h: Hash): (r: seq<bool>)
    ensures |r| == |log|
    ensures forall i :: 0 <= i < |log| ==> r[i] == (h in log[i].nextKeyHashes)
  {
    seq(|log|, i requires 0 <= i < |log| => h in log[i].nextKeyHashes)
  }

  /** The hash an entry adds right after the client's update-key hash. */
  function PositionalSuccessor(log: Log, i: nat, updateHash: Hash): Option<Hash>
    requires i < |log|
  {
    var added := OrderedAdded(log, i);
    var anchor := IndexOf(added, updateHash);
    if anchor == -1 || anchor + 1 == |added| then None else Some(added[anchor + 1])
  }

  /** The staged-hash candidates of entry `i`: what it adds, less the client's
      own update-key hash, the vouched hashes, and the hashes the log walk
      derives for standing credentials (which never displace the successor). */
  function Candidates(log: Log, i: nat, updateHash: Hash, vouched: set<Hash>, derived: set<Hash>): seq<Hash>
    requires i < |log|
  {
    var successor := PositionalSuccessor(log, i, updateHash);
    Dedup(Without(OrderedAdded(log, i),
                  {updateHash} + vouched + (set h | h in derived && successor != Some(h))))
  }

  datatype RemovalError = StagedCommitmentAmbiguous

  /** One candidate is the answer; among several, only the positional successor
      is; none leaves the entry without an answer. */
  function Chosen(log: Log, i: nat, updateHash: Hash, candidates: seq<Hash>)
    : Result<Option<Hash>, RemovalError>
    requires i < |log|
  {
    var successor := PositionalSuccessor(log, i, updateHash);
    if |candidates| == 0 then Success(None)
    else if |candidates| == 1 then Success(Some(candidates[0]))
    else if successor.Some? && successor.value in candidates then Success(successor)
    else Failure(StagedCommitmentAmbiguous)
  }

  /** The staged hash committed beside `key`: read at the entry that revealed
      the key, else at the entry that committed it. */
  function AttributeStagedHash(log: Log, key: Key, vouched: set<Hash>, derived: set<Hash>)
    : Result<Option<Hash>, RemovalError>
  {
    var updateHash := HashOf(key);
    var revealedAt := LatestRise(KeyFlags(log, key), |log| - 1);
    if revealedAt == -1 then Success(None)
    else
      var atReveal := Candidates(log, revealedAt, updateHash, vouched, derived);
      if |atReveal| > 0 then Chosen(log, revealedAt, updateHash, atReveal)
      else
        var committedAt := LatestRise(HashFlags(log, updateHash), revealedAt);
        if committedAt == -1 then Success(None)
        else Chosen(log, committedAt, updateHash, Candidates(log, committedAt, updateHash, vouched, derived))
  }

  /** Whether the log still states anything of the client. */
  predicate Present(log: Log, c: ClientId) {
    c in Head(log).clients || Active(c) in Head(log).updateKeys
    || HashOf(Active(c)) in Head(log).nextKeyHashes
  }

  function FieldsWithout(head: Entry, c: ClientId, staged: Option<Hash>): Fields {
    Fields(Without(head.updateKeys, {Active(c)}),
           Without(head.nextKeyHashes, {HashOf(Active(c))} + (if staged.Some? then {staged.value} else {})),
           [],
           head.clients - {c}, head.ladderVms, head.pointer)
  }

  /** The removal entry's fields: the client, its update key, its update-key
      hash, and -- only while its key stands -- the attributed staged hash. */
  function RemovalFields(log: Log, c: ClientId, vouched: set<Hash>, derived: set<Hash>)
    : Result<Fields, RemovalError>
  {
    var head := Head(log);
    var staged := if Active(c) in head.updateKeys
                  then AttributeStagedHash(log, Active(c), vouched, derived) else Success(None);
    match staged
    case Failure(err) => Failure(err)
    case Success(found) =>
      Success(FieldsWithout(head, c, found))
  }

  /** The client's update-key hash first stands at `k`, its staged hash next. */
  ghost predicate PairStartsAt(added: seq<Hash>, k: int, c: ClientId) {
    && 0 <= k < |added| - 1
    && added[k] == HashOf(Active(c)) && added[k + 1] == HashOf(Staged(c))
    && HashOf(Active(c)) !in added[..k]
  }

  /** Entry `i` adds the client's staged hash right after its update-key hash. */
  ghost predicate PairAt(log: Log, i: nat, c: ClientId)
    requires i < |log|
  {
    exists k :: PairStartsAt(OrderedAdded(log, i), k, c)
  }

  function CommitIndex(log: Log, c: ClientId): int {
    LatestRise(HashFlags(log, HashOf(Active(c))), |log| - 1)
  }

  function RevealIndex(log: Log, c: ClientId): int {
    LatestRise(KeyFlags(log, Active(c)), |log| - 1)
  }

  /** Entry `i` adds the client's update-key hash and at most a rung's after it:
      the staged hash stood already. */
  ghost predicate HalfAt(log: Log, i: nat, c: ClientId)
    requires i < |log|
  {
    var added := OrderedAdded(log, i);
    added == [HashOf(Active(c))] || exists n: Hash :: n.key.Rung? && added == [HashOf(Active(c))] + [n]
  }

  /** How a client's hashes entered the log they stand in: by one entry that adds
      both in order, or the update-key hash beside a staged one standing from
      before; its key revealed by an entry that adds no hash; and never the
      update-key hash without the staged one. */
  ghost predicate Traced(log: Log, c: ClientId) {
    && (HashOf(Active(c)) in Head(log).nextKeyHashes ==>
          && HashOf(Staged(c)) in Head(log).nextKeyHashes && 0 <= CommitIndex(log, c)
          && (PairAt(log, CommitIndex(log, c), c) || HalfAt(log, CommitIndex(log, c), c)))
    && (Active(c) in Head(log).updateKeys ==>
          0 <= RevealIndex(log, c) && OrderedAdded(log, RevealIndex(log, c)) == [])
  }

  /** What the entry that committed the client's update-key hash added right after
      it. */
  function Neighbour(log: Log, c: ClientId): Option<Hash> {
    var i := CommitIndex(log, c);
    if i < 0 then None else PositionalSuccessor(log, i, HashOf(Active(c)))
  }

  function Unvouched(h: Option<Hash>, vouched: set<Hash>): Option<Hash> {
    if h.Some? && h.value !in vouched then h else None
  }

  /** The hash a removal of the client strikes beside its update-key hash. */
  function Struck(log: Log, c: ClientId, vouched: set<Hash>): Option<Hash> {
    if Active(c) in Head(log).updateKeys then Unvouched(Neighbour(log, c), vouched) else None
  }

  /** A removal of the client strikes no standing hash but its own. */
  predicate Spares(log: Log, c: ClientId, vouched: set<Hash>) {
    var struck := Struck(log, c, vouched);
    struck.None? || struck == Some(HashOf(Staged(c))) || struck.value !in Head(log).nextKeyHashes
  }

  lemma OnlyMember(s: seq<Hash>, x: Hash)
    requires x in s
    ensures |s| == 1 ==> s[0] == x
  {
  }

  /** The commit entry's candidates resolve to the staged hash whatever the log
      walk derives, as long as the caller does not vouch for it. */
  lemma PairResolves(log: Log, i: nat, c: ClientId, vouched: set<Hash>, derived: set<Hash>)
    requires i < |log| && PairAt(log, i, c)
    requires HashOf(Staged(c)) !in vouched
    ensures var candidates := Candidates(log, i, HashOf(Active(c)), vouched, derived);
            Chosen(log, i, HashOf(Active(c)), candidates) == Success(Some(HashOf(Staged(c))))
    ensures PositionalSuccessor(log, i, HashOf(Active(c))) == Some(HashOf(Staged(c)))
  {
    var added := OrderedAdded(log, i);
    var k :| PairStartsAt(added, k, c);
    assert added[k] in added;
    assert forall j :: 0 <= j < k ==> added[j] == added[..k][j];
    assert IndexOf(added, HashOf(Active(c))) == k;
    assert added[k + 1] in added;
    OnlyMember(Candidates(log, i, HashOf(Active(c)), vouched, derived), HashOf(Staged(c)));
  }

  /** While a client's key stands, the entry that committed its hash is the
      latest one at or below the entry that revealed its key. */
  lemma CommittedBeforeRevealed(log: Log, c: ClientId)
    requires forall i :: 0 <= i < |log| ==> CarriesOver(log[i])
    requires Active(c) in Head(log).updateKeys
    ensures 0 <= RevealIndex(log, c)
    ensures LatestRise(HashFlags(log, HashOf(Active(c))), RevealIndex(log, c)) == CommitIndex(log, c)
  {
    var keys, hashes := KeyFlags(log, Active(c)), HashFlags(log, HashOf(Active(c)));
    var last := |log| - 1;
    RiseStartsTheRun(keys, last);
    var revealedAt, committedAt := RevealIndex(log, c), CommitIndex(log, c);
    forall j | revealedAt <= j <= last ensures hashes[j] {
      assert keys[j] && CarriesOver(log[j]);
    }
    RiseStartsTheRun(hashes, last);
    assert committedAt == 0 || !hashes[committedAt - 1];
    RiseIsUnique(hashes, revealedAt, committedAt);
  }

  /** Where the staged hash stood already, the candidates resolve to the rung's hash
      added beside the update-key hash, if there is one and nobody vouches for it. */
  lemma HalfResolves(log: Log, i: nat, c: ClientId, vouched: set<Hash>, derived: set<Hash>)
    requires i < |log| && HalfAt(log, i, c)
    ensures var next := PositionalSuccessor(log, i, HashOf(Active(c)));
            && (next.Some? ==> next.value.key.Rung?)
            && Chosen(log, i, HashOf(Active(c)), Candidates(log, i, HashOf(Active(c)), vouched, derived)) ==
               Success(Unvouched(next, vouched))
  {
    var u := HashOf(Active(c));
    if OrderedAdded(log, i) == [u] {
      AloneResolves(log, i, u, vouched, derived);
    } else {
      var n: Hash :| n.key.Rung? && OrderedAdded(log, i) == [u] + [n];
      BesideResolves(log, i, u, n, vouched, derived);
    }
  }

  lemma AloneResolves(log: Log, i: nat, u: Hash, vouched: set<Hash>, derived: set<Hash>)
    requires i < |log| && OrderedAdded(log, i) == [u]
    ensures PositionalSuccessor(log, i, u) == None
    ensures Chosen(log, i, u, Candidates(log, i, u, vouched, derived)) == Success(None)
  {
    assert IndexOf([u], u) == 0;
    var drop := {u} + vouched + (set h | h in derived && PositionalSuccessor(log, i, u) != Some(h));
    NoneOfTwo(u, u, drop);
  }

  lemma BesideResolves(log: Log, i: nat, u: Hash, n: Hash, vouched: set<Hash>, derived: set<Hash>)
    requires i < |log| && OrderedAdded(log, i) == [u] + [n] && u != n
    ensures PositionalSuccessor(log, i, u) == Some(n)
    ensures Chosen(log, i, u, Candidates(log, i, u, vouched, derived)) ==
            Success(if n in vouched then None else Some(n))
  {
    assert IndexOf([u] + [n], u) == 0;
    var drop := {u} + vouched + (set h | h in derived && Some(n) != Some(h));
    if n in vouched { NoneOfTwo(u, n, drop); } else { SecondOfTwo(u, n, drop); }
  }

  lemma CommitResolves(log: Log, i: nat, c: ClientId, vouched: set<Hash>, derived: set<Hash>)
    requires i < |log| && (PairAt(log, i, c) || HalfAt(log, i, c)) && HashOf(Staged(c)) !in vouched
    ensures var next := PositionalSuccessor(log, i, HashOf(Active(c)));
            && (next.Some? ==> next == Some(HashOf(Staged(c))) || next.value.key.Rung?)
            && Chosen(log, i, HashOf(Active(c)), Candidates(log, i, HashOf(Active(c)), vouched, derived)) ==
               Success(Unvouched(next, vouched))
  {
    if PairAt(log, i, c) { PairResolves(log, i, c, vouched, derived); } else { HalfResolves(log, i, c, vouched, derived); }
  }

  lemma RevealAddsNone(log: Log, c: ClientId, vouched: set<Hash>, derived: set<Hash>)
    requires Active(c) in Head(log).updateKeys && 0 <= RevealIndex(log, c) && OrderedAdded(log, RevealIndex(log, c)) == []
    requires 0 <= CommitIndex(log, c)
    requires LatestRise(HashFlags(log, HashOf(Active(c))), RevealIndex(log, c)) == CommitIndex(log, c)
    ensures AttributeStagedHash(log, Active(c), vouched, derived) ==
            Chosen(log, CommitIndex(log, c), HashOf(Active(c)),
                   Candidates(log, CommitIndex(log, c), HashOf(Active(c)), vouched, derived))
  {
    assert Candidates(log, RevealIndex(log, c), HashOf(Active(c)), vouched, derived) == [];
  }

  lemma NeighbourChosen(log: Log, c: ClientId, vouched: set<Hash>, derived: set<Hash>)
    requires 0 <= CommitIndex(log, c) && HashOf(Staged(c)) !in vouched && Active(c) in Head(log).updateKeys
    requires PairAt(log, CommitIndex(log, c), c) || HalfAt(log, CommitIndex(log, c), c)
    ensures Chosen(log, CommitIndex(log, c), HashOf(Active(c)),
                   Candidates(log, CommitIndex(log, c), HashOf(Active(c)), vouched, derived)) ==
            Success(Struck(log, c, vouched))
    ensures var n := Neighbour(log, c); n.Some? ==> n == Some(HashOf(Staged(c))) || n.value.key.Rung?
  {
    var i: nat := CommitIndex(log, c);
    CommitResolves(log, i, c, vouched, derived);
    assert Neighbour(log, c) == PositionalSuccessor(log, i, HashOf(Active(c)));
  }

  lemma HalfChosen(log: Log, c: ClientId, vouched: set<Hash>, derived: set<Hash>)
    requires 0 <= CommitIndex(log, c) && HalfAt(log, CommitIndex(log, c), c) && Active(c) in Head(log).updateKeys
    ensures Chosen(log, CommitIndex(log, c), HashOf(Active(c)),
                   Candidates(log, CommitIndex(log, c), HashOf(Active(c)), vouched, derived)) ==
            Success(Struck(log, c, vouched))
  {
    HalfResolves(log, CommitIndex(log, c), c, vouched, derived);
  }

  /** The client's key was revealed by an entry that adds no hash, and its update-key
      hash committed, before, beside a staged one standing already. */
  ghost predicate HalfRead(log: Log, c: ClientId) {
    && Active(c) in Head(log).updateKeys
    && 0 <= RevealIndex(log, c) && OrderedAdded(log, RevealIndex(log, c)) == []
    && LatestRise(HashFlags(log, HashOf(Active(c))), RevealIndex(log, c)) == CommitIndex(log, c)
    && 0 <= CommitIndex(log, c) && HalfAt(log, CommitIndex(log, c), c)
  }

  lemma HalfAttributed(log: Log, c: ClientId, vouched: set<Hash>, derived: set<Hash>)
    requires HalfRead(log, c)
    ensures AttributeStagedHash(log, Active(c), vouched, derived) == Success(Struck(log, c, vouched))
  {
    RevealAddsNone(log, c, vouched, derived);
    HalfChosen(log, c, vouched, derived);
  }

  /** While a traced client's key stands, the attribution never fails, and answers
      what was added beside the update-key hash unless it is vouched for. */
  lemma AttributesTheNeighbour(log: Log, c: ClientId, vouched: set<Hash>, derived: set<Hash>)
    requires forall i :: 0 <= i < |log| ==> CarriesOver(log[i])
    requires Traced(log, c) && Active(c) in Head(log).updateKeys
    requires HashOf(Staged(c)) !in vouched
    ensures AttributeStagedHash(log, Active(c), vouched, derived) == Success(Struck(log, c, vouched))
    ensures var n := Neighbour(log, c); n.Some? ==> n == Some(HashOf(Staged(c))) || n.value.key.Rung?
  {
    assert CarriesOver(Head(log));
    CommittedBeforeRevealed(log, c);
    RevealAddsNone(log, c, vouched, derived);
    NeighbourChosen(log, c, vouched, derived);
  }

  /** On a traced log whose commit entry added the pair, the attribution isolates
      exactly the client's own staged hash. */
  lemma StagedHashIsolated(log: Log, c: ClientId, vouched: set<Hash>, derived: set<Hash>)
    requires forall i :: 0 <= i < |log| ==> CarriesOver(log[i])
    requires Traced(log, c) && Active(c) in Head(log).updateKeys
    requires 0 <= CommitIndex(log, c) && PairAt(log, CommitIndex(log, c), c)
    requires HashOf(Staged(c)) !in vouched
    ensures AttributeStagedHash(log, Active(c), vouched, derived) == Success(Some(HashOf(Staged(c))))
  {
    AttributesTheNeighbour(log, c, vouched, derived);
    PairResolves(log, CommitIndex(log, c), c, vouched, derived);
  }

  // ---- Any log

  /** Entry `i` adds `h` and nothing rules it out as the staged hash. */
  predicate Claims(log: Log, i: nat, updateHash: Hash, vouched: set<Hash>, derived: set<Hash>, h: Hash)
    requires i < |log|
  {
    && h in OrderedAdded(log, i) && h != updateHash && h !in vouched
    && (h in derived ==> PositionalSuccessor(log, i, updateHash) == Some(h))
  }

  lemma CandidatesClaim(log: Log, i: nat, updateHash: Hash, vouched: set<Hash>, derived: set<Hash>, h: Hash)
    requires i < |log|
    ensures h in Candidates(log, i, updateHash, vouched, derived) <==> Claims(log, i, updateHash, vouched, derived, h)
  {
  }

  /** The entry the attribution reads: the one that revealed the key if something
      there could be the staged hash, else the one that committed its hash. */
  ghost function ReadIndex(log: Log, key: Key, vouched: set<Hash>, derived: set<Hash>): (i: int)
    ensures i < |log|
  {
    var revealedAt := LatestRise(KeyFlags(log, key), |log| - 1);
    if revealedAt < 0 then -1
    else if exists h :: Claims(log, revealedAt, HashOf(key), vouched, derived, h) then revealedAt
    else LatestRise(HashFlags(log, HashOf(key)), revealedAt)
  }

  /** Two hashes claim to be the staged one, and the one added right after the
      update-key hash is neither. */
  ghost predicate AmbiguousAt(log: Log, i: nat, updateHash: Hash, vouched: set<Hash>, derived: set<Hash>)
    requires i < |log|
  {
    && (exists g, h :: g != h && Claims(log, i, updateHash, vouched, derived, g) && Claims(log, i, updateHash, vouched, derived, h))
    && (var next := PositionalSuccessor(log, i, updateHash);
        next.None? || !Claims(log, i, updateHash, vouched, derived, next.value))
  }

  lemma CandidatesDistinct(log: Log, i: nat, updateHash: Hash, vouched: set<Hash>, derived: set<Hash>)
    requires i < |log|
    ensures var candidates := Candidates(log, i, updateHash, vouched, derived);
            forall j, k :: 0 <= j < k < |candidates| ==> candidates[j] != candidates[k]
  {
    DedupDistinct(Without(OrderedAdded(log, i), {updateHash} + vouched
                          + (set h | h in derived && PositionalSuccessor(log, i, updateHash) != Some(h))));
  }

  lemma ChosenOf(log: Log, i: nat, updateHash: Hash, vouched: set<Hash>, derived: set<Hash>, candidates: seq<Hash>)
    requires i < |log| && forall h :: h in candidates <==> Claims(log, i, updateHash, vouched, derived, h)
    requires forall j, k :: 0 <= j < k < |candidates| ==> candidates[j] != candidates[k]
    ensures var r := Chosen(log, i, updateHash, candidates);
            && (r.Failure? <==> AmbiguousAt(log, i, updateHash, vouched, derived))
            && (r == Success(None) <==> forall h :: !Claims(log, i, updateHash, vouched, derived, h))
            && (r.Success? && r.value.Some? ==>
                  && Claims(log, i, updateHash, vouched, derived, r.value.value)
                  && (PositionalSuccessor(log, i, updateHash) == r.value
                      || forall g :: Claims(log, i, updateHash, vouched, derived, g) ==> g == r.value.value))
  {
    if |candidates| > 0 { assert candidates[0] in candidates; }
    if |candidates| > 1 { assert candidates[1] in candidates && candidates[0] != candidates[1]; }
  }

  lemma ChosenAmong(log: Log, i: nat, updateHash: Hash, vouched: set<Hash>, derived: set<Hash>)
    requires i < |log|
    ensures var r := Chosen(log, i, updateHash, Candidates(log, i, updateHash, vouched, derived));
            && (r.Failure? <==> AmbiguousAt(log, i, updateHash, vouched, derived))
            && (r == Success(None) <==> forall h :: !Claims(log, i, updateHash, vouched, derived, h))
            && (r.Success? && r.value.Some? ==>
                  && Claims(log, i, updateHash, vouched, derived, r.value.value)
                  && (PositionalSuccessor(log, i, updateHash) == r.value
                      || forall g :: Claims(log, i, updateHash, vouched, derived, g) ==> g == r.value.value))
  {
    forall h ensures h in Candidates(log, i, updateHash, vouched, derived) <==> Claims(log, i, updateHash, vouched, derived, h) {
      CandidatesClaim(log, i, updateHash, vouched, derived, h);
    }
    CandidatesDistinct(log, i, updateHash, vouched, derived);
    ChosenOf(log, i, updateHash, vouched, derived, Candidates(log, i, updateHash, vouched, derived));
  }

  lemma ChosenAtIndex(log: Log, key: Key, vouched: set<Hash>, derived: set<Hash>)
    ensures var i := ReadIndex(log, key, vouched, derived);
            AttributeStagedHash(log, key, vouched, derived) ==
            if i < 0 then Success(None) else Chosen(log, i, HashOf(key), Candidates(log, i, HashOf(key), vouched, derived))
  {
    var revealedAt := LatestRise(KeyFlags(log, key), |log| - 1);
    if 0 <= revealedAt { ChosenAmong(log, revealedAt, HashOf(key), vouched, derived); }
  }

  /** On any log whatever, the attribution answers a hash only if the entry it reads
      adds it and nothing else there could be the staged one, or it comes right after
      the update-key hash; it fails exactly where two could be and neither does. */
  lemma AttributionFailsClosed(log: Log, key: Key, vouched: set<Hash>, derived: set<Hash>)
    ensures var r, i, u := AttributeStagedHash(log, key, vouched, derived), ReadIndex(log, key, vouched, derived), HashOf(key);
            if i < 0 then r == Success(None)
            else
              && (r.Failure? <==> AmbiguousAt(log, i, u, vouched, derived))
              && (r == Success(None) <==> forall h :: !Claims(log, i, u, vouched, derived, h))
              && (r.Success? && r.value.Some? ==>
                    && Claims(log, i, u, vouched, derived, r.value.value)
                    && (PositionalSuccessor(log, i, u) == r.value
                        || forall g :: Claims(log, i, u, vouched, derived, g) ==> g == r.value.value))
  {
    ChosenAtIndex(log, key, vouched, derived);
    var i := ReadIndex(log, key, vouched, derived);
    if 0 <= i { ChosenAmong(log, i, HashOf(key), vouched, derived); }
  }

  /** The client's hashes stand without its key: an enrollment's first entry
      landed and its second did not. */
  predicate KeyGone(head: Entry, c: ClientId) {
    Active(c) !in head.updateKeys && HashOf(Active(c)) in head.nextKeyHashes
  }

  /** The fields of a removal that takes out one client and nothing of any other:
      its key and its update-key hash, and of the rest at most its staged hash. */
  ghost predicate TakesOut(head: Entry, c: ClientId, f: Fields) {
    && (forall k :: k in f.updateKeys <==> k in head.updateKeys && k != Active(c))
    && (forall h :: h != HashOf(Staged(c)) ==>
          (h in f.nextKeyHashes <==> h in head.nextKeyHashes && h != HashOf(Active(c))))
    && (HashOf(Staged(c)) in f.nextKeyHashes ==> HashOf(Staged(c)) in head.nextKeyHashes)
    && f.commitHashes == [] && f.clients == head.clients - {c} && f.ladderVms == head.ladderVms
  }

  /** The pair a removal leaves when it does not strike the staged hash: that hash
      stands, the update-key hash and the key do not. */
  ghost predicate SplitPair(e: Entry, c: ClientId) {
    && HashOf(Staged(c)) in e.nextKeyHashes
    && HashOf(Active(c)) !in e.nextKeyHashes && Active(c) !in e.updateKeys
  }

  /** The client's two hashes stand only together, committed together. */
  ghost predicate Paired(log: Log, c: ClientId) {
    && (HashOf(Active(c)) in Head(log).nextKeyHashes <==> HashOf(Staged(c)) in Head(log).nextKeyHashes)
    && (HashOf(Active(c)) in Head(log).nextKeyHashes ==>
          0 <= CommitIndex(log, c) && PairAt(log, CommitIndex(log, c), c))
  }

  /** The fields with one more hash struck. */
  lemma FieldsStrike(head: Entry, c: ClientId, struck: Option<Hash>)
    ensures var f := FieldsWithout(head, c, struck);
            && (forall k :: k in f.updateKeys <==> k in head.updateKeys && k != Active(c))
            && (forall h :: h in f.nextKeyHashes <==>
                  h in head.nextKeyHashes && h != HashOf(Active(c)) && Some(h) != struck)
  {
  }

  /** A removal strikes the client's key, its update-key hash and what the walk back
      attributes to it, and nothing else. */
  lemma RemovalStrikes(log: Log, c: ClientId, vouched: set<Hash>, derived: set<Hash>)
    requires forall i :: 0 <= i < |log| ==> CarriesOver(log[i])
    requires Traced(log, c) && HashOf(Staged(c)) !in vouched
    ensures RemovalFields(log, c, vouched, derived) == Success(FieldsWithout(Head(log), c, Struck(log, c, vouched)))
  {
    if Active(c) in Head(log).updateKeys { AttributesTheNeighbour(log, c, vouched, derived); }
  }

  /** A removal that strikes no standing hash but the client's own takes out that
      client alone; its staged hash goes exactly when it is what was added beside
      the update-key hash and the key still stands. */
  lemma RemovalTakesOutOneClient(log: Log, c: ClientId, vouched: set<Hash>, derived: set<Hash>)
    requires forall i :: 0 <= i < |log| ==> CarriesOver(log[i])
    requires Traced(log, c) && HashOf(Staged(c)) !in vouched && Spares(log, c, vouched)
    ensures var r := RemovalFields(log, c, vouched, derived);
            && r.Success? && TakesOut(Head(log), c, r.value)
            && (HashOf(Staged(c)) in r.value.nextKeyHashes <==>
                  HashOf(Staged(c)) in Head(log).nextKeyHashes
                  && !(Active(c) in Head(log).updateKeys && Neighbour(log, c) == Some(HashOf(Staged(c)))))
  {
    RemovalStrikes(log, c, vouched, derived);
    FieldsStrike(Head(log), c, Struck(log, c, vouched));
  }
}
