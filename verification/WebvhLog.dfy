/** The account log: keys, their hash commitments, entries, and the acceptance
    rule of a prerotated did:webvh log. */
module WebvhLog {
  import opened Seqs

  type LadderId = nat
  type ClientId = nat
  type Generation = nat

  /** Every update key a log can state: a rung of a credential's ladder, or an
      enrolled client's active or staged update key. Derivation is injective,
      so a key is its derivation. */
  datatype Key =
    | Rung(ladder: LadderId, index: nat)
    | Active(client: ClientId)
    | Staged(client: ClientId)

  /** A `nextKeyHashes` member. Hashing is injective, so a hash is its key. */
  datatype Hash = HashOf(key: Key)

  /** One published entry: who signed it and the state it leaves. `clients` is
      the document's `capabilityInvocation`, `ladderVms` the credentials whose
      ladder VM it lists. */
  datatype Entry = Entry(
    signer: Key,
    updateKeys: seq<Key>,
    nextKeyHashes: seq<Hash>,
    clients: set<ClientId>,
    ladderVms: set<LadderId>,
    pointer: Option<Generation>)

  type Log = s: seq<Entry> | 0 < |s| witness [Entry(Rung(0, 0), [], [], {}, {}, None)]

  function Head(log: Log): Entry { log[|log| - 1] }

  /** Prerotation: an entry is signed by one of its own update keys, and each
      of them was committed by the entry before it. */
  ghost predicate Accepts(previous: Entry, e: Entry) {
    && e.signer in e.updateKeys
    && forall k :: k in e.updateKeys ==> HashOf(k) in previous.nextKeyHashes
  }

  /** A log every reader verifies: its first entry is self-signed and each
      later one is accepted after the one before. */
  ghost predicate Verifies(log: Log) {
    && log[0].signer in log[0].updateKeys
    && forall i :: 0 < i < |log| ==> Accepts(log[i - 1], log[i])
  }

  /** The carry-over convention: every update key's own hash stands committed,
      so the next entry may state it again. */
  predicate CarriesOver(e: Entry) {
    forall k :: k in e.updateKeys ==> HashOf(k) in e.nextKeyHashes
  }

  lemma VerifiesExtended(log: Log, e: Entry)
    requires Verifies(log) && Accepts(Head(log), e)
    ensures Verifies(log + [e])
  {
    var longer := log + [e];
    forall i | 0 < i < |longer| ensures Accepts(longer[i - 1], longer[i]) {
      if i < |log| { assert longer[i] == log[i] && longer[i - 1] == log[i - 1]; }
    }
  }
}
