/** The entries the ladder-anchored ceremonies publish on the account log, each
    planned from the log its attempt read. */
module AccountEntries {
  import opened Seqs
  import opened WebvhLog
  import opened Ladder
  import opened ClientRemoval

  datatype Refusal =
    | Attribution(error: AttributionError)
    | NotCarriedOver
    | NotAuthorized
    | PointerMoved
    | LastEnrolledClient
    | AnchorMissing
    | Removal(failure: RemovalError)

  /** What one attempt of a ceremony does with the log it read: nothing left to
      do before the attribution (`Skip`) or after it (`Decline`), a refusal, or
      one entry to publish on that head. */
  datatype Plan =
    | Skip
    | Decline(at: Attributed)
    | Refuse(why: Refusal)
    | Publish(entry: Entry)

  /** The single-entry ceremonies, and the first entry of a self-enrollment.
      `derived` is whatever the log walk claims for standing credentials. */
  datatype Ceremony =
    | RevealAndCommit(ladder: LadderId, client: ClientId)
    | RevealRung(ladder: LadderId)
    | MovePointer(ladder: LadderId, generation: Generation, expected: Option<Generation>)
    | MovePointerAsClient(client: ClientId, generation: Generation, expected: Option<Generation>)
    | SetLadderVm(ladder: LadderId, present: bool)
    | Forget(ladder: LadderId, client: ClientId, vouched: set<Hash>, derived: set<Hash>)
    | ForgetLast(ladder: LadderId, client: ClientId, vouched: set<Hash>, derived: set<Hash>)
    | Bind(ladder: LadderId, bound: LadderId)
    | BindAsClient(client: ClientId, bound: LadderId)

  function Unchanged(e: Entry): Fields {
    Fields(e.updateKeys, e.nextKeyHashes, [], e.clients, e.ladderVms, e.pointer)
  }

  /** The seam's unions: the acting key reveals itself and stays committed. */
  function SignedAs(key: Key, f: Fields): Entry {
    Entry(key, Dedup(f.updateKeys + [key]), Dedup(f.nextKeyHashes + [HashOf(key)] + f.commitHashes),
          f.clients, f.ladderVms, f.pointer)
  }

  function PublishAsLadder(head: Entry, ladder: LadderId, a: Attributed, f: Fields): Plan {
    if CarriesOver(head) then Publish(SignedAs(Rung(ladder, a.rung), f)) else Refuse(NotCarriedOver)
  }

  /** An enrolled client's entry states the keys verbatim and only adds hashes. */
  function PublishAsClient(head: Entry, client: ClientId, f: Fields): Plan {
    if Active(client) !in head.updateKeys then Refuse(NotAuthorized)
    else if !CarriesOver(head) then Refuse(NotCarriedOver)
    else Publish(Entry(Active(client), f.updateKeys, Dedup(f.nextKeyHashes + f.commitHashes),
                       f.clients, f.ladderVms, f.pointer))
  }

  function NextRungHash(ladder: LadderId, a: Attributed): Hash {
    HashOf(Rung(ladder, a.rung + 1))
  }

  function NeededHashes(ladder: LadderId, a: Attributed, c: ClientId): seq<Hash> {
    [HashOf(Active(c)), HashOf(Staged(c)), NextRungHash(ladder, a)]
  }

  /** Every hash a reveal of this ladder can have committed. */
  function LadderHashes(ladder: LadderId, a: Attributed): set<Hash> {
    set i | 0 <= i <= a.rung + 1 :: HashOf(Rung(ladder, i))
  }

  function PlanRemoval(log: Log, ladder: LadderId, a: Attributed, c: ClientId,
                       vouched: set<Hash>, derived: set<Hash>): Plan
  {
    match RemovalFields(log, c, vouched + LadderHashes(ladder, a), derived)
    case Failure(err) => Refuse(Removal(err))
    case Success(f) => PublishAsLadder(Head(log), ladder, a, f)
  }

  /** A ceremony's completion test, read before anything is attributed. */
  predicate Settled(cer: Ceremony, log: Log) {
    match cer
    case RevealAndCommit(_, c) => Active(c) in Head(log).updateKeys
    case SetLadderVm(ladder, present) => (ladder in Head(log).ladderVms) == present
    case Forget(_, c, _, _) => !Present(log, c)
    case ForgetLast(_, c, _, _) => !Present(log, c)
    case _ => false
  }

  function PointedAt(head: Entry, generation: Generation, commit: seq<Hash>): Fields {
    Unchanged(head).(pointer := Some(generation), commitHashes := commit)
  }

  function PlanAsLadder(cer: Ceremony, ladder: LadderId, log: Log, a: Attributed): Plan {
    var head := Head(log);
    match cer
    case RevealAndCommit(_, c) =>
      if a.state == Revealed && (forall h :: h in NeededHashes(ladder, a, c) ==> h in head.nextKeyHashes)
      then Decline(a)
      else PublishAsLadder(head, ladder, a, Unchanged(head).(commitHashes := NeededHashes(ladder, a, c)))
    case RevealRung(_) =>
      if a.state == Revealed then Decline(a)
      else PublishAsLadder(head, ladder, a, Unchanged(head).(commitHashes := [NextRungHash(ladder, a)]))
    case MovePointer(_, generation, expected) =>
      if head.pointer == Some(generation) then Decline(a)
      else if expected.Some? && head.pointer != expected then Refuse(PointerMoved)
      else PublishAsLadder(head, ladder, a, PointedAt(head, generation,
             if a.state == Committed then [NextRungHash(ladder, a)] else []))
    case SetLadderVm(_, present) =>
      PublishAsLadder(head, ladder, a, Unchanged(head).(ladderVms :=
        if present then head.ladderVms + {ladder} else head.ladderVms - {ladder}))
    case Forget(_, c, vouched, derived) => PlanRemoval(log, ladder, a, c, vouched, derived)
    case ForgetLast(_, c, vouched, derived) => PlanRemoval(log, ladder, a, c, vouched, derived)
    case Bind(_, bound) =>
      PublishAsLadder(head, ladder, a, Unchanged(head).(
        commitHashes := [HashOf(Rung(bound, 0))], ladderVms := head.ladderVms + {bound}))
    case _ => Refuse(NotAuthorized)
  }

  /** What a removal demands of the document before anything is built: the plain
      forget leaves another client, the transition leaves the ladder VM. */
  function Inadmissible(cer: Ceremony, log: Log): Option<Refusal> {
    match cer
    case Forget(_, c, _, _) => if Head(log).clients == {c} then Some(LastEnrolledClient) else None
    case ForgetLast(ladder, _, _, _) => if ladder in Head(log).ladderVms then None else Some(AnchorMissing)
    case _ => None
  }

  function PlanFor(cer: Ceremony, log: Log): Plan {
    var head := Head(log);
    match cer
    case MovePointerAsClient(client, generation, expected) =>
      if head.pointer == Some(generation) then Skip
      else if expected.Some? && head.pointer != expected then Refuse(PointerMoved)
      else PublishAsClient(head, client, PointedAt(head, generation, []))
    case BindAsClient(client, bound) =>
      PublishAsClient(head, client, Unchanged(head).(
        commitHashes := [HashOf(Rung(bound, 0))], ladderVms := head.ladderVms + {bound}))
    case _ =>
      if Settled(cer, log) then Skip
      else if Inadmissible(cer, log).Some? then Refuse(Inadmissible(cer, log).value)
      else match Attribute(cer.ladder, head)
        case Failure(err) => Refuse(Attribution(err))
        case Success(a) => PlanAsLadder(cer, cer.ladder, log, a)
  }

  /** The self-enrollment's second entry: the client in, the spent rung out,
      signed by the client's own update key. */
  function AddEntry(head: Entry, ladder: LadderId, rung: nat, c: ClientId): Entry {
    Entry(Active(c),
          Dedup(Without(head.updateKeys, {Rung(ladder, rung)}) + [Active(c)]),
          Without(head.nextKeyHashes, {HashOf(Rung(ladder, rung))}),
          head.clients + {c}, head.ladderVms, head.pointer)
  }

  /** The one-entry log of an account anchored on `ladder` alone. */
  function GenesisLog(ladder: LadderId): Log {
    [Entry(Rung(ladder, 0), [Rung(ladder, 0)], [HashOf(Rung(ladder, 0)), HashOf(Rung(ladder, 1))],
           {}, {ladder}, None)]
  }
}
