# Client annex and connections: verified models

Dafny models of four protocols of a browser wallet's account layer, and proofs of
what they promise. `dafny verify dfyconfig.toml` checks the whole project.

- **The ladder-anchored account log** (`WebvhLog`, `Ladder`, `ClientRemoval`,
  `AccountEntries`, `AccountInvariant`, `AccountEffects`, `AccountRuns`,
  `AccountLimits`, `AccountRaces`). A prerotated did:webvh log on which each credential owns an unbounded
  ladder of rungs, committed as a hash, revealed as an update key, then retired. Every
  ceremony is planned from the head it read and published by compare-and-swap.
  `AccountRuns` is the state machine: any number of self-enrollments and single-entry
  ceremonies, any of which may stop after any step. `AccountLimits` holds the inputs on
  which a documented promise fails, each with its exact condition, and `AccountRaces` the
  executions from a fresh account that reach them.
- **Forgetting the last client** (`LastClient`, `Retirement`). The staged transition and
  its delegation stage, as imperative procedures that may stop after any durable write,
  over the same account log.
- **The client annex** (`AnnexLog`, `Services`, `Transient`, `AnnexGc`, `AnnexPass`). A
  generation's own log and its standing set, the service entries, the visit's enrollment
  loop, and the swaps and collect passes racing on one pointer. `AnnexGc` is a timed state
  machine; `AnnexPass` is one pass run alone.
- **The mint policy** (`MintPolicy`, `MintRuns`). One roster genesis and create-if-absent
  first epochs: `MintRuns` is the state machine of any number of establishments, mends and
  rotations; `MintPolicy` is each procedure, run beside a script of such writes.
- **The connections directory** (`LabelText`, `ScopeText`, `Entry`, `Grants`, `Replicas`,
  `ReplicaBodies`, `ReplicaLife`, `ReplicaEffects`, `ReplicaStore`). The display-name rule,
  the scope key's text, the lenient codec over JSON, the grant loops, and the replica
  writers: what each does to the entry, exactly when it is refused, and what any run of
  them keeps.

`Seqs` holds the sequence idioms they share.

## Where the code does less than it says

Each of these is kept in the model as the code has it.

- A credential can always sign its account's next entry only while its acting rung is
  below 128, the scanned range: exactly then (`LadderSignsWhileInRange`), and an account
  that reaches the end is built by `LadderRunsOutOfScan`.
- A self-enrollment's add entry spends the rung acting where it lands exactly when that is
  the rung it attributed (`AddSpendsItsRungIffActing`). A store that answers a PUT with an
  ETag guarantees it; one that does not makes the run re-read the head without attributing
  again, and two enrollments can then spend one rung between them (`TwoAddsSpendOneRung`).
  The ladders stand and never fall back on every store.
- On such a re-read head the client may also have been forgotten meanwhile, and the add
  entry then states a key nobody committed. Nothing at the call looks:
  `test/node/recovery.test.ts:621-624` says that `updateDID` skips its check when it is
  handed the prior meta, as the add entry hands it (`ladderAnchored.ts:707-709`). Whether
  the library or the host refuses the append after all is not part of this model, so it is
  a parameter of the store: where neither does, the log verifies exactly while no such add
  lands (`EveryLogVerifiesIff`), `ForgottenPendingBreaksTheLog` is the execution, and
  nothing is appended to the log any more.
- A removal strikes, beside the client's update-key hash, what the entry that committed
  it added right after. It takes no other credential's rung exactly when that is the
  client's staged hash, one the remover vouches for or one no longer standing, or the
  client's key is gone (`RemovalKeepsIff`): the log read before the removal says which.
  The two hashes come apart when a client whose hashes stand without its key is removed,
  which leaves the staged one alone (`RemovalSplitsIffKeyGone`). Enrolled again and
  forgotten again from there, the client takes the enrolling ladder's only commitment with
  it exactly when that ladder's next rung's hash did not stand at the re-enrollment and
  the remover does not vouch for it (`SplitPairLosesALadder`, reached from a fresh account
  on any store by `ForgettingTakesALadder`). The runs admit every removal but those that
  strike another's hash.
- The last-client transition also starts where no client is enrolled and the forgotten
  one's hash lingers, and the comment there says that the remaining stages converge
  (`forgetLast.ts:513-516`). The strike-and-reinstall pair is published under that client,
  so -- the delegation stage unhindered -- they do exactly while the pair is not owed;
  owed, the run is refused with nothing written (`ForgetLastEnrolledClient`).
- A strike keeps the account anchored exactly when something else stands
  (`StrikeStrandsIffAlone`). The current-key-set rule on the client's own store is what
  gives it; through any other store it can strand (`BridgeStrikeStrands`).
- A swap keeps the standing set exactly when what it read still stands
  (`SwapConservesIffReadCurrent`); a bind commit landing between its read and its re-point
  is lost (`LateCommitIsLost`). An unnamed retirement or a logless generation keeps only
  the minter, by design.
- The collect pass is safe given that each write of a mint after its genesis, and its
  re-point, lands before the newest version time it wrote plus the quiet bound and grace,
  less the clock skew, and that no pass reads a generation between its creation and its
  genesis. At the bound itself it is not (`LateRePointIsDangling`), nor with such a read
  (`EarlyReadIsDangling`).
- A pass settles and digests the log it read and then deletes without reading again, so a
  visit that lands between the two is destroyed unsettled and undigested
  (`VisitOutrunsTheDigest`). What a delete destroys was handled exactly when some recorded
  digest covers all of it (`HandledAtDeleteIff`).
- A pass run again after a torn one reaches what a fault-free pass would have left of the
  Space the swap left. A swap torn between its genesis and its re-point adds an orphan,
  which stays deferred until it is quiet (`OrphanCollectableIff`), and only then is the
  pointed generation left alone (`RerunUntilCollected`).
- A swap revokes the delegation it replaces before it re-points, since the server checks
  the revocation against the generation still pointed at. Torn between the two it leaves
  the account pointing at a generation whose delegation is revoked: the one case in which
  a pass settles what the pointed generation embeds (`RunClientAnnexGc`).
- A first epoch is always under a key the roster delivered; it lands under the current key
  exactly when no rotation landed since its run took the descriptor
  (`EveryInstallIsPermitted`, `RotationOutrunsInstall`).
- A delegation counts as spent when it is revoked, at or past its expiry less the
  ten-minute clock skew, or signed by a key its document no longer lists; and only
  delegations with an id are in the history the retirement walks.
- Pointer and replica readers take any entry whose type list names theirs. The writers
  are independent exactly when no entry answers to both (`WritersIndependentIff`), and
  keep ids distinct exactly when the fresh entry's id is free (`IdsDistinctIff`).
- `recordReplicas` checks that a seed comes with its tag and not that either decodes, so
  the body it stores parses exactly when they do (`CreateParsesIff`, `RecordParsesIff`).

## What is assumed

Derivation, hashing and signatures are injective constructors: a key is its derivation, a
hash its key, "signed by" a field. The store is honest and conditional writes behave as
section 13.1 of RFC 9110 says: a conflict answer means the write did not land, and no
response is lost, but for a pass's re-point. A GET of the account log carries an ETag. Fresh generation ids,
delegation ids and candidate keys are never reused. Later entries of a generation never
predate earlier ones. `Date.parse`, URL parsing, base64url decoding and the base-server
function are parameters of the codec; stored URLs are canonical, so being inside a Space is
a prefix test, and clock stamps parse.

Of the callers of the account ceremonies (`AskedRightly`): a ladder ceremony is run by a
bound credential, a bind names a fresh one, and a removal vouches for no staged hash of its
client and strikes no standing hash but its client's own. That the account is never
stranded and that no client precedes its record need none of this, only that a strike or
install goes through the enrolled client's own store.

## Model

| member | source | states |
|---|---|---|
| Ladder.AttributeLadderRung | src/webvh/ladder.ts:131-168 | the loop over the scanned rungs answers the fail-closed attribution, revealed before committed, ambiguity refused |
| Ladder.AttributedIff | src/webvh/ladder.ts:131-168 | over any entry whatever: ambiguous exactly when two scanned rungs stand in one role, a revealed rung answered before a committed one, uncommitted exactly when no scanned rung stands |
| Ladder.AttributionRecoversTheFrontier | src/webvh/ladder.ts:60-168 | a standing ladder has one acting rung, and the attribution recovers it exactly when it lies inside the 128 scanned; past them it refuses |
| ClientRemoval.CommittedBeforeRevealed | src/webvh/revokeClient.ts:146-260 | while a client's key stands, the walk back from its reveal finds the entry that committed its hash |
| ClientRemoval.PairResolves | src/webvh/revokeClient.ts:146-260 | the entry that added the pair of hashes side by side resolves to the staged one, whatever the walk derives for other credentials |
| ClientRemoval.AttributesTheNeighbour | src/webvh/revokeClient.ts:146-260 | while a traced client's key stands the attribution never fails: it answers what was added right after the client's update-key hash unless that is vouched for, whatever the walk derives |
| ClientRemoval.AttributionFailsClosed | src/webvh/revokeClient.ts:146-260 | over any log whatever: no hash exactly when the entry it reads claims none, a refusal exactly when it claims several and none of them was added right after the update-key hash, else that one or the only one claimed |
| ClientRemoval.StagedHashIsolated | src/webvh/revokeClient.ts:146-260 | where the pair was committed together that is exactly the client's own staged hash |
| ClientRemoval.RemovalTakesOutOneClient | src/webvh/revokeClient.ts:494-563 | a removal that strikes no standing hash but its client's own takes out that client's key material and nothing else; the staged hash goes exactly when it stands beside the update-key hash and the key still stands |
| AccountInvariant.GenesisHolds | src/clientAnnex/ladderAnchored.ts:148-188 | the ladder genesis states rung 0, commits rungs 0 and 1, lists the ladder VM and no client, and satisfies the whole account invariant |
| AccountInvariant.SignedByActingRung | src/webvh/accountEntry.ts:328-502 | an entry signed by the acting rung is accepted, carries over, leaves that rung acting and revealed, and leaves every other ladder standing |
| AccountInvariant.PairCommitted | src/clientAnnex/ladderAnchored.ts:636-657 | the reveal commits a client's two hashes side by side, where the removal looks for them |
| AccountInvariant.RevealAndCommitKeeps | src/clientAnnex/ladderAnchored.ts:622-658 | the reveal-and-commit entry keeps the account invariant |
| AccountInvariant.NextRungEntryKeeps | src/clientAnnex/ladderAnchored.ts:1252-1265 | the rung reveal and the ladder pointer move keep it, whichever of the two they commit beside the acting rung: the next rung or nothing (which of them, HashesAfter says) |
| AccountInvariant.EnrolledEntryKeeps | src/clientAnnex/log.ts:2430-2517 | an enrolled client's entry states the keys verbatim, is accepted, and keeps it |
| AccountInvariant.SetLadderVmKeeps | src/clientAnnex/ladderAnchored.ts:1062-1126 | an install keeps it, and a strike does while an enrolled client stands |
| AccountInvariant.RemovalKeeps | src/clientAnnex/ladderAnchored.ts:897-971 | a removal that strikes no standing hash but its client's own -- the log it reads says so -- builds its fields and keeps it, when another client or the remover's VM stays |
| AccountInvariant.AddKeepsInvariant | src/clientAnnex/ladderAnchored.ts:702-719 | the add entry keeps it and takes no ladder back, on any head that commits its client's update-key hash and has the ladder at the rung it carries or past it |
| AccountInvariant.AddFrontier | src/clientAnnex/ladderAnchored.ts:702-719 | the add entry spends the rung it carries when that rung is acting, and no rung when the ladder is past it |
| AccountInvariant.AddAcceptedIff | src/clientAnnex/ladderAnchored.ts:702-719 | a head that carries its keys over accepts the add entry exactly when it commits the client's update-key hash |
| AccountInvariant.CeremonyKeepsInvariant | src/webvh/accountEntry.ts:328-502 | every entry any admissible ceremony plans on the head keeps it; of removals the admissible are exactly those that can (RemovalKeepsIff) |
| AccountEffects.DocumentAfter | src/webvh/accountEntry.ts:406-502 | the pointer moves only under a pointer ceremony, clients leave only by their own removal, ladder VMs change only by an install, a strike or a bind |
| AccountEffects.KeysAfter | src/webvh/accountEntry.ts:420-475 | an entry states the keys that stood, less a removed client's, plus its signer's |
| AccountEffects.HashesAfter | src/clientAnnex/log.ts:2474-2489 | exactly the hashes standing after every published entry: an enrollment adds the client's two and the next rung's, a rung reveal and a pointer move off a committed rung the next rung's, a bind the joining ladder's first, a removal takes its client's; an install, a strike and every other pointer move add none but the signer's |
| AccountEffects.SignerAfter | src/clientAnnex/log.ts:2474-2489 | the signer is the acting rung, left revealed; a reveal or a pointer move off a committed rung leaves the next rung committed beside it, so the ladder stays prerotated past it |
| AccountEffects.CeremonyAdvances | src/webvh/accountEntry.ts:328-502 | no ceremony's entry takes any bound ladder back: an acting rung stays, is revealed or moves up |
| AccountEffects.PublishesIff | src/clientAnnex/ladderAnchored.ts:602-1265 | inside the scan a ceremony publishes exactly while its end state does not stand and the log allows it, and refuses exactly while the log does not |
| AccountEffects.OverAnyLog | src/webvh/accountEntry.ts:328-502 | over any log whatever an entry is published only over a head that carries its keys over, signed by the rung attributed there or a client whose key stands there |
| AccountEffects.DeclinedIsCommitted | src/clientAnnex/ladderAnchored.ts:636-657 | an enrollment takes its commitments for done only where all three stand under a revealed rung |
| AccountEffects.LandedIsDone | src/clientAnnex/ladderAnchored.ts:622-658 | a ceremony that landed, run again on the log it left, has nothing to publish and refuses nothing |
| AccountRuns.AddIsExact | src/clientAnnex/ladderAnchored.ts:602-730 | an add on the head its rung was attributed on adds a client not in, whose record was persisted, retires exactly the acting rung, and touches no other key, hash, client, VM or pointer |
| AccountRuns.StepKeeps | src/clientAnnex/ladderAnchored.ts:602-730 | every step of every racing or torn run keeps the system invariant, on any store |
| AccountRuns.EveryReachableStateIsSafe | src/clientAnnex/ladderAnchored.ts:602-730 | so it holds in every state of every interleaving from a fresh account, on any store; and where the store serves PUT ETags or the append is refused, the log is good throughout |
| AccountRuns.EveryLogVerifiesIff | src/clientAnnex/ladderAnchored.ts:662-729 | a log any interleaving reaches verifies exactly when no add landed on a re-read head that no longer committed its client's update-key hash; with PUT ETags, or a refused append, none does |
| AccountRuns.AccountNeverStranded | src/clientAnnex/forgetLast.ts:584-603 | on any store, whatever races and wherever it stops, an enrolled client or a ladder VM stands |
| AccountRuns.NoClientBeforeItsRecord | src/clientAnnex/selfEnroll.ts:279-296 | on any store, no entry publishes a client before its pending record was persisted |
| AccountRuns.LadderSignsWhileInRange | src/webvh/ladder.ts:131-168 | in every reachable state, on any store, each bound ladder acts at one rung, and is attributed it exactly while that rung is inside the scan |
| AccountRuns.LaddersOnlyAdvance | src/webvh/ladder.ts:131-168 | from any reachable state to any later one, on any store, no bound ladder falls back |
| AccountRuns.EveryAddThatLandsIsExact | src/clientAnnex/ladderAnchored.ts:602-730 | every add that lands, on any store, adds its client, recorded beforehand, and spends the rung it carries exactly when that rung is acting there; on an unmoved head -- every head, with PUT ETags -- it is, the client is new and readers accept it |
| AccountLimits.RevealIsPlanned | src/clientAnnex/ladderAnchored.ts:622-658 | inside the scan, an enrollment of a client not in plans exactly the reveal-and-commit entry |
| AccountLimits.EnrollmentClimbs | src/clientAnnex/ladderAnchored.ts:602-730 | one uncontended self-enrollment moves the acting rung up by one |
| AccountLimits.LadderRunsOutOfScan | src/webvh/ladder.ts:60 | an account on which one credential enrolled 128 clients: its frontier stands and no ceremony it signs gets past the attribution |
| AccountLimits.AddSpendsItsRungIffActing | src/clientAnnex/ladderAnchored.ts:662-719 | the add moves its ladder up exactly when the rung it carries is acting on the head it lands on |
| AccountLimits.RereadAddSpendsNothing | src/clientAnnex/ladderAnchored.ts:669-677 | two enrollments ready on one head: the second, re-read without an ETag, is accepted and spends no rung |
| AccountLimits.StrikeStrandsIffAlone | src/clientAnnex/ladderAnchored.ts:1062-1126 | a strike leaves the account anchored exactly when a client or another credential's VM stands beside it |
| AccountLimits.BridgeStrikeStrands | src/clientAnnex/forgetLast.ts:37-47 | invoked past the current-key-set rule, a strike strands a fresh account |
| AccountLimits.RemovalKeepsIff | src/webvh/revokeClient.ts:494-563 | a removal keeps the account invariant and takes no ladder back exactly when what was added right after the client's update-key hash is its staged hash, a vouched one or one no longer standing, or its key is gone: read off the log before the call |
| AccountLimits.RemovalSplitsIff | src/webvh/revokeClient.ts:494-563 | a removal leaves its client's staged hash standing alone exactly when that hash stands and the key is gone or another hash was added beside the update-key hash |
| AccountLimits.RemovalSplitsIffKeyGone | src/webvh/revokeClient.ts:372-419 | so of a client whose hashes were committed together exactly when they stand without its key |
| AccountLimits.SplitPairLosesALadder | src/webvh/revokeClient.ts:146-260 | after such a split, re-enrolling the client and forgetting it again leaves the enrolling ladder no rung at all exactly when its next rung's hash did not stand at the re-enrollment and the remover does not vouch for it |
| AccountRaces.TwoAddsSpendOneRung | src/clientAnnex/ladderAnchored.ts:662-677 | an execution from genesis without PUT ETags: two clients are in, the log verifies, one rung was spent |
| AccountRaces.ForgottenPendingBreaksTheLog | src/clientAnnex/ladderAnchored.ts:662-729 | an execution from genesis without PUT ETags and with no refusal of the append: a pending client is forgotten, its own add lands, and the log verifies no more |
| AccountRaces.ForgettingTakesALadder | src/webvh/revokeClient.ts:146-260 | an execution from genesis on any store in which forgetting a client once forgotten while pending strikes another credential's only rung; the log that last removal read told it apart |
| LastClient.VmEntryLands | src/clientAnnex/ladderAnchored.ts:1062-1126 | a strike or install a ladder can sign lands, keeps the invariant and leaves the ladder able to sign |
| LastClient.VmEntrySpares | src/clientAnnex/ladderAnchored.ts:1062-1126 | a strike or install leaves a client whose removal strikes no hash but its own such a client |
| LastClient.RemovalLands | src/clientAnnex/forgetLast.ts:912-963 | the last-client removal lands wherever the ladder's VM stands, and leaves nothing of the client |
| LastClient.Account.StrikeAndReinstall | src/clientAnnex/forgetLast.ts:584-603 | the pair ends with the VM standing and, when the rotation is owed, a newest version the license admits; in a document that enrolls no client it is refused, with nothing written, exactly when it is owed |
| LastClient.Account.Rotate | src/resourceLog/license.ts:99-173 | one append, at a version past every earlier append and at which the inventory changed (or the clients, under this ladder): one epoch more, wrapped to those that stood but the retired client, so an epoch later than any it was ever wrapped in |
| LastClient.Account.RotateAndFanOut | src/clientAnnex/forgetLast.ts:622-641 | the rotation when owed, then every collection not reported onto an epoch later than any the client was wrapped in; under an enrolled client exactly the failing ones are reported, under none nothing is moved |
| LastClient.Account.RetireDelegations | src/clientAnnex/forgetLast.ts:642-649 | the delegation stage: skipped without a pointer or a log, else the retirement read against the standing document; ended, every delegation the ladder signed is revoked, at its expiry or the live embedded one, and a committed writer leaves embedded one that outlasts the window and is signed by a ladder VM the document lists |
| LastClient.Account.ForgetLastEnrolledClient | src/clientAnnex/forgetLast.ts:493-696 | wherever it stops the account invariant holds, the license refuses nothing, append versions stay strictly increasing, a live delegation stays embedded, and the client is out only after roster, delegations and record; another enrolled client refuses it and an absent one ends it with nothing touched; completed, one rotation landed at the reinstall if it was owed and every collection not reported is under an epoch later than any the client was wrapped in; unstopped it completes, also from a lingering hash in a document that enrolls no client -- there exactly while the pair is not owed, else refused with nothing written |
| LastClient.Account.RerunUntilForgotten | src/clientAnnex/forgetLast.ts:493-696 | after any number of runs torn anywhere, the delegation stage included, one fault-free run reaches the final state, from an enrolled client and from a lingering hash alike: one rotation over all of them if it was owed, and every collection the run that got through did not report is under an epoch later than any the client was wrapped in |
| Retirement.GenerationDelegationHistory | src/clientAnnex/log.ts:1647-1665 | the distinct delegations with an id the log ever embedded, and all of them |
| Retirement.Generation.RevokeTreatingAlreadyRevokedAsSuccess | src/clientAnnex/log.ts:1733-1765 | any outcome but a throw means revoked, at its expiry or signer-less; it throws exactly when a live unrevoked delegation meets a server failure, or an invalid chain neither explains; what it revokes is exactly what landed |
| Retirement.Generation.RevokeDoomed | src/clientAnnex/forgetLast.ts:796-839 | every revocation of a batch is attempted, whatever an earlier one met, and it is rejected exactly when one of them throws; no rejection means all are spent |
| Retirement.Generation.EnsureCurrent | src/clientAnnex/log.ts:2871-2960 | a stale or missing delegation is replaced by a fresh ladder-signed one, exactly then under a committed writer, or the writer's failure is told; one kept outlasts the renewal window and is signed by a key the document lists, neither the ladder's nor the forgotten client's |
| Retirement.Generation.RetireLadderGenerationDelegations | src/clientAnnex/forgetLast.ts:731-897 | at every stop a live embedded delegation remains, but for an uncommitted rung's own; a completed run leaves every ladder-signed one found spent and one embedded that outlasts the window; it halts only for a cut, a broken carry-over or a revocation that throws, and for a refused historical one before any mint |
| Retirement.Generation.RetryAgainstRefusal | src/clientAnnex/forgetLast.ts:700-720 | against a delegation refused for good, any number of runs mint at most one replacement |
| AnnexLog.StandingIsAdmission | src/clientAnnex/log.ts:1879-1922 | the standing set is exactly the credentials the admission lets write |
| AnnexLog.EveryEntryExtends | src/clientAnnex/log.ts:2177-2293 | every enroll, renew, strike and commit entry passes prerotation against its head and carries over |
| AnnexLog.RefusedIffNotStanding | src/clientAnnex/log.ts:1942-1958 | an entry is refused exactly when its writer does not stand, for a strike apart from the one retired, or the head breaks the carry-over |
| AnnexLog.StandingAfterEntry | src/clientAnnex/log.ts:3121-3181 | an entry changes who stands only by the retired and the bound |
| AnnexLog.KeysAfterEntry | src/clientAnnex/log.ts:2177-3181 | the update keys and hashes after a published entry, stated outright: the keys that stood less a retired one plus the signer's, the hashes that stood less the retired's plus the bound's |
| AnnexLog.DocumentAfterEntry | src/clientAnnex/log.ts:2942-2953 | a renewal embeds its replacement, an enrollment adds its method once and last and changes the delegation only by what it installs or first mints, and no other entry touches the document |
| AnnexLog.UnchangedIffDone | src/clientAnnex/log.ts:3035-3042 | a ceremony has nothing to do exactly when its end state stands |
| AnnexLog.StrikeEndsTheRetired | src/clientAnnex/log.ts:3011-3072 | a strike is signed by another credential and leaves no trace of the retired one |
| AnnexLog.DelegationWithFirstMethod | src/clientAnnex/log.ts:2231-2253 | an enrollment mints the delegation with the generation's first method and at no later one; no entry takes it away, so where every enrollment can mint, no visit is listed without one |
| AnnexLog.GenesisStanding | src/clientAnnex/log.ts:656-669 | a genesis states the minter's key alone over an empty document, is extendable, and commits the minter and exactly the restated credentials |
| AnnexLog.RestatingRefusedIff | src/clientAnnex/gc.ts:1075-1106 | a swap is refused exactly when it names its own minter as retired |
| AnnexLog.RestatedGenesisConserves | src/clientAnnex/gc.ts:1075-1106 | a restated genesis is the superseded set less the retired plus the minter; unnamed or logless, the minter alone; a retired minter is refused |
| AnnexLog.EventSettles | src/clientAnnex/gc.ts:1075-1106 | what a landed event names -- struck, bound, minting, retired -- it settles |
| AnnexLog.StandingConserved | src/clientAnnex/heal.ts:869-884 | across any run of entries and restating swaps, a credential no event names writes at the end exactly if it could at the start |
| AnnexLog.AlwaysExtendable | src/clientAnnex/log.ts:269-297 | every log any run reaches from one that verifies verifies, and every standing credential can publish on it |
| AnnexLog.SwapConservesIffReadCurrent | src/clientAnnex/gc.ts:751-803 | a swap conserves the standing set exactly when what it read still stands |
| AnnexLog.LateCommitIsLost | src/clientAnnex/gc.ts:515-521 | a bind commit landing after the swap's read is lost by it |
| Transient.Host.EnrollOnce | src/clientAnnex/log.ts:2177-2293 | an attempt enrolls on the head still standing, or reports a lost race |
| Transient.Host.EnrollClientAnnexTransientClient | src/clientAnnex/log.ts:2147-2167 | the threaded head, then bounded retries; an enrollment stays in the generation's log, and it is a conflict only after the log grew under every retry |
| Transient.Host.EnrollTransientClient | src/clientAnnex/log.ts:2562-2623 | on return the pointer read after the enrollment names the generation enrolled into, whose head lists the method once, beside a delegation when every enrollment can mint one; at most maxRounds generations are tried |
| Services.PutGet | src/clientAnnex/log.ts:706-787 | what a service writer writes every reader reads |
| Services.GetIsFirst | src/clientAnnex/log.ts:737-747 | a reader reads the first entry that names its type in its shape |
| Services.PutPut | src/clientAnnex/log.ts:767-787 | the last write wins, and writing twice is writing once |
| Services.GetPutIffAgreeing | src/clientAnnex/log.ts:767-787 | writing back what is read changes nothing exactly when the matching entries agree |
| Services.OthersKept | src/clientAnnex/log.ts:779-786 | a write keeps every entry's place, id, types and other members, and unmatched entries whole |
| Services.IdsDistinctIff | src/clientAnnex/log.ts:819-831 | ids stay distinct exactly when an entry was there to rewrite or the fresh id is free |
| Services.WritersIndependentIff | src/clientAnnex/log.ts:706-725 | two readers' writers leave each other alone exactly when no entry answers to both with another value; never across shapes |
| Services.InstallReadsBack | src/clientAnnex/log.ts:1616-1631 | an install reads back: the delegation installed, no listed server missing, no pointer lost, the account pointer where it was |
| Services.InstallRefusedIff | src/clientAnnex/log.ts:1574-1600 | an install is refused exactly when a server listed is no replica server, or one not pointed at yet finds its entry's id taken |
| Services.InstallKeepsOthers | src/clientAnnex/log.ts:1616-1631 | and leaves every entry but the delegation's where and as it was |
| Services.InstallIdempotent | src/clientAnnex/log.ts:1574-1600 | installing again adds no pointer |
| Services.InstallKeepsIdsDistinct | src/clientAnnex/log.ts:1583-1597 | ids stay distinct through an install exactly when a delegation entry was there to rewrite or its fresh id is free |
| AnnexGc.SupersededIsDead | src/clientAnnex/gc.ts:625-648 | a generation the pointer left before the pass read the head can never be pointed at again |
| AnnexGc.QuietIsDead | src/clientAnnex/gc.ts:236-252 | a quiet generation the head read never shows was not pointed at since, and every mint of it is too late |
| AnnexGc.VerdictIsDead | src/clientAnnex/gc.ts:1203-1216 | a pass condemns only such generations |
| AnnexGc.StepKeeps | src/clientAnnex/gc.ts:438-678 | every step of every mint and pass that keeps the timing keeps the invariant |
| AnnexGc.NoDeletedGenerationIsPointedAt | src/clientAnnex/gc.ts:1172-1241 | no generation is deleted that the account points at then or later; one deleted unread had no log, and one deleted after a read had the log read, perhaps longer by then, whose embedded delegation was settled and digest recorded |
| AnnexGc.HandledAtDeleteIff | src/clientAnnex/gc.ts:1203-1239 | the log a delete destroys was settled and digested exactly when it is empty or some digest recorded of it covers all its entries: none landed since that reading |
| AnnexGc.VisitOutrunsTheDigest | src/clientAnnex/gc.ts:1203-1239 | an execution, in time throughout, in which a visit lands between the digest and the delete: the delegation it embedded is never settled and no digest covers it |
| AnnexGc.PointerNeverReturns | src/clientAnnex/log.ts:2430-2517 | the pointer never returns to a generation it left, whatever the timing |
| AnnexGc.OneSwapLands | src/clientAnnex/log.ts:2430-2517 | of any number of swaps that expect one pointer, whatever their timing, at most one lands, over exactly that pointer |
| AnnexGc.LateRePointIsDangling | src/clientAnnex/gc.ts:133-153 | a re-point landing at the very end of the bound can point at a deleted generation: the timing is needed to the millisecond |
| AnnexGc.EarlyReadIsDangling | src/clientAnnex/gc.ts:1198-1241 | a pass that reads a generation between its creation and its genesis takes it for logless and deletes it once pointed at, though every mint kept its time: the other half of the timing is needed too |
| AnnexPass.DelegatedClientsPointerEstablishedAt | src/clientAnnex/gc.ts:169-189 | the loop answers when the pointer now standing came to stand |
| AnnexPass.ClientAnnexGcDue | src/clientAnnex/gc.ts:201-217 | due exactly when that was at least the period ago |
| AnnexPass.Annex.CollectOneGeneration | src/clientAnnex/gc.ts:1172-1241 | it deletes only what may be deleted, after settling and digesting; faults leave it standing or handled |
| AnnexPass.Annex.ListStale | src/clientAnnex/gc.ts:637-648 | the generations listed, over all pages, but for the current one |
| AnnexPass.Annex.CollectStale | src/clientAnnex/gc.ts:650-675 | whatever fails, what a fault-free pass would leave is the same before and after; nothing failing, it leaves exactly that; it settles and digests nothing but what collectable stale generations embed and hold |
| AnnexPass.Annex.MintGeneration | src/clientAnnex/gc.ts:821-843 | torn before its collection it leaves nothing, before its genesis an empty log, before the install the genesis alone; untorn, the genesis and then an entry that embeds the delegation |
| AnnexPass.Annex.SwapGeneration | src/clientAnnex/gc.ts:510-595 | the pointer moves only off a logless or quiet generation, when due or to readmit, and then to one whose newest entry embeds the delegation; each other answer exactly on its gate, and each torn stage entry by entry |
| AnnexPass.OrphanCollectableIff | src/clientAnnex/gc.ts:579-595 | the orphan of a swap torn between its genesis and its re-point is collectable exactly once quiet; one torn before its genesis, at once |
| AnnexPass.Annex.RunClientAnnexGc | src/clientAnnex/gc.ts:438-678 | whatever the swap left, torn or not, a fault-free pass leaves of it exactly the pointed generation and the deferred, and a torn one a Space from which that is still what is left; the pointed one stands after it exactly if it stood or the swap moved to it, then with its delegation embedded; no delegation the generation then pointed at embeds is settled, unless the swap tore right before the re-point |
| AnnexPass.Annex.RerunUntilCollected | src/clientAnnex/gc.ts:438-678 | any passes torn anywhere, then one fault-free: only the pointed generation and the deferred are left, the pointed one still standing if it stood or came to be pointed at, and alone once every older log and torn pass is quiet |
| MintPolicy.Wallet.Apply | src/clientAnnex/rosterDeliveredEpochs.ts:161-189 | the store's side of each write: both creates land exactly when nothing stands, a roster genesis beside no keyed collection, and nothing is taken back |
| MintPolicy.Wallet.EnsureWalletSpaceEpochs | src/keys/spaceEpochs.ts:207-262 | skipped whole exactly when the descriptor is not current at the key; else every collection not failing is keyed |
| MintPolicy.Wallet.RosterMintRefusal | src/clientAnnex/mend.ts:1045-1145 | each refusal exactly on its own check, in their order; none means every precondition was read true, and a keyed collection found means a roster stands |
| MintPolicy.Wallet.SettleRoster | src/clientAnnex/rosterDeliveredEpochs.ts:161-189 | the roster read, minted once nothing forbids it, or -- told apart by the create spent -- the race winner adopted; the descriptor held is one the roster delivered |
| MintPolicy.Wallet.EnsureRosterDeliveredEpochs | src/clientAnnex/rosterDeliveredEpochs.ts:134-233 | the key delivered is one of the roster's, this run's own or one it opens, and every collection not failing ends keyed; alone, a standing roster's key or else the candidate is delivered exactly when it opens it and a mint was licensed |
| MintPolicy.Wallet.GenesisRosterAndEpochs | src/clientAnnex/credentialAnchoredGenesis.ts:327-374 | a standing roster is adopted as it is, an absent one created under the candidate; no descriptor comes back only of a create lost to another; the candidate installs only under a roster current at it |
| MintPolicy.Wallet.Establish | src/clientAnnex/establish.ts:894-936 | an establishment delivers the roster's key, its own candidate's over an absent roster, and never mints over an adopted one; alone, exactly when it opens that key and no collection fails |
| MintPolicy.Wallet.UnrotatedEpochsAreCurrent | src/clientAnnex/credentialAnchoredGenesis.ts:33-48 | with no rotation every keyed collection is under the roster's one key |
| MintPolicy.RotationOutrunsInstall | src/keys/spaceEpochs.ts:221-229 | a rotation between the roster read and the install leaves a first epoch under a key no longer current |
| MintRuns.EveryReachableStateIsKeyed | src/clientAnnex/rosterDeliveredEpochs.ts:134-233 | over any number of concurrent and torn establishments and mends, each with its own candidate: one roster genesis at most, and every first epoch under a key the roster delivered |
| MintRuns.OneGenesis | src/clientAnnex/credentialAnchoredGenesis.ts:327-374 | a genesis that lands, lands beside no keyed collection, under its run's own candidate, never from a run over an adopted roster, and once in any execution |
| MintRuns.MendReadsBeforeItMints | src/clientAnnex/mend.ts:1045-1145 | a mend puts its roster create only after reading every one of its collections unkeyed |
| MintRuns.EveryInstallIsPermitted | src/keys/spaceEpochs.ts:207-262 | every first epoch that lands is under a key in the roster, and under its current key exactly when no rotation landed since the run took its descriptor |
| MintRuns.UnrotatedIsOneKey | src/clientAnnex/credentialAnchoredGenesis.ts:33-48 | with no rotation every keyed collection, and every installing run, is under the roster's one key |
| MintRuns.InstalledIsKeyed | src/keys/spaceEpochs.ts:207-262 | a run with nothing left to install keyed every collection it did not report failed |
| MintRuns.SecondEstablishmentAdopts | src/clientAnnex/establish.ts:907-936 | an execution in which a second establishment, whose credential opens the winner's key, adopts it and keys the collections left, all under the first one's candidate |
| MintRuns.RacingMendsConverge | src/clientAnnex/rosterDeliveredEpochs.ts:161-189 | an execution in which two mends race to their creates: the one whose create is lost adopts the other's key, and everything either was asked for is keyed under it |
| LabelText.NormalizeIsIdempotent | src/labelText.ts:38-65 | a normalized name is one the rule leaves as it is |
| LabelText.NormalizeKeeps | src/labelText.ts:38-65 | what is kept is the text less exactly its stripped characters, in order, less the whitespace at its ends, and it is refused exactly when that is empty or over 64 code points |
| LabelText.CodePointsPush | src/labelText.ts:59-62 | a unit more counts as one code point more, but for the low half of a surrogate pair |
| LabelText.FixpointsAreCleanNames | src/labelText.ts:26-65 | the names it leaves alone are exactly the clean ones of 1 to 64 code points |
| Entry.WriterIsIdempotent | src/connections/entry.ts:644-664 | a parsed writer member parses to itself |
| Entry.ParsedIsFixpoint | src/connections/entry.ts:694-815 | parsing a parsed entry gives the same entry, for every JSON body |
| Entry.WrittenReadsBackIff | src/connections/entry.ts:694-815 | an entry written as a body reads back, as itself, exactly when it is well formed |
| Entry.NamesAreNormalized | src/connections/entry.ts:694-815 | a display name or label is read as what the display-name rule makes of it, and the entry refused exactly when the rule refuses it |
| Entry.AbsentListsAreEmpty | src/connections/entry.ts:694-815 | the lists older bodies lack read as empty, and nothing else changes |
| Entry.UnknownMembersIgnored | src/connections/entry.ts:694-815 | members the codec does not know change nothing it reads |
| ReplicaBodies.CreateParsesIff | src/connections/replicas.ts:236-245 | a created body parses exactly when the DID is one and the unchecked seed and tag decode, and then to the entry meant |
| ReplicaBodies.RecordParsesIff | src/connections/replicas.ts:246-281 | so does one recorded over a standing entry, exactly when the seed it writes decodes |
| ReplicaBodies.WritersParseToMeaning | src/connections/replicas.ts:332-729 | every body any other writer stores parses, and to the entry it meant |
| ReplicaBodies.RemoveGrantsParses | src/connections/upsert.ts:916-946 | removing grants writes exactly when a named capability is held, on an entry of any kind, and the body parses to the entry less those grants |
| ReplicaEffects.TookHasEffect | src/connections/replicas.ts:187-729 | over a standing entry every writer that goes through has exactly its effect, member by member: a marker set at its stamp on just the items named that lack it, or taken off just those; an id settled, pended or kept; a grant recorded last, or as the renewal of the one it names; items listed and unlisted in order |
| ReplicaEffects.TookIff | src/connections/replicas.ts:187-729 | and goes through exactly when its demands on its arguments and the entry are met |
| ReplicaEffects.UnwritableIff | src/connections/upsert.ts:175-210 | a stored body is refused as it stands, whatever the call, exactly when it does not parse, sits under another party or is of another version |
| ReplicaEffects.EveryWriteHasEffect | src/connections/replicas.ts:187-729 | so in every run: a write whose demands are met has its whole effect, any other leaves the resource as it stood |
| ReplicaEffects.EveryGrantIsRecordedOnce | src/connections/replicas.ts:386-410 | however writers interleave, no capability is recorded twice in any state reached |
| ReplicaEffects.LostIsNotRelisted | src/connections/replicas.ts:246-281 | a replica marked lost is not listed again: a recording that names its Space is refused while the marker stands |
| ReplicaEffects.CreatesIff | src/connections/replicas.ts:236-245 | over an absent entry only a recording with sound arguments stores anything, and it lists exactly what it is handed, in its order |
| ScopeText.QuotedReadsBack | src/connections/grants.ts:394-400 | a JSON-quoted text read back gives the text and what follows it |
| ScopeText.ScopeKeyIsInjective | src/connections/grants.ts:394-400 | two scope keys are equal exactly for equal controller, target and action list |
| ScopeText.SortedEqualIff | src/connections/grants.ts:370-382 | sorting forgets exactly the order of the actions |
| Grants.SameScopeIff | src/connections/grants.ts:370-400 | two capabilities share a scope exactly for the same controller, target and actions in whatever order or form |
| Grants.ContainersIff | src/connections/grants.ts:157-174 | an account's containers are its own Space, first, and the Spaces its replicas on the same base server were taken from, each once |
| Grants.ShownIff | src/connections/grants.ts:185-215 | a grant is shown exactly when the entry's id is its controller and its target lies in one of those |
| Grants.ConnectionGrants | src/connections/grants.ts:185-215 | the loop lists, in order, the grants to the party inside one of the account's containers |
| Grants.ShownIsListed | src/connections/grants.ts:194-214 | a recorded grant that is to be shown is listed |
| Grants.ShownInOrder | src/connections/grants.ts:194-214 | what is shown is exactly those, each once, in the order recorded, with the kind and time of their records |
| Grants.HalvesByExpiry | src/connections/grants.ts:286-293 | the halves hold, in the order listed, exactly the grants not yet and already at their expiry |
| Grants.SplitGrantsByExpiry | src/connections/grants.ts:277-294 | the loop answers the two halves, each in order |
| Grants.TakenIff | src/connections/grants.ts:430-454 | a received grant is taken exactly when it is to the pairwise DID, outside the Space, and, if an inbox, has POST among its actions in whatever form |
| Grants.TakenInOrder | src/connections/grants.ts:430-454 | what is taken is exactly those, each once, in the order stored |
| Grants.ReceivedGrants | src/connections/grants.ts:417-456 | the loop lists those, in the order stored, and none of a retired entry |
| Grants.LiveInboxChannel | src/connections/grants.ts:503-528 | the last of the unlapsed inboxes of greatest expiry, or none when there is none |
| Grants.LatestIndexPerScope | src/connections/grants.ts:559-577 | each scope in first-seen order, at the last index attaining its greatest expiry |
| Grants.LatestIsIdempotent | src/connections/grants.ts:541-548 | filtering to the latest of each scope again filters nothing |
| ReplicaLife.WriteSteps | src/connections/replicas.ts:187-729 | one write keeps one item per Space, never pending and registered at once; ids, markers, seed and grants change only as their life allows |
| ReplicaLife.EveryStateOk | src/connections/replicas.ts:187-729 | so after every sequence of writers from an absent entry |
| ReplicaLife.EveryWriteSteps | src/connections/replicas.ts:332-667 | in a run a pending id only settles, a marker keeps its first time until a write clears it |
| ReplicaLife.SettledIdFixed | src/connections/replicas.ts:445-494 | a settled registration id is fixed for as long as its item is listed |
| ReplicaLife.RemovedOnceUngranted | src/connections/replicas.ts:687-729 | once the grants inside a Space are removed by their capabilities its item can be removed, however registered, and every other grant stays |
| ReplicaLife.NothingRecordedIsLost | src/connections/replicas.ts:687-729 | a recorded grant stays recorded, and the items it targets stay listed, until a write names its capability for removal; a written seed never changes |
| ReplicaLife.RecordedGrantStaysVisible | src/connections/grants.ts:157-215 | a grant recorded for a Space on the account's own base server is among the shown grants in every later state until its capability is removed |
| ReplicaLife.LandedGrantIsRecorded | src/connections/replicas.ts:332-425 | and a landed recording is one: its capability is among the grants and its Space is listed |
| ReplicaStore.Resource.WritePartyConnection | src/connections/upsert.ts:245-328 | a write that lands is applied whole to the body standing at that moment, however many races it lost; uncontended its outcome and the body are exactly the callback's; a race is lost only after as many other writes as attempts |
| ReplicaStore.LandedWritesAreARun | src/connections/upsert.ts:245-295 | so what racing loops reach is one of the runs proved about |

## Left out

- Signatures, key derivation, multibase, DID string syntax, the `did.json` projection, chain-head pins, KMS and HTTP transport.
- Update-key rotation of enrolled clients, enrollment of one client by another, and credential retirement on the account log; credential binding is modelled only as the entry that commits a joining ladder's first rung.
- The re-derivation of a forgotten client's stale update key in a removal: the model removes the key the client holds.
- Retry budgets of the account ceremonies: a run re-reads as often as it loses a race, which covers every bounded budget.
- `heal.ts`'s choice between renewing and minting, its record re-sealing and the fresh auxiliary Space: its mints and renewals are events of `AnnexLog` and `AnnexGc` whatever the choice.
- `mend.ts` outside its roster arm: the other arms report and repair independently.
- Roster contents beyond which clients and keys are wrapped, and the collection re-encryption a rotation cascades.
- The last-client transition beside other writers between its stages: `LastClient` runs it alone with arbitrary stops; its entries racing with everything else are in `AccountRuns`.
- LastClient.Account.ForgetLastEnrolledClient: does not model what the record re-bind writes: it is the application's own callback (`forgetLast.ts:667-671`), one write and a flag here.
- What the library's `updateDID` and the host refuse to append: a parameter of the store in `AccountRuns`.
- Inventory of credential kinds other than ladder VMs in the append license.
- A visit's own write on an unpointed generation: nothing hands one out before it is pointed at.
- The other directory flows -- offers, writers' liveness, sweeps and the grant writers of non-replica entries -- which share the loop in `ReplicaStore`.
- `collectionIdInSpace`, `renewalScopeGrants` and the label helpers: single-branch readers over what is modelled.
- An `expires` or `receivedAt` that does not parse inside the grant loops' comparisons: the codec refuses such an entry, apart from `receivedAt`, whose absence reads as lapsed.
- Logging, stage notifiers and ceremony events.
