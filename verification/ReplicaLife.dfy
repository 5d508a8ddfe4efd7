/** The life of a replica item, and of the pull grants recorded for its Space, over
    every sequence of the replica writers. */
module ReplicaLife {
  import opened Seqs
  import opened LabelText
  import opened Entry
  import opened Grants
  import opened Replicas
  import opened ReplicaBodies

  // ---- Items

  predicate Has(item: Json, k: Member) { k in ItemMembers(item) }

  /** One item per source Space, each an object, none both registered and pending. */
  ghost predicate ItemsOk(items: seq<Json>) {
    && (forall i, j :: 0 <= i < j < |items| ==> FromSpace(items[i]) != FromSpace(items[j]))
    && (forall i :: 0 <= i < |items| ==> items[i].JObject?)
    && (forall i :: 0 <= i < |items| ==> !(Has(items[i], MRegistrationId) && Has(items[i], MPendingRegistrationId)))
  }

  predicate Clears(op: Op, marker: Marker, space: Text) {
    op.ClearMarker? && op.cleared == marker && (op.clearedIn.Some? ==> space in op.clearedIn.value)
  }

  ghost predicate MarkerStep(op: Op, marker: Marker, a: Json, b: Json) {
    Has(a, MarkerMember(marker)) && !Clears(op, marker, FromSpace(a)) ==>
      Has(b, MarkerMember(marker)) && ItemMembers(b)[MarkerMember(marker)] == ItemMembers(a)[MarkerMember(marker)]
  }

  /** What one write may make of an item it leaves: the replica's id and a settled
      registration fixed, a pending one kept or settled as it is, and every set
      marker at its time unless this write clears it. */
  ghost predicate ItemStep(op: Op, a: Json, b: Json) {
    && Get(ItemMembers(b), MSpaceId) == Get(ItemMembers(a), MSpaceId)
    && (Has(a, MRegistrationId) ==> Get(ItemMembers(b), MRegistrationId) == Get(ItemMembers(a), MRegistrationId))
    && (Has(a, MPendingRegistrationId) ==>
          || Get(ItemMembers(b), MPendingRegistrationId) == Get(ItemMembers(a), MPendingRegistrationId)
          || (!Has(b, MPendingRegistrationId) && Get(ItemMembers(b), MRegistrationId) == Get(ItemMembers(a), MPendingRegistrationId)))
    && (forall marker :: MarkerStep(op, marker, a, b))
  }

  ghost predicate ItemsStep(op: Op, before: seq<Json>, after: seq<Json>) {
    forall i, j :: 0 <= i < |before| && 0 <= j < |after| && FromSpace(before[i]) == FromSpace(after[j]) ==>
      ItemStep(op, before[i], after[j])
  }

  ghost predicate Listed(items: seq<Json>, space: Text) {
    exists i :: 0 <= i < |items| && FromSpace(items[i]) == space
  }

  lemma SameItems(op: Op, items: seq<Json>)
    requires ItemsOk(items)
    ensures ItemsStep(op, items, items)
  {
  }

  /** One item replaced by one of the same Space. */
  lemma OneReplaced(op: Op, items: seq<Json>, i: nat, item: Json)
    requires ItemsOk(items) && i < |items| && item.JObject?
    requires FromSpace(item) == FromSpace(items[i]) && ItemStep(op, items[i], item)
    requires !(Has(item, MRegistrationId) && Has(item, MPendingRegistrationId))
    ensures ItemsOk(items[i := item]) && ItemsStep(op, items, items[i := item])
    ensures forall space :: Listed(items[i := item], space) <==> Listed(items, space)
  {
    var after := items[i := item];
    forall j | 0 <= j < |items| ensures FromSpace(after[j]) == FromSpace(items[j]) {}
    forall space ensures Listed(after, space) <==> Listed(items, space) {
      if Listed(items, space) {
        var j :| 0 <= j < |items| && FromSpace(items[j]) == space;
        assert FromSpace(after[j]) == space;
      }
    }
  }

  /** Each item replaced by one of the same Space. */
  lemma EachReplaced(op: Op, items: seq<Json>, after: seq<Json>)
    requires ItemsOk(items) && |after| == |items|
    requires forall i :: 0 <= i < |items| ==>
               after[i].JObject? && FromSpace(after[i]) == FromSpace(items[i]) && ItemStep(op, items[i], after[i])
               && !(Has(after[i], MRegistrationId) && Has(after[i], MPendingRegistrationId))
    ensures ItemsOk(after) && ItemsStep(op, items, after)
    ensures forall space :: Listed(after, space) <==> Listed(items, space)
  {
    forall space ensures Listed(after, space) <==> Listed(items, space) {
      if Listed(items, space) {
        var j :| 0 <= j < |items| && FromSpace(items[j]) == space;
        assert FromSpace(after[j]) == space;
      }
    }
  }

  lemma PendingStep(op: Op, item: Json, id: Text)
    requires item.JObject? && !Has(item, MRegistrationId)
    requires Has(item, MPendingRegistrationId) ==> ItemText(item, MPendingRegistrationId) == Some(id)
    requires Has(item, MPendingRegistrationId) ==> ItemMembers(item)[MPendingRegistrationId].JString?
    ensures var after := WithMember(item, MPendingRegistrationId, id);
            && FromSpace(after) == FromSpace(item) && ItemStep(op, item, after) && !Has(after, MRegistrationId)
  {
  }

  lemma SettledStep(op: Op, item: Json, id: Text)
    requires item.JObject? && !(Has(item, MRegistrationId) && Has(item, MPendingRegistrationId))
    requires ItemText(item, MPendingRegistrationId) == Some(id)
    ensures var after := WithoutMember(WithMember(item, MRegistrationId, id), MPendingRegistrationId);
            && FromSpace(after) == FromSpace(item) && ItemStep(op, item, after) && !Has(after, MPendingRegistrationId)
  {
  }

  lemma MarkedStep(op: Op, item: Json, marker: Marker, named: Option<set<Text>>, stamp: Text)
    requires item.JObject? && !(Has(item, MRegistrationId) && Has(item, MPendingRegistrationId))
    ensures var after := MarkedItem(item, marker, named, stamp);
            && after.JObject? && FromSpace(after) == FromSpace(item) && ItemStep(op, item, after)
            && !(Has(after, MRegistrationId) && Has(after, MPendingRegistrationId))
  {
  }

  lemma ClearedStep(op: Op, item: Json)
    requires op.ClearMarker? && item.JObject? && !(Has(item, MRegistrationId) && Has(item, MPendingRegistrationId))
    ensures var after := ClearedItem(item, op.cleared, op.clearedIn);
            && after.JObject? && FromSpace(after) == FromSpace(item) && ItemStep(op, item, after)
            && !(Has(after, MRegistrationId) && Has(after, MPendingRegistrationId))
  {
  }

  // ---- Lists

  lemma NewItemIs(replica: (Text, Text))
    ensures var item := NewItem(replica);
            && item.JObject? && FromSpace(item) == replica.0
            && !Has(item, MRegistrationId) && !Has(item, MPendingRegistrationId)
  {
  }

  lemma {:induction false} NewItemsMember(incoming: seq<(Text, Text)>, held: seq<Json>, i: nat)
    requires i < |NewItems(incoming, held)|
    ensures exists k :: 0 <= k < |incoming| && NewItems(incoming, held)[i] == NewItem(incoming[k])
    ensures ReplicaIndex(held, FromSpace(NewItems(incoming, held)[i])).None?
  {
    var head := ReplicaIndex(held, incoming[0].0).None?;
    NewItemIs(incoming[0]);
    if head && i == 0 {
    } else {
      var rest := if head then i - 1 else i;
      NewItemsMember(incoming[1..], held, rest);
      assert NewItems(incoming, held)[i] == NewItems(incoming[1..], held)[rest];
      var k :| 0 <= k < |incoming[1..]| && NewItems(incoming[1..], held)[rest] == NewItem(incoming[1..][k]);
      assert incoming[1..][k] == incoming[k + 1];
    }
  }

  lemma {:induction false} NewItemsDistinct(incoming: seq<(Text, Text)>, held: seq<Json>)
    requires forall i, j :: 0 <= i < j < |incoming| ==> incoming[i].0 != incoming[j].0
    ensures ItemsOk(NewItems(incoming, held))
  {
    if incoming != [] {
      NewItemsDistinct(incoming[1..], held);
      NewItemIs(incoming[0]);
      var rest := NewItems(incoming[1..], held);
      forall i | 0 <= i < |rest| ensures FromSpace(rest[i]) != incoming[0].0 {
        NewItemsMember(incoming[1..], held, i);
        var k :| 0 <= k < |incoming[1..]| && rest[i] == NewItem(incoming[1..][k]);
        NewItemIs(incoming[1..][k]);
        assert incoming[1..][k] == incoming[k + 1];
      }
    }
  }

  lemma Appended(op: Op, items: seq<Json>, incoming: seq<(Text, Text)>)
    requires ItemsOk(items) && forall i, j :: 0 <= i < j < |incoming| ==> incoming[i].0 != incoming[j].0
    ensures ItemsOk(items + NewItems(incoming, items)) && ItemsStep(op, items, items + NewItems(incoming, items))
    ensures forall space :: Listed(items, space) ==> Listed(items + NewItems(incoming, items), space)
  {
    var added := NewItems(incoming, items);
    NewItemsDistinct(incoming, items);
    forall j | 0 <= j < |added| ensures ReplicaIndex(items, FromSpace(added[j])).None? { NewItemsMember(incoming, items, j); }
    forall space | Listed(items, space) ensures Listed(items + added, space) {
      var i :| 0 <= i < |items| && FromSpace(items[i]) == space;
      assert FromSpace((items + added)[i]) == space;
    }
  }

  lemma {:induction false} OthersDistinct(items: seq<Json>, space: Text)
    requires ItemsOk(items)
    ensures ItemsOk(Others(items, space))
  {
    if items != [] {
      assert items == [items[0]] + items[1..];
      OthersDistinct(items[1..], space);
      var rest := Others(items[1..], space);
      forall i | 0 <= i < |rest| ensures FromSpace(rest[i]) != FromSpace(items[0]) {
        OthersMember(items[1..], space, rest[i]);
        assert rest[i] in items[1..];
      }
    }
  }

  lemma Removed(op: Op, items: seq<Json>, space: Text)
    requires ItemsOk(items)
    ensures ItemsOk(Others(items, space)) && ItemsStep(op, items, Others(items, space))
    ensures forall other :: other != space && Listed(items, other) ==> Listed(Others(items, space), other)
  {
    OthersDistinct(items, space);
    var rest := Others(items, space);
    forall i, j | 0 <= i < |items| && 0 <= j < |rest| && FromSpace(items[i]) == FromSpace(rest[j])
      ensures ItemStep(op, items[i], rest[j])
    {
      OthersMember(items, space, rest[j]);
      assert rest[j] in items;
    }
    forall other | other != space && Listed(items, other) ensures Listed(rest, other) {
      var i :| 0 <= i < |items| && FromSpace(items[i]) == other;
      OthersMember(items, space, items[i]);
      assert items[i] in rest;
    }
  }

  // ---- Entries

  function TargetOf(rules: Rules, record: Json): Text { GrantCapability(rules, record).target }

  /** A grant of the party's own, inside a Space some item still lists. */
  ghost predicate Covered(rules: Rules, did: Text, e: Entry, record: Json) {
    && GrantCapability(rules, record).controller == did
    && exists space :: Listed(e.replicas, space) && IsTargetInSpace(TargetOf(rules, record), space)
  }

  ghost predicate EntryOk(rules: Rules, did: Text, e: Entry) {
    ItemsOk(e.replicas) && forall i :: 0 <= i < |e.grants| ==> Covered(rules, did, e, e.grants[i])
  }

  /** The capabilities whose grants a write removes. */
  function RemovedBy(op: Op): set<Text> {
    if op.RemoveGrants? then op.removedIds else {}
  }

  /** Every item whose Space a recorded grant targets stays. */
  ghost predicate StaysListed(rules: Rules, e: Entry, e': Entry) {
    forall i, space :: 0 <= i < |e.grants| && Listed(e.replicas, space) && IsTargetInSpace(TargetOf(rules, e.grants[i]), space) ==>
      Listed(e'.replicas, space)
  }

  /** A recorded grant stays, in the order recorded, unless this write removes its
      capability; and so does every item whose Space it targets. */
  ghost predicate GrantsStep(rules: Rules, op: Op, e: Entry, e': Entry) {
    KeptGrants(rules, e.grants, RemovedBy(op)) <= e'.grants && StaysListed(rules, e, e')
  }

  lemma NoneRemoved(rules: Rules, op: Op, grants: seq<Json>)
    requires !op.RemoveGrants?
    ensures KeptGrants(rules, grants, RemovedBy(op)) == grants
  {
    KeptAll(rules, grants, {});
  }

  ghost predicate EntryStep(rules: Rules, op: Op, e: Entry, e': Entry) {
    && ItemsStep(op, e.replicas, e'.replicas) && GrantsStep(rules, op, e, e')
    && (e.seed.Some? ==> e'.seed == e.seed && e'.seedTag == e.seedTag)
  }

  lemma CoverKept(rules: Rules, did: Text, e: Entry, e': Entry)
    requires EntryOk(rules, did, e) && ItemsOk(e'.replicas) && StaysListed(rules, e, e')
    requires forall g :: g in e'.grants ==> g in e.grants
    ensures EntryOk(rules, did, e')
  {
    forall i | 0 <= i < |e'.grants| ensures Covered(rules, did, e', e'.grants[i]) {
      assert e'.grants[i] in e.grants;
      var j :| 0 <= j < |e.grants| && e.grants[j] == e'.grants[i];
      assert Covered(rules, did, e, e.grants[j]);
    }
  }

  lemma StandingItems(rules: Rules, did: Text, m: Members, e: Entry)
    requires Stands(rules, did, m, e)
    ensures AllReplicas(rules, e.replicas)
  {
  }

  lemma RecordSteps(rules: Rules, did: Text, op: Op, m: Members, e: Entry)
    requires op.RecordReplicas? && EntryOk(rules, did, e) && RecordReplicasChange(rules, did, op, Some((m, e))).Body?
    ensures EntryOk(rules, did, RecordedEntry(e, op)) && EntryStep(rules, op, e, RecordedEntry(e, op))
  {
    NoneRemoved(rules, op, e.grants);
    Appended(op, e.replicas, op.incoming);
    CoverKept(rules, did, e, RecordedEntry(e, op));
  }

  lemma SettleSteps(rules: Rules, did: Text, op: Op, m: Members, e: Entry)
    requires op.SettleRegistration? && Stands(rules, did, m, e) && EntryOk(rules, did, e)
    requires SettleChange(rules, op, Some((m, e))).Body?
    ensures EntryOk(rules, did, MeantEntry(rules, e, op)) && EntryStep(rules, op, e, MeantEntry(rules, e, op))
  {
    NoneRemoved(rules, op, e.grants);
    var i := ReplicaIndex(e.replicas, op.settledSpace).value;
    SettledStep(op, e.replicas[i], op.registrationId);
    OneReplaced(op, e.replicas, i,
                WithoutMember(WithMember(e.replicas[i], MRegistrationId, op.registrationId), MPendingRegistrationId));
    CoverKept(rules, did, e, MeantEntry(rules, e, op));
  }

  lemma MarkerSteps(rules: Rules, did: Text, op: Op, e: Entry)
    requires (op.SetMarker? || op.ClearMarker?) && EntryOk(rules, did, e)
    ensures EntryOk(rules, did, MeantEntry(rules, e, op)) && EntryStep(rules, op, e, MeantEntry(rules, e, op))
  {
    var meant := MeantEntry(rules, e, op);
    forall i | 0 <= i < |e.replicas|
      ensures meant.replicas[i].JObject? && FromSpace(meant.replicas[i]) == FromSpace(e.replicas[i])
              && ItemStep(op, e.replicas[i], meant.replicas[i])
              && !(Has(meant.replicas[i], MRegistrationId) && Has(meant.replicas[i], MPendingRegistrationId))
    {
      if op.SetMarker? {
        MarkedStep(op, e.replicas[i], op.marker, op.named, op.markedAt);
      } else {
        ClearedStep(op, e.replicas[i]);
      }
    }
    NoneRemoved(rules, op, e.grants);
    EachReplaced(op, e.replicas, meant.replicas);
    CoverKept(rules, did, e, meant);
  }

  lemma RemoveSteps(rules: Rules, did: Text, op: Op, m: Members, e: Entry)
    requires op.RemoveReplica? && EntryOk(rules, did, e) && RemoveChange(rules, op, Some((m, e))).Body?
    ensures EntryOk(rules, did, MeantEntry(rules, e, op)) && EntryStep(rules, op, e, MeantEntry(rules, e, op))
  {
    NoneRemoved(rules, op, e.grants);
    Removed(op, e.replicas, op.removedSpace);
    CoverKept(rules, did, e, MeantEntry(rules, e, op));
  }

  lemma UngrantSteps(rules: Rules, did: Text, op: Op, e: Entry)
    requires op.RemoveGrants? && EntryOk(rules, did, e)
    ensures EntryOk(rules, did, MeantEntry(rules, e, op)) && EntryStep(rules, op, e, MeantEntry(rules, e, op))
  {
    var meant := MeantEntry(rules, e, op);
    SameItems(op, e.replicas);
    forall g | g in meant.grants ensures g in e.grants { KeptMember(rules, e.grants, op.removedIds, g); }
    CoverKept(rules, did, e, meant);
  }

  /** The items after a grant: at most its own gains the pending id. */
  lemma GrantItemsStep(rules: Rules, did: Text, op: Op, m: Members, e: Entry)
    requires op.RecordReplicaGrant? && Stands(rules, did, m, e) && ItemsOk(e.replicas)
    requires RecordGrantChange(rules, did, op, Some((m, e))).Body?
    ensures var after := MeantEntry(rules, e, op).replicas;
            && ItemsOk(after) && ItemsStep(op, e.replicas, after)
            && (forall space :: Listed(e.replicas, space) ==> Listed(after, space)) && Listed(after, op.fromSpace)
  {
    var i := ReplicaIndex(e.replicas, op.fromSpace).value;
    StandingItems(rules, did, m, e);
    assert IsReplica(rules, e.replicas[i]) && Listed(e.replicas, op.fromSpace);
    if op.pending.Some? && ItemText(e.replicas[i], MPendingRegistrationId) != op.pending {
      PendingStep(op, e.replicas[i], op.pending.value);
      OneReplaced(op, e.replicas, i, WithMember(e.replicas[i], MPendingRegistrationId, op.pending.value));
    } else {
      SameItems(op, e.replicas);
    }
  }

  lemma RecordCapability(rules: Rules, zcap: Members, kind: Text, grantedAt: Text, renewedAt: Option<Text>)
    ensures GrantCapability(rules, GrantRecord(zcap, kind, grantedAt, renewedAt)) == CapabilityOf(rules, Some(JObject(zcap)))
  {
  }

  lemma AddedRecord(rules: Rules, e: Entry, op: Op)
    requires op.RecordReplicaGrant?
    ensures RecordOf(rules, e, op).Some? ==>
              GrantCapability(rules, RecordOf(rules, e, op).value) == CapabilityOf(rules, Some(JObject(op.zcap)))
  {
    if op.renews.None? {
      RecordCapability(rules, op.zcap, Ascii("grant"), op.at, None);
    } else {
      var at := GrantIndex(rules, e.grants, op.renews.value);
      if at.Some? {
        var held := MembersOf(Some(e.grants[at.value]));
        RecordCapability(rules, op.zcap, TextAt(held, MGrantKind), TextAt(held, MGrantedAt), Some(op.at));
      }
    }
  }

  lemma GrantCovered(rules: Rules, did: Text, op: Op, m: Members, e: Entry, meant: Entry)
    requires op.RecordReplicaGrant? && RecordGrantChange(rules, did, op, Some((m, e))).Body?
    requires meant == MeantEntry(rules, e, op) && EntryOk(rules, did, meant.(grants := e.grants))
    requires Listed(meant.replicas, op.fromSpace)
    ensures EntryOk(rules, did, meant)
  {
    AddedRecord(rules, e, op);
    forall i | 0 <= i < |meant.grants| ensures Covered(rules, did, meant, meant.grants[i]) {
      if i < |e.grants| { assert Covered(rules, did, meant.(grants := e.grants), e.grants[i]); }
    }
  }

  lemma GrantSteps(rules: Rules, did: Text, op: Op, m: Members, e: Entry)
    requires op.RecordReplicaGrant? && Stands(rules, did, m, e) && EntryOk(rules, did, e)
    requires RecordGrantChange(rules, did, op, Some((m, e))).Body?
    ensures EntryOk(rules, did, MeantEntry(rules, e, op)) && EntryStep(rules, op, e, MeantEntry(rules, e, op))
  {
    var meant := MeantEntry(rules, e, op);
    NoneRemoved(rules, op, e.grants);
    GrantItemsStep(rules, did, op, m, e);
    CoverKept(rules, did, e, meant.(grants := e.grants));
    GrantCovered(rules, did, op, m, e, meant);
  }

  // ---- Runs

  function After(rules: Rules, did: Text, op: Op, stored: Option<Members>): Option<Members> {
    var change := ChangeOf(rules, did, op, stored);
    if change.Body? then Some(change.members) else stored
  }

  /** The clock's text parses, and a seed the write stores decodes. */
  ghost predicate OpOk(rules: Rules, op: Op, e: Option<Entry>) {
    StampOk(rules, op) && (op.RecordReplicas? && (e.None? || e.value.seed.None?) ==> SeedsOk(rules, op))
  }

  function Parsed(rules: Rules, stored: Option<Members>): Option<Entry> {
    if stored.None? then None else ParseConnectionEntry(rules, JObject(stored.value))
  }

  /** The resource is absent, or stands as a writable entry in order. */
  ghost predicate StoredOk(rules: Rules, did: Text, stored: Option<Members>) {
    stored.Some? ==>
      && Parsed(rules, stored).Some? && Stands(rules, did, stored.value, Parsed(rules, stored).value)
      && EntryOk(rules, did, Parsed(rules, stored).value)
  }

  lemma CreateSteps(rules: Rules, did: Text, op: Op)
    requires OpOk(rules, op, None) && IsDid(did)
    ensures StoredOk(rules, did, After(rules, did, op, None))
  {
    if op.RecordReplicas? && ChangeOf(rules, did, op, None).Body? {
      CreateParsesIff(rules, did, op);
      NewItemsDistinct(op.incoming, []);
    }
  }

  /** One write: the resource stays in order, and what stood of the entry changed
      only as the life of an item, its grants and the seed allow. */
  lemma WriteSteps(rules: Rules, did: Text, op: Op, m: Members)
    requires StoredOk(rules, did, Some(m)) && OpOk(rules, op, Parsed(rules, Some(m)))
    ensures After(rules, did, op, Some(m)).Some? && StoredOk(rules, did, After(rules, did, op, Some(m)))
    ensures EntryStep(rules, op, Parsed(rules, Some(m)).value, Parsed(rules, After(rules, did, op, Some(m))).value)
  {
    var e := Parsed(rules, Some(m)).value;
    if ChangeOf(rules, did, op, Some(m)).Body? {
      if op.RecordReplicas? {
        RecordParsesIff(rules, did, op, m, e);
        RecordSteps(rules, did, op, m, e);
      } else {
        WritersParseToMeaning(rules, did, op, m, e);
        OtherSteps(rules, did, op, m, e);
      }
    } else {
      SameItems(op, e.replicas);
      KeptPrefix(rules, did, op, m, e);
    }
  }

  /** A write that stores nothing removed nothing. */
  lemma KeptPrefix(rules: Rules, did: Text, op: Op, m: Members, e: Entry)
    requires Stands(rules, did, m, e) && !ChangeOf(rules, did, op, Some(m)).Body?
    ensures KeptGrants(rules, e.grants, RemovedBy(op)) == e.grants
  {
    KeptAll(rules, e.grants, RemovedBy(op));
  }

  lemma OtherSteps(rules: Rules, did: Text, op: Op, m: Members, e: Entry)
    requires !op.RecordReplicas? && Stands(rules, did, m, e) && EntryOk(rules, did, e)
    requires ChangeOf(rules, did, op, Some(m)).Body?
    ensures EntryOk(rules, did, MeantEntry(rules, e, op)) && EntryStep(rules, op, e, MeantEntry(rules, e, op))
    ensures MeantEntry(rules, e, op).id == e.id && MeantEntry(rules, e, op).version == e.version
            && MeantEntry(rules, e, op).kind == e.kind
  {
    match op
    case RecordReplicaGrant(_, _, _, _, _) => GrantSteps(rules, did, op, m, e);
    case SettleRegistration(_, _) => SettleSteps(rules, did, op, m, e);
    case RemoveReplica(_) => RemoveSteps(rules, did, op, m, e);
    case RemoveGrants(_) => UngrantSteps(rules, did, op, e);
    case _ => MarkerSteps(rules, did, op, e);
  }

  ghost predicate Execution(rules: Rules, did: Text, states: seq<Option<Members>>, ops: seq<Op>) {
    && |states| == |ops| + 1 && states[0] == None && IsDid(did)
    && forall n :: 0 <= n < |ops| ==>
         states[n + 1] == After(rules, did, ops[n], states[n]) && OpOk(rules, ops[n], Parsed(rules, states[n]))
  }

  /** From an absent entry, after any sequence of writers: the resource is absent or
      parses to a writable entry with one item per source Space, none both pending
      and registered, and every grant inside a Space still listed. */
  lemma {:induction false} EveryStateOk(rules: Rules, did: Text, states: seq<Option<Members>>, ops: seq<Op>, n: nat)
    requires Execution(rules, did, states, ops) && n < |states|
    ensures StoredOk(rules, did, states[n])
  {
    if n > 0 {
      EveryStateOk(rules, did, states, ops, n - 1);
      if states[n - 1].None? {
        CreateSteps(rules, did, ops[n - 1]);
      } else {
        WriteSteps(rules, did, ops[n - 1], states[n - 1].value);
      }
    }
  }

  /** Each write of the run changes an item only as its life allows. */
  lemma EveryWriteSteps(rules: Rules, did: Text, states: seq<Option<Members>>, ops: seq<Op>, n: nat)
    requires Execution(rules, did, states, ops) && n < |ops| && states[n].Some?
    ensures states[n + 1].Some? && StoredOk(rules, did, states[n]) && StoredOk(rules, did, states[n + 1])
    ensures EntryStep(rules, ops[n], Parsed(rules, states[n]).value, Parsed(rules, states[n + 1]).value)
  {
    EveryStateOk(rules, did, states, ops, n);
    WriteSteps(rules, did, ops[n], states[n].value);
  }

  /** A write that names a recorded grant's capability for removal. */
  predicate Unrecords(rules: Rules, op: Op, g: Json) {
    GrantCapability(rules, g).id in RemovedBy(op)
  }

  lemma GrantKept(rules: Rules, op: Op, e: Entry, e': Entry, g: Json)
    requires GrantsStep(rules, op, e, e') && g in e.grants && !Unrecords(rules, op, g)
    ensures g in e'.grants
    ensures forall space :: Listed(e.replicas, space) && IsTargetInSpace(TargetOf(rules, g), space) ==> Listed(e'.replicas, space)
  {
    KeptMember(rules, e.grants, RemovedBy(op), g);
    var k :| 0 <= k < |e.grants| && e.grants[k] == g;
  }

  /** A seed once written never changes; and a recorded grant stays recorded, every
      item whose Space it targets stays listed with it, until a write names its
      capability for removal. */
  lemma {:induction false} NothingRecordedIsLost(rules: Rules, did: Text, states: seq<Option<Members>>, ops: seq<Op>, i: nat, j: nat)
    requires Execution(rules, did, states, ops) && i <= j < |states| && states[i].Some?
    ensures states[j].Some? && StoredOk(rules, did, states[i]) && StoredOk(rules, did, states[j])
    ensures forall g :: g in Parsed(rules, states[i]).value.grants && StandsThrough(rules, ops, i, j, g) ==>
              KeptWithItems(rules, Parsed(rules, states[i]).value, Parsed(rules, states[j]).value, g)
    ensures Parsed(rules, states[i]).value.seed.Some? ==>
              Parsed(rules, states[j]).value.seed == Parsed(rules, states[i]).value.seed
    decreases j - i
  {
    EveryStateOk(rules, did, states, ops, i);
    if i < j {
      var k := j - 1;
      NothingRecordedIsLost(rules, did, states, ops, i, k);
      EveryWriteSteps(rules, did, states, ops, k);
      var a, b, c := Parsed(rules, states[i]).value, Parsed(rules, states[k]).value, Parsed(rules, states[k + 1]).value;
      forall g | g in a.grants && StandsThrough(rules, ops, i, j, g) ensures KeptWithItems(rules, a, c, g) {
        assert StandsThrough(rules, ops, i, k, g);
        GrantKept(rules, ops[k], b, c, g);
      }
    }
  }

  /** No write from one state to the other names the grant's capability. */
  ghost predicate StandsThrough(rules: Rules, ops: seq<Op>, i: nat, j: nat, g: Json)
    requires i <= j <= |ops|
  {
    forall n :: i <= n < j ==> !Unrecords(rules, ops[n], g)
  }

  ghost predicate KeptWithItems(rules: Rules, e: Entry, e': Entry, g: Json) {
    && g in e'.grants
    && forall space :: Listed(e.replicas, space) && IsTargetInSpace(TargetOf(rules, g), space) ==> Listed(e'.replicas, space)
  }

  function ItemsAt(rules: Rules, stored: Option<Members>): seq<Json> {
    if Parsed(rules, stored).Some? then Parsed(rules, stored).value.replicas else []
  }

  /** The item of a source Space is registered under an id. */
  ghost predicate RegisteredAs(items: seq<Json>, space: Text, id: Json) {
    exists p :: 0 <= p < |items| && FromSpace(items[p]) == space && Get(ItemMembers(items[p]), MRegistrationId) == Some(id)
  }

  lemma RegistrationKept(op: Op, before: seq<Json>, after: seq<Json>, space: Text, id: Json)
    requires ItemsStep(op, before, after) && RegisteredAs(before, space, id) && Listed(after, space)
    ensures RegisteredAs(after, space, id)
  {
    var p :| 0 <= p < |before| && FromSpace(before[p]) == space && Get(ItemMembers(before[p]), MRegistrationId) == Some(id);
    var q :| 0 <= q < |after| && FromSpace(after[q]) == space;
    assert ItemStep(op, before[p], after[q]);
  }

  lemma {:induction false} RegistrationFixed(lists: seq<seq<Json>>, ops: seq<Op>, i: nat, j: nat, space: Text, id: Json)
    requires |lists| == |ops| + 1 && i <= j < |lists|
    requires forall n :: 0 <= n < |ops| ==> ItemsStep(ops[n], lists[n], lists[n + 1])
    requires RegisteredAs(lists[i], space, id) && forall n :: i <= n <= j ==> Listed(lists[n], space)
    ensures RegisteredAs(lists[j], space, id)
    decreases j - i
  {
    if i < j {
      RegistrationFixed(lists, ops, i, j - 1, space, id);
      RegistrationKept(ops[j - 1], lists[j - 1], lists[j], space, id);
    }
  }

  lemma WriteItems(rules: Rules, did: Text, states: seq<Option<Members>>, ops: seq<Op>, n: nat)
    requires Execution(rules, did, states, ops) && n < |ops|
    ensures ItemsStep(ops[n], ItemsAt(rules, states[n]), ItemsAt(rules, states[n + 1]))
  {
    if states[n].Some? { EveryWriteSteps(rules, did, states, ops, n); }
  }

  /** A settled registration id is fixed for as long as its item is listed. */
  lemma SettledIdFixed(rules: Rules, did: Text, states: seq<Option<Members>>, ops: seq<Op>,
                       i: nat, j: nat, space: Text, id: Json)
    requires Execution(rules, did, states, ops) && i <= j < |states|
    requires RegisteredAs(ItemsAt(rules, states[i]), space, id)
    requires forall n :: i <= n <= j ==> Listed(ItemsAt(rules, states[n]), space)
    ensures RegisteredAs(ItemsAt(rules, states[j]), space, id)
  {
    var lists := seq(|states|, n requires 0 <= n < |states| => ItemsAt(rules, states[n]));
    forall n | 0 <= n < |ops| ensures ItemsStep(ops[n], lists[n], lists[n + 1]) { WriteItems(rules, did, states, ops, n); }
    RegistrationFixed(lists, ops, i, j, space, id);
  }

  lemma ListedIndex(items: seq<Json>, space: Text)
    ensures Listed(items, space) <==> ReplicaIndex(items, space).Some?
  {
  }

  lemma RemovalStores(rules: Rules, did: Text, space: Text, m: Members, e: Entry)
    requires Stands(rules, did, m, e) && IsSpaceUrl(rules, space) && Listed(e.replicas, space)
    requires forall g :: g in e.grants ==> !IsTargetInSpace(TargetOf(rules, g), space)
    ensures ChangeOf(rules, did, RemoveReplica(space), Some(m)).Body?
  {
    ListedIndex(e.replicas, space);
    assert forall i :: 0 <= i < |e.grants| ==> e.grants[i] in e.grants;
  }

  lemma RemovalUnlists(items: seq<Json>, space: Text)
    ensures !Listed(Others(items, space), space)
  {
    var rest := Others(items, space);
    forall i | 0 <= i < |rest| ensures FromSpace(rest[i]) != space {
      OthersMember(items, space, rest[i]);
      assert rest[i] in rest;
    }
  }

  /** Once every grant inside a Space is removed by its capability, the Space's item
      can be removed, however it is registered; every other grant stays. */
  lemma RemovedOnceUngranted(rules: Rules, did: Text, m: Members, ids: set<Text>, space: Text)
    requires StoredOk(rules, did, Some(m)) && IsSpaceUrl(rules, space)
    requires Listed(ItemsAt(rules, Some(m)), space)
    requires forall g :: g in Parsed(rules, Some(m)).value.grants && IsTargetInSpace(TargetOf(rules, g), space) ==>
               GrantCapability(rules, g).id in ids
    ensures var ungranted := After(rules, did, RemoveGrants(ids), Some(m));
            var removed := After(rules, did, RemoveReplica(space), ungranted);
            && StoredOk(rules, did, removed) && removed.Some? && !Listed(ItemsAt(rules, removed), space)
            && forall g :: g in Parsed(rules, removed).value.grants <==>
                 g in Parsed(rules, Some(m)).value.grants && GrantCapability(rules, g).id !in ids
  {
    var e := Parsed(rules, Some(m)).value;
    var ungranted := After(rules, did, RemoveGrants(ids), Some(m));
    Ungranted(rules, did, m, ids);
    RemovedUngranted(rules, did, ungranted.value, space);
    forall g ensures g in KeptGrants(rules, e.grants, ids) <==> g in e.grants && GrantCapability(rules, g).id !in ids {
      KeptMember(rules, e.grants, ids, g);
    }
  }

  lemma Ungranted(rules: Rules, did: Text, m: Members, ids: set<Text>)
    requires StoredOk(rules, did, Some(m))
    ensures var after := After(rules, did, RemoveGrants(ids), Some(m));
            && after.Some? && StoredOk(rules, did, after)
            && Parsed(rules, after).value.grants == KeptGrants(rules, Parsed(rules, Some(m)).value.grants, ids)
            && Parsed(rules, after).value.replicas == Parsed(rules, Some(m)).value.replicas
    ensures forall g :: g in KeptGrants(rules, Parsed(rules, Some(m)).value.grants, ids) ==>
              g in Parsed(rules, Some(m)).value.grants && GrantCapability(rules, g).id !in ids
  {
    var e := Parsed(rules, Some(m)).value;
    WriteSteps(rules, did, RemoveGrants(ids), m);
    RemoveGrantsParses(rules, did, RemoveGrants(ids), m, e);
    KeptAll(rules, e.grants, ids);
    forall g | g in KeptGrants(rules, e.grants, ids) ensures g in e.grants && GrantCapability(rules, g).id !in ids {
      KeptMember(rules, e.grants, ids, g);
    }
  }

  lemma RemovedUngranted(rules: Rules, did: Text, m: Members, space: Text)
    requires StoredOk(rules, did, Some(m)) && IsSpaceUrl(rules, space) && Listed(ItemsAt(rules, Some(m)), space)
    requires forall g :: g in Parsed(rules, Some(m)).value.grants ==> !IsTargetInSpace(TargetOf(rules, g), space)
    ensures var after := After(rules, did, RemoveReplica(space), Some(m));
            && after.Some? && StoredOk(rules, did, after) && !Listed(ItemsAt(rules, after), space)
            && Parsed(rules, after).value.grants == Parsed(rules, Some(m)).value.grants
  {
    var e := Parsed(rules, Some(m)).value;
    WriteSteps(rules, did, RemoveReplica(space), m);
    RemovalStores(rules, did, space, m, e);
    WritersParseToMeaning(rules, did, RemoveReplica(space), m, e);
    RemovalUnlists(e.replicas, space);
  }

  // ---- Visibility

  lemma OwnSpaceShows(rules: Rules, e: Entry, spaceUrl: Text, space: Text)
    requires Listed(e.replicas, space) && rules.baseServer(space) == rules.baseServer(spaceUrl)
    ensures space in AccountContainerUrls(rules, Some(e), spaceUrl)
  {
    var i :| 0 <= i < |e.replicas| && FromSpace(e.replicas[i]) == space;
    OwnContainersMember(rules, e.replicas, rules.baseServer(spaceUrl), i);
  }

  /** No pull grant still recorded is invisible: one recorded for a source Space on
      the account's own base server is among the grants the wallet shows in every
      later state, until a write names its capability for removal. */
  lemma RecordedGrantStaysVisible(rules: Rules, did: Text, states: seq<Option<Members>>, ops: seq<Op>,
                                  i: nat, j: nat, g: Json, space: Text, spaceUrl: Text)
    requires Execution(rules, did, states, ops) && i <= j < |states| && states[i].Some? && Parsed(rules, states[i]).Some?
    requires var e := Parsed(rules, states[i]).value;
             g in e.grants && Listed(e.replicas, space) && IsTargetInSpace(TargetOf(rules, g), space)
    requires StandsThrough(rules, ops, i, j, g) && rules.baseServer(space) == rules.baseServer(spaceUrl)
    ensures states[j].Some? && Parsed(rules, states[j]).Some?
    ensures var e' := Parsed(rules, states[j]).value;
            && g in e'.grants
            && GrantOf(rules, g) in ShownGrants(rules, e', AccountContainerUrls(rules, Some(e'), spaceUrl), |e'.grants|)
  {
    NothingRecordedIsLost(rules, did, states, ops, i, j);
    var e, e' := Parsed(rules, states[i]).value, Parsed(rules, states[j]).value;
    assert KeptWithItems(rules, e, e', g) && Listed(e'.replicas, space);
    StandingGrantShows(rules, did, e', g, space, spaceUrl);
  }

  /** In an entry in order, every grant recorded for a listed source Space on the
      account's own base server is shown. */
  lemma StandingGrantShows(rules: Rules, did: Text, e: Entry, g: Json, space: Text, spaceUrl: Text)
    requires EntryOk(rules, did, e) && e.id == Some(did) && g in e.grants
    requires Listed(e.replicas, space) && IsTargetInSpace(TargetOf(rules, g), space)
    requires rules.baseServer(space) == rules.baseServer(spaceUrl)
    ensures GrantOf(rules, g) in ShownGrants(rules, e, AccountContainerUrls(rules, Some(e), spaceUrl), |e.grants|)
  {
    var k :| 0 <= k < |e.grants| && e.grants[k] == g;
    OwnSpaceShows(rules, e, spaceUrl, space);
    var spaces := AccountContainerUrls(rules, Some(e), spaceUrl);
    var s :| 0 <= s < |spaces| && spaces[s] == space;
    assert IsTargetInSpace(TargetOf(rules, e.grants[k]), spaces[s]);
    assert Covered(rules, did, e, e.grants[k]);
    ShownIsListed(rules, e, spaces, |e.grants|, k);
  }

  lemma MeantGrants(rules: Rules, op: Op, e: Entry) returns (k: nat)
    requires op.RecordReplicaGrant? && RecordOf(rules, e, op).Some?
    ensures var meant := MeantEntry(rules, e, op);
            k < |meant.grants| && GrantCapability(rules, meant.grants[k]).id == CapabilityOf(rules, Some(JObject(op.zcap))).id
  {
    var held := GrantIndex(rules, e.grants, CapabilityOf(rules, Some(JObject(op.zcap))).id);
    if held.Some? {
      k := held.value;
    } else {
      AddedRecord(rules, e, op);
      k := |e.grants|;
    }
  }

  lemma MeantGrantRecorded(rules: Rules, did: Text, op: Op, m: Members, e: Entry) returns (k: nat)
    requires op.RecordReplicaGrant? && Stands(rules, did, m, e) && ItemsOk(e.replicas)
    requires RecordGrantChange(rules, did, op, Some((m, e))).Body?
    ensures var meant := MeantEntry(rules, e, op);
            && k < |meant.grants| && Listed(meant.replicas, op.fromSpace)
            && GrantCapability(rules, meant.grants[k]).id == CapabilityOf(rules, Some(JObject(op.zcap))).id
  {
    GrantItemsStep(rules, did, op, m, e);
    k := MeantGrants(rules, op, e);
  }

  /** And a landed `RecordReplicaGrant` is such a recording: the capability is among
      the grants, and its source Space is listed. */
  lemma LandedGrantIsRecorded(rules: Rules, did: Text, op: Op, m: Members) returns (k: nat)
    requires op.RecordReplicaGrant? && StoredOk(rules, did, Some(m)) && OpOk(rules, op, Parsed(rules, Some(m)))
    requires ChangeOf(rules, did, op, Some(m)).Body? || ChangeOf(rules, did, op, Some(m)).Unchanged?
    ensures Parsed(rules, After(rules, did, op, Some(m))).Some?
    ensures var e := Parsed(rules, After(rules, did, op, Some(m))).value;
            && k < |e.grants| && Listed(e.replicas, op.fromSpace)
            && GrantCapability(rules, e.grants[k]).id == CapabilityOf(rules, Some(JObject(op.zcap))).id
  {
    var e := Parsed(rules, Some(m)).value;
    if ChangeOf(rules, did, op, Some(m)).Body? {
      WritersParseToMeaning(rules, did, op, m, e);
      k := MeantGrantRecorded(rules, did, op, m, e);
    } else {
      assert Listed(e.replicas, op.fromSpace);
      k := GrantIndex(rules, e.grants, CapabilityOf(rules, Some(JObject(op.zcap))).id).value;
    }
  }
}
