/** What the replica writers store parses to the entry they meant. */
module ReplicaBodies {
  import opened Seqs
  import opened LabelText
  import opened Entry
  import opened Grants
  import opened Replicas

  function KeptOr(t: Option<Text>, otherwise: Option<Text>): Option<Text> {
    if t.Some? then t else otherwise
  }

  /** The entry a first `RecordReplicas` means. */
  function CreatedEntry(did: Text, op: Op): Entry
    requires op.RecordReplicas?
  {
    Entry(CONNECTION_ENTRY_VERSION, REPLICA_SERVER_KIND, Some(did), Normalized(op.name), None, None, Some(op.url), None,
          op.stamp, op.stamp, None, None, op.seed, op.seedTag, [], [], [], [], NewItems(op.incoming, []))
  }

  /** The entry a `RecordReplicas` over a standing one means: names kept unless
      redeclared, the seed written once, the new replicas appended, and neither
      retired nor declined any more. */
  function RecordedEntry(e: Entry, op: Op): Entry
    requires op.RecordReplicas?
  {
    e.(name := KeptOr(Normalized(op.name), e.name), url := Some(op.url), lastSeen := op.stamp,
       seed := KeptOr(e.seed, op.seed), seedTag := if e.seed.Some? then e.seedTag else op.seedTag,
       replicas := e.replicas + NewItems(op.incoming, e.replicas), retired := None, declined := None)
  }

  // ---- Items stay readable

  lemma {:induction false} NewItemsOk(rules: Rules, incoming: seq<(Text, Text)>, held: seq<Json>)
    requires forall i :: 0 <= i < |incoming| ==> IsSpaceUrl(rules, incoming[i].0) && IsSeed(rules, Some(JString(incoming[i].1)))
    ensures AllReplicas(rules, NewItems(incoming, held))
  {
    if incoming != [] {
      NewItemsOk(rules, incoming[1..], held);
      assert IsReplica(rules, NewItem(incoming[0]));
    }
  }

  lemma AllReplicasAppend(rules: Rules, a: seq<Json>, b: seq<Json>)
    requires AllReplicas(rules, a) && AllReplicas(rules, b)
    ensures AllReplicas(rules, a + b)
  {
  }

  lemma RegistrationWrites(rules: Rules, item: Json, id: Text)
    requires IsReplica(rules, item) && IsSeed(rules, Some(JString(id)))
    ensures IsReplica(rules, WithMember(item, MPendingRegistrationId, id))
    ensures IsReplica(rules, WithoutMember(WithMember(item, MRegistrationId, id), MPendingRegistrationId))
  {
  }

  lemma MarkerWrites(rules: Rules, item: Json, marker: Marker, named: Option<set<Text>>, stamp: Text)
    requires IsReplica(rules, item) && rules.parseTime(stamp).Some?
    ensures IsReplica(rules, MarkedItem(item, marker, named, stamp))
    ensures IsReplica(rules, ClearedItem(item, marker, named))
  {
  }

  lemma MarkersKeepShape(rules: Rules, items: seq<Json>, marker: Marker, named: Option<set<Text>>, stamp: Text)
    requires AllReplicas(rules, items) && rules.parseTime(stamp).Some?
    ensures AllReplicas(rules, Marked(items, marker, named, stamp))
    ensures AllReplicas(rules, Cleared(items, marker, named))
  {
    forall i | 0 <= i < |items|
      ensures IsReplica(rules, Marked(items, marker, named, stamp)[i]) && IsReplica(rules, Cleared(items, marker, named)[i])
    {
      MarkerWrites(rules, items[i], marker, named, stamp);
    }
  }

  lemma {:induction false} OthersMember(items: seq<Json>, space: Text, item: Json)
    ensures item in Others(items, space) <==> item in items && FromSpace(item) != space
  {
    if items != [] {
      OthersMember(items[1..], space, item);
      assert items == [items[0]] + items[1..];
    }
  }

  lemma OthersOk(rules: Rules, items: seq<Json>, space: Text)
    requires AllReplicas(rules, items)
    ensures AllReplicas(rules, Others(items, space))
  {
    var r := Others(items, space);
    forall i | 0 <= i < |r| ensures IsReplica(rules, r[i]) {
      OthersMember(items, space, r[i]);
      assert r[i] in items;
    }
  }

  // ---- Creating

  predicate SeedsOk(rules: Rules, op: Op)
    requires op.RecordReplicas?
  {
    IsOptionalSeed(rules, JsonText(op.seed)) && IsOptionalSeed(rules, JsonText(op.seedTag))
  }

  function CreatedMembers(did: Text, op: Op): Fields
    requires op.RecordReplicas?
  {
    Fields(Some(JInteger(CONNECTION_ENTRY_VERSION)), Some(JString(REPLICA_SERVER_KIND)), Some(JString(did)),
           JsonText(Normalized(op.name)), None, None, Some(JString(op.url)), None, Some(JString(op.stamp)),
           Some(JString(op.stamp)), None, None, JsonText(op.seed), JsonText(op.seedTag), Some(JArray([])),
           Some(JArray([])), Some(JArray([])), Some(JArray([])), Some(JArray(NewItems(op.incoming, []))))
  }

  lemma CreatedFields(did: Text, op: Op, rules: Rules)
    requires op.RecordReplicas? && RecordReplicasChange(rules, did, op, None).Body?
    ensures FieldsOf(RecordReplicasChange(rules, did, op, None).members) == CreatedMembers(did, op)
  {
    var m0 := NewConnectionEntry(did, op.stamp);
    FreshFields(did, op.stamp);
    DeclaredFields(m0, op.name, op.url);
    var m1 := Declared(m0, op.name, op.url);
    SeedFields(m1, op.seed, op.seedTag);
    FieldsPut(WithSeed(m1, op.seed, op.seedTag), MReplicas, JArray(NewItems(op.incoming, [])));
  }

  lemma FreshFields(did: Text, stamp: Text)
    ensures FieldsOf(NewConnectionEntry(did, stamp)) ==
            Fields(Some(JInteger(CONNECTION_ENTRY_VERSION)), Some(JString(REPLICA_SERVER_KIND)), Some(JString(did)),
                   None, None, None, None, None, Some(JString(stamp)), Some(JString(stamp)), None, None, None, None,
                   Some(JArray([])), Some(JArray([])), Some(JArray([])), Some(JArray([])), None)
  {
  }

  lemma DeclaredFields(m: Members, name: Option<Text>, url: Text)
    ensures var f := FieldsOf(m);
            FieldsOf(Declared(m, name, url)) ==
            f.(name := if Normalized(name).Some? then JsonText(Normalized(name)) else f.name, url := Some(JString(url)))
  {
    if Normalized(name).Some? { FieldsPut(m, MName, JString(Normalized(name).value)); }
    FieldsPut(Put(m, MName, JsonText(Normalized(name))), MUrl, JString(url));
  }

  lemma SeedFields(m: Members, seed: Option<Text>, seedTag: Option<Text>)
    ensures var f := FieldsOf(m);
            FieldsOf(WithSeed(m, seed, seedTag)) ==
            f.(seed := if seed.Some? then JsonText(seed) else f.seed,
               seedTag := if seedTag.Some? then JsonText(seedTag) else f.seedTag)
  {
    if seed.Some? { FieldsPut(m, MSeed, JString(seed.value)); }
    if seedTag.Some? { FieldsPut(Put(m, MSeed, JsonText(seed)), MSeedTag, JString(seedTag.value)); }
  }

  lemma KindIsText()
    ensures REPLICA_SERVER_KIND != []
  {
    assert |REPLICA_SERVER_KIND| == 14;
  }

  lemma NormalizedTwiceOptional(t: Option<Text>)
    ensures Normalized(Normalized(t)) == Normalized(t) && NameOk(JsonText(Normalized(t)))
  {
    if Normalized(t).Some? { NormalizeIsIdempotent(t.value); }
  }

  lemma CreatedOkIff(rules: Rules, did: Text, op: Op)
    requires op.RecordReplicas? && rules.parseTime(op.stamp).Some? && op.seed.Some? == op.seedTag.Some?
    requires AllReplicas(rules, NewItems(op.incoming, []))
    ensures FieldsOk(rules, CreatedMembers(did, op)) <==> IsDid(did) && SeedsOk(rules, op)
  {
    KindIsText();
    NormalizedTwiceOptional(op.name);
    var f := CreatedMembers(did, op);
    assert ScalarsOk(rules, f) <==> IsDid(did);
    assert TimesAndSeedsOk(rules, f) <==> SeedsOk(rules, op);
    assert NameOk(f.name) && NameOk(f.userLabel) && ListsOk(rules, f);
  }

  lemma CreatedReads(rules: Rules, did: Text, op: Op)
    requires op.RecordReplicas? && FieldsOk(rules, CreatedMembers(did, op))
    ensures EntryOf(rules, CreatedMembers(did, op)) == CreatedEntry(did, op)
  {
    NormalizedTwiceOptional(op.name);
    assert ParsedWriters(rules, []) == [];
  }

  /** A created body parses exactly when the party's id is a DID and the seed and
      its tag, which the writer does not check, decode -- and then to the entry the
      writer meant. */
  lemma CreateParsesIff(rules: Rules, did: Text, op: Op)
    requires op.RecordReplicas? && ChangeOf(rules, did, op, None).Body? && rules.parseTime(op.stamp).Some?
    ensures var parsed := ParseConnectionEntry(rules, JObject(ChangeOf(rules, did, op, None).members));
            && (parsed.Some? <==> IsDid(did) && SeedsOk(rules, op))
            && (parsed.Some? ==> parsed == Some(CreatedEntry(did, op)))
  {
    CreatedFields(did, op, rules);
    NewItemsOk(rules, op.incoming, []);
    CreatedOkIff(rules, did, op);
    if FieldsOk(rules, CreatedMembers(did, op)) { CreatedReads(rules, did, op); }
  }

  // ---- Writing over a standing entry

  predicate Stands(rules: Rules, did: Text, m: Members, e: Entry) {
    && ParseConnectionEntry(rules, JObject(m)) == Some(e)
    && e.id == Some(did) && e.version == CONNECTION_ENTRY_VERSION && e.kind == REPLICA_SERVER_KIND
  }

  /** The seed a `RecordReplicas` writes over an entry decodes, if it writes one. */
  predicate WrittenSeedOk(rules: Rules, e: Entry, op: Op)
    requires op.RecordReplicas?
  {
    e.seed.None? ==> SeedsOk(rules, op)
  }

  function RecordedMembers(f: Fields, e: Entry, op: Op): Fields
    requires op.RecordReplicas?
  {
    var writesSeed := e.seed.None? && op.seed.Some? && op.seedTag.Some?;
    f.(name := if Normalized(op.name).Some? then JsonText(Normalized(op.name)) else f.name,
       url := Some(JString(op.url)), lastSeen := Some(JString(op.stamp)),
       seed := if writesSeed then JsonText(op.seed) else f.seed,
       seedTag := if writesSeed then JsonText(op.seedTag) else f.seedTag,
       replicas := Some(JArray(e.replicas + NewItems(op.incoming, e.replicas))), retired := None, declined := None)
  }

  lemma EndingsFields(m: Members)
    ensures FieldsOf(m - {MRetired} - {MDeclined}) == FieldsOf(m).(retired := None, declined := None)
  {
    FieldsDrop(m, MRetired);
    FieldsDrop(m - {MRetired}, MDeclined);
  }

  lemma EndedFields(m: Members, items: seq<Json>)
    ensures FieldsOf(m[MReplicas := JArray(items)] - {MRetired} - {MDeclined}) ==
            FieldsOf(m).(replicas := Some(JArray(items)), retired := None, declined := None)
  {
    FieldsPut(m, MReplicas, JArray(items));
    EndingsFields(m[MReplicas := JArray(items)]);
  }

  lemma StampedFields(m: Members, op: Op)
    requires op.RecordReplicas?
    ensures var f := FieldsOf(m);
            FieldsOf(Declared(m, op.name, op.url)[MLastSeen := JString(op.stamp)]) ==
            f.(name := if Normalized(op.name).Some? then JsonText(Normalized(op.name)) else f.name,
               url := Some(JString(op.url)), lastSeen := Some(JString(op.stamp)))
  {
    DeclaredFields(m, op.name, op.url);
    FieldsPut(Declared(m, op.name, op.url), MLastSeen, JString(op.stamp));
  }

  lemma RecordedFields(rules: Rules, did: Text, op: Op, m: Members, e: Entry)
    requires op.RecordReplicas? && RecordReplicasChange(rules, did, op, Some((m, e))).Body?
    ensures FieldsOf(RecordReplicasChange(rules, did, op, Some((m, e))).members) == RecordedMembers(FieldsOf(m), e, op)
  {
    StampedFields(m, op);
    var stamped := Declared(m, op.name, op.url)[MLastSeen := JString(op.stamp)];
    SeedFields(stamped, op.seed, op.seedTag);
    EndedFields(if e.seed.None? then WithSeed(stamped, op.seed, op.seedTag) else stamped,
                e.replicas + NewItems(op.incoming, e.replicas));
  }

  lemma RecordedOkIff(rules: Rules, f: Fields, op: Op)
    requires op.RecordReplicas? && rules.parseTime(op.stamp).Some? && op.seed.Some? == op.seedTag.Some?
    requires FieldsOk(rules, f) && EntryOf(rules, f).kind == REPLICA_SERVER_KIND
    requires AllReplicas(rules, NewItems(op.incoming, EntryOf(rules, f).replicas))
    ensures FieldsOk(rules, RecordedMembers(f, EntryOf(rules, f), op)) <==> WrittenSeedOk(rules, EntryOf(rules, f), op)
  {
    var e := EntryOf(rules, f);
    var g := RecordedMembers(f, e, op);
    NormalizedTwiceOptional(op.name);
    AllReplicasAppend(rules, e.replicas, NewItems(op.incoming, e.replicas));
    assert ScalarsOk(rules, g) && NameOk(g.name) && ListsOk(rules, g);
    assert TimesAndSeedsOk(rules, g) <==> WrittenSeedOk(rules, e, op);
  }

  lemma RecordedReads(rules: Rules, f: Fields, op: Op)
    requires op.RecordReplicas? && op.seed.Some? == op.seedTag.Some?
    requires FieldsOk(rules, f) && FieldsOk(rules, RecordedMembers(f, EntryOf(rules, f), op))
    ensures EntryOf(rules, RecordedMembers(f, EntryOf(rules, f), op)) == RecordedEntry(EntryOf(rules, f), op)
  {
    NormalizedTwiceOptional(op.name);
  }

  /** Recording replicas over a standing entry stores a body that parses exactly
      when the seed it writes, if any, decodes. */
  lemma RecordParsesIff(rules: Rules, did: Text, op: Op, m: Members, e: Entry)
    requires op.RecordReplicas? && Stands(rules, did, m, e) && rules.parseTime(op.stamp).Some?
    requires ChangeOf(rules, did, op, Some(m)).Body?
    ensures var parsed := ParseConnectionEntry(rules, JObject(ChangeOf(rules, did, op, Some(m)).members));
            && (parsed.Some? <==> WrittenSeedOk(rules, e, op))
            && (parsed.Some? ==> parsed == Some(RecordedEntry(e, op)))
  {
    RecordedFields(rules, did, op, m, e);
    NewItemsOk(rules, op.incoming, e.replicas);
    var f := FieldsOf(m);
    RecordedOkIff(rules, f, op);
    if FieldsOk(rules, RecordedMembers(f, e, op)) { RecordedReads(rules, f, op); }
  }

  // ---- The other writers

  lemma NewRecordOk(rules: Rules, zcap: Members, at: Text)
    requires IsZcap(rules, Some(JObject(zcap))) && rules.parseTime(at).Some?
    ensures IsGrantRecord(rules, GrantRecord(zcap, Ascii("grant"), at, None))
  {
  }

  lemma RenewedRecordOk(rules: Rules, grants: seq<Json>, zcap: Members, source: Text, at: Text)
    requires AllGrants(rules, grants) && IsZcap(rules, Some(JObject(zcap))) && rules.parseTime(at).Some?
    requires RenewedRecord(rules, grants, zcap, source, at).Some?
    ensures IsGrantRecord(rules, RenewedRecord(rules, grants, zcap, source, at).value)
  {
    var i := GrantIndex(rules, grants, source).value;
    assert IsGrantRecord(rules, grants[i]);
  }

  lemma ReplicasPut(rules: Rules, m: Members, e: Entry, items: seq<Json>)
    requires ParseConnectionEntry(rules, JObject(m)) == Some(e) && e.kind == REPLICA_SERVER_KIND
    requires AllReplicas(rules, items)
    ensures ParseConnectionEntry(rules, JObject(m[MReplicas := JArray(items)])) == Some(e.(replicas := items))
  {
    FieldsPut(m, MReplicas, JArray(items));
    ReplicasUpdate(rules, FieldsOf(m), items);
  }

  lemma GrantsPut(rules: Rules, m: Members, e: Entry, items: seq<Json>)
    requires ParseConnectionEntry(rules, JObject(m)) == Some(e) && AllGrants(rules, items)
    ensures ParseConnectionEntry(rules, JObject(m[MGrants := JArray(items)])) == Some(e.(grants := items))
  {
    FieldsPut(m, MGrants, JArray(items));
    GrantsUpdate(rules, FieldsOf(m), items);
  }

  lemma DeclinedDropped(rules: Rules, m: Members, e: Entry)
    requires ParseConnectionEntry(rules, JObject(m)) == Some(e)
    ensures ParseConnectionEntry(rules, JObject(m - {MDeclined})) == Some(e.(declined := None))
  {
    FieldsDrop(m, MDeclined);
    EndingsDropped(rules, FieldsOf(m));
  }

  predicate StampOk(rules: Rules, op: Op) {
    match op
    case RecordReplicas(_, _, _, _, _, stamp) => rules.parseTime(stamp).Some?
    case RecordReplicaGrant(_, _, _, _, at) => rules.parseTime(at).Some?
    case SetMarker(_, _, markedAt) => rules.parseTime(markedAt).Some?
    case _ => true
  }

  /** The record a `RecordReplicaGrant` adds. */
  function RecordOf(rules: Rules, e: Entry, op: Op): Option<Json>
    requires op.RecordReplicaGrant?
  {
    if op.renews.None? then Some(GrantRecord(op.zcap, Ascii("grant"), op.at, None))
    else RenewedRecord(rules, e.grants, op.zcap, op.renews.value, op.at)
  }

  /** The entry the other writers mean: for a grant, the record appended unless its
      capability is held and the pending id on its item; for a settlement, that item
      settled; for a marker, the named items marked or cleared, and a re-start's
      decline dropped; for a removal, the Space's item, or the named grants, gone. */
  function MeantEntry(rules: Rules, e: Entry, op: Op): Entry
    requires !op.RecordReplicas?
  {
    match op
    case RecordReplicaGrant(space, zcap, pending, _, _) =>
      var held := GrantIndex(rules, e.grants, CapabilityOf(rules, Some(JObject(zcap))).id).Some?;
      var record := RecordOf(rules, e, op);
      e.(grants := if held || record.None? then e.grants else e.grants + [record.value],
         replicas := match (ReplicaIndex(e.replicas, space), pending)
                     case (Some(i), Some(id)) =>
                       if ItemText(e.replicas[i], MPendingRegistrationId) == pending then e.replicas
                       else e.replicas[i := WithMember(e.replicas[i], MPendingRegistrationId, id)]
                     case _ => e.replicas)
    case SettleRegistration(space, id) =>
      e.(replicas := match ReplicaIndex(e.replicas, space)
                     case Some(i) => e.replicas[i := WithoutMember(WithMember(e.replicas[i], MRegistrationId, id), MPendingRegistrationId)]
                     case None => e.replicas)
    case SetMarker(marker, named, at) =>
      e.(replicas := Marked(e.replicas, marker, named, at), declined := if marker.Restarted? then None else e.declined)
    case ClearMarker(marker, named) => e.(replicas := Cleared(e.replicas, marker, named))
    case RemoveReplica(space) => e.(replicas := Others(e.replicas, space))
    case RemoveGrants(ids) => e.(grants := KeptGrants(rules, e.grants, ids))
  }

  /** The body a `RecordReplicaGrant` stores, in terms of the entry it means. */
  lemma GrantBody(rules: Rules, did: Text, op: Op, m: Members, e: Entry)
    requires op.RecordReplicaGrant? && RecordGrantChange(rules, did, op, Some((m, e))).Body?
    ensures var meant := MeantEntry(rules, e, op);
            var held := GrantIndex(rules, e.grants, CapabilityOf(rules, Some(JObject(op.zcap))).id).Some?;
            && RecordGrantChange(rules, did, op, Some((m, e))).members ==
               (if held then m else m[MGrants := JArray(meant.grants)])[MReplicas := JArray(meant.replicas)]
            && (held ==> meant.grants == e.grants)
            && meant == e.(grants := meant.grants, replicas := meant.replicas)
  {
  }

  lemma GrantReplicasOk(rules: Rules, e: Entry, op: Op)
    requires op.RecordReplicaGrant? && AllReplicas(rules, e.replicas) && IsOptionalSeed(rules, JsonText(op.pending))
    ensures AllReplicas(rules, MeantEntry(rules, e, op).replicas)
  {
    var i := ReplicaIndex(e.replicas, op.fromSpace);
    if op.pending.Some? && i.Some? { RegistrationWrites(rules, e.replicas[i.value], op.pending.value); }
  }

  lemma GrantGrantsOk(rules: Rules, e: Entry, op: Op)
    requires op.RecordReplicaGrant? && AllGrants(rules, e.grants) && StampOk(rules, op)
    requires IsZcap(rules, Some(JObject(op.zcap)))
    ensures AllGrants(rules, MeantEntry(rules, e, op).grants)
  {
    var record := RecordOf(rules, e, op);
    if op.renews.Some? {
      if record.Some? { RenewedRecordOk(rules, e.grants, op.zcap, op.renews.value, op.at); }
    } else {
      NewRecordOk(rules, op.zcap, op.at);
    }
  }

  lemma GrantItemsOk(rules: Rules, did: Text, op: Op, m: Members, e: Entry)
    requires op.RecordReplicaGrant? && AllReplicas(rules, e.replicas) && AllGrants(rules, e.grants) && StampOk(rules, op)
    requires RecordGrantChange(rules, did, op, Some((m, e))).Body?
    ensures AllReplicas(rules, MeantEntry(rules, e, op).replicas) && AllGrants(rules, MeantEntry(rules, e, op).grants)
  {
    GrantReplicasOk(rules, e, op);
    GrantGrantsOk(rules, e, op);
  }

  lemma GrantParses(rules: Rules, did: Text, op: Op, m: Members, e: Entry)
    requires op.RecordReplicaGrant? && Stands(rules, did, m, e) && StampOk(rules, op)
    requires RecordGrantChange(rules, did, op, Some((m, e))).Body?
    ensures ParseConnectionEntry(rules, JObject(RecordGrantChange(rules, did, op, Some((m, e))).members)) ==
            Some(MeantEntry(rules, e, op))
  {
    var meant := MeantEntry(rules, e, op);
    GrantBody(rules, did, op, m, e);
    GrantItemsOk(rules, did, op, m, e);
    BothPut(rules, m, e, meant.grants, meant.replicas);
  }

  lemma BothPut(rules: Rules, m: Members, e: Entry, grants: seq<Json>, items: seq<Json>)
    requires ParseConnectionEntry(rules, JObject(m)) == Some(e) && e.kind == REPLICA_SERVER_KIND
    requires AllGrants(rules, grants) && AllReplicas(rules, items)
    ensures ParseConnectionEntry(rules, JObject(m[MGrants := JArray(grants)][MReplicas := JArray(items)])) ==
            Some(e.(grants := grants, replicas := items))
    ensures grants == e.grants ==>
              ParseConnectionEntry(rules, JObject(m[MReplicas := JArray(items)])) == Some(e.(grants := grants, replicas := items))
  {
    ReplicasPut(rules, m, e, items);
    GrantsPut(rules, m, e, grants);
    ReplicasPut(rules, m[MGrants := JArray(grants)], e.(grants := grants), items);
  }

  lemma SettleParses(rules: Rules, did: Text, op: Op, m: Members, e: Entry)
    requires op.SettleRegistration? && Stands(rules, did, m, e) && SettleChange(rules, op, Some((m, e))).Body?
    ensures ParseConnectionEntry(rules, JObject(SettleChange(rules, op, Some((m, e))).members)) ==
            Some(MeantEntry(rules, e, op))
  {
    var i := ReplicaIndex(e.replicas, op.settledSpace).value;
    RegistrationWrites(rules, e.replicas[i], op.registrationId);
    ReplicasPut(rules, m, e, MeantEntry(rules, e, op).replicas);
  }

  lemma MarkersParse(rules: Rules, did: Text, op: Op, m: Members, e: Entry)
    requires (op.SetMarker? || op.ClearMarker?) && Stands(rules, did, m, e) && StampOk(rules, op)
    requires MarkersChange(rules, op, Some((m, e))).Body?
    ensures ParseConnectionEntry(rules, JObject(MarkersChange(rules, op, Some((m, e))).members)) ==
            Some(MeantEntry(rules, e, op))
  {
    var meant := MeantEntry(rules, e, op);
    if op.SetMarker? {
      MarkersKeepShape(rules, e.replicas, op.marker, op.named, op.markedAt);
    } else {
      ClearKeepsShape(rules, e.replicas, op.cleared, op.clearedIn);
    }
    ReplicasPut(rules, m, e, meant.replicas);
    var body := m[MReplicas := JArray(meant.replicas)];
    if op.SetMarker? && op.marker.Restarted? {
      DeclinedDropped(rules, body, e.(replicas := meant.replicas));
    } else {
      assert body - {} == body;
    }
  }

  lemma ClearKeepsShape(rules: Rules, items: seq<Json>, marker: Marker, named: Option<set<Text>>)
    requires AllReplicas(rules, items)
    ensures AllReplicas(rules, Cleared(items, marker, named))
  {
  }

  lemma {:induction false} KeptMember(rules: Rules, grants: seq<Json>, ids: set<Text>, g: Json)
    ensures g in KeptGrants(rules, grants, ids) <==> g in grants && GrantCapability(rules, g).id !in ids
  {
    if grants != [] {
      KeptMember(rules, grants[1..], ids, g);
      assert grants == [grants[0]] + grants[1..];
    }
  }

  lemma {:induction false} KeptAll(rules: Rules, grants: seq<Json>, ids: set<Text>)
    ensures |KeptGrants(rules, grants, ids)| <= |grants|
    ensures KeptGrants(rules, grants, ids) == grants <==> |KeptGrants(rules, grants, ids)| == |grants|
    ensures |KeptGrants(rules, grants, ids)| == |grants| <==>
            forall i :: 0 <= i < |grants| ==> GrantCapability(rules, grants[i]).id !in ids
  {
    if grants != [] {
      KeptAll(rules, grants[1..], ids);
      assert grants == [grants[0]] + grants[1..];
      assert forall i :: 0 <= i < |grants[1..]| ==> grants[1..][i] == grants[i + 1];
    }
  }

  lemma KeptOk(rules: Rules, grants: seq<Json>, ids: set<Text>)
    requires AllGrants(rules, grants)
    ensures AllGrants(rules, KeptGrants(rules, grants, ids))
  {
    var kept := KeptGrants(rules, grants, ids);
    forall i | 0 <= i < |kept| ensures IsGrantRecord(rules, kept[i]) {
      KeptMember(rules, grants, ids, kept[i]);
      assert kept[i] in grants;
    }
  }

  lemma RemoveGrantsBody(rules: Rules, did: Text, op: Op, m: Members, e: Entry)
    requires op.RemoveGrants? && ParseConnectionEntry(rules, JObject(m)) == Some(e)
    requires e.id == Some(did) && e.version == CONNECTION_ENTRY_VERSION
    ensures var kept := KeptGrants(rules, e.grants, op.removedIds);
            ChangeOf(rules, did, op, Some(m)) ==
            if |kept| == |e.grants| then Unchanged else Body(m[MGrants := JArray(kept)])
  {
  }

  /** Removing grants writes exactly when the entry holds one of the named
      capabilities, and then a body that parses, on an entry of any kind, to the
      entry without the grants of those capabilities and nothing else changed. */
  lemma RemoveGrantsParses(rules: Rules, did: Text, op: Op, m: Members, e: Entry)
    requires op.RemoveGrants? && ParseConnectionEntry(rules, JObject(m)) == Some(e)
    requires e.id == Some(did) && e.version == CONNECTION_ENTRY_VERSION
    ensures ChangeOf(rules, did, op, Some(m)).Body? <==>
            exists i :: 0 <= i < |e.grants| && GrantCapability(rules, e.grants[i]).id in op.removedIds
    ensures !ChangeOf(rules, did, op, Some(m)).Body? ==> ChangeOf(rules, did, op, Some(m)) == Unchanged
    ensures ChangeOf(rules, did, op, Some(m)).Body? ==>
              ParseConnectionEntry(rules, JObject(ChangeOf(rules, did, op, Some(m)).members)) ==
              Some(e.(grants := KeptGrants(rules, e.grants, op.removedIds)))
  {
    RemoveGrantsBody(rules, did, op, m, e);
    KeptAll(rules, e.grants, op.removedIds);
    ParsedGrantsOk(rules, m, e);
    KeptOk(rules, e.grants, op.removedIds);
    GrantsPut(rules, m, e, KeptGrants(rules, e.grants, op.removedIds));
  }

  lemma ParsedGrantsOk(rules: Rules, m: Members, e: Entry)
    requires ParseConnectionEntry(rules, JObject(m)) == Some(e)
    ensures AllGrants(rules, e.grants)
  {
  }

  /** Every body any other writer stores over a standing entry parses, and to the
      entry it meant. */
  lemma WritersParseToMeaning(rules: Rules, did: Text, op: Op, m: Members, e: Entry)
    requires !op.RecordReplicas? && Stands(rules, did, m, e) && StampOk(rules, op)
    requires ChangeOf(rules, did, op, Some(m)).Body?
    ensures ParseConnectionEntry(rules, JObject(ChangeOf(rules, did, op, Some(m)).members)) == Some(MeantEntry(rules, e, op))
  {
    match op
    case RecordReplicaGrant(_, _, _, _, _) => GrantParses(rules, did, op, m, e);
    case SettleRegistration(_, _) => SettleParses(rules, did, op, m, e);
    case RemoveReplica(space) =>
      OthersOk(rules, e.replicas, space);
      ReplicasPut(rules, m, e, Others(e.replicas, space));
    case RemoveGrants(_) => RemoveGrantsParses(rules, did, op, m, e);
    case _ => MarkersParse(rules, did, op, m, e);
  }
}
