/** What each replica writer's call, landed or found done, makes of the parsed entry,
    item by item, and exactly when it is refused. */
module ReplicaEffects {
  import opened Seqs
  import opened LabelText
  import opened Entry
  import opened Grants
  import opened Replicas
  import opened ReplicaBodies
  import opened ReplicaLife

  /** The call went through: it stored a body, or had nothing to change. */
  predicate Took(rules: Rules, did: Text, op: Op, m: Members) {
    ChangeOf(rules, did, op, Some(m)).Body? || ChangeOf(rules, did, op, Some(m)).Unchanged?
  }

  function Before(rules: Rules, m: Members): Entry
    requires Parsed(rules, Some(m)).Some?
  {
    Parsed(rules, Some(m)).value
  }

  lemma TailUnlisted(items: seq<Json>, space: Text)
    requires items != []
    ensures Listed(items[1..], space) ==> Listed(items, space)
  {
    if Listed(items[1..], space) {
      var i :| 0 <= i < |items[1..]| && FromSpace(items[1..][i]) == space;
      assert FromSpace(items[i + 1]) == space;
    }
  }

  lemma {:induction false} OthersWhenUnlisted(items: seq<Json>, space: Text)
    requires !Listed(items, space)
    ensures Others(items, space) == items
  {
    if items != [] {
      assert FromSpace(items[0]) != space;
      TailUnlisted(items, space);
      OthersWhenUnlisted(items[1..], space);
    }
  }

  lemma SettledItemIsSettled(item: Json, id: Text)
    requires item.JObject? && ItemText(item, MRegistrationId) == Some(id) && MPendingRegistrationId !in ItemMembers(item)
    ensures WithoutMember(WithMember(item, MRegistrationId, id), MPendingRegistrationId) == item
  {
    assert ItemMembers(item)[MRegistrationId := JString(id)] - {MPendingRegistrationId} == ItemMembers(item);
  }

  lemma ChangeOverStanding(rules: Rules, did: Text, op: Op, m: Members, e: Entry)
    requires Stands(rules, did, m, e)
    ensures !ChangeOf(rules, did, op, Some(m)).Absent?
    ensures ChangeOf(rules, did, op, Some(m)) ==
            match op
            case RecordReplicas(_, _, _, _, _, _) => RecordReplicasChange(rules, did, op, Some((m, e)))
            case RecordReplicaGrant(_, _, _, _, _) => RecordGrantChange(rules, did, op, Some((m, e)))
            case SettleRegistration(_, _) => SettleChange(rules, op, Some((m, e)))
            case RemoveReplica(_) => RemoveChange(rules, op, Some((m, e)))
            case RemoveGrants(_) => RemoveGrantsChange(rules, op, Some((m, e)))
            case _ => MarkersChange(rules, op, Some((m, e)))
  {
  }

  lemma SettledIsMeant(rules: Rules, op: Op, m: Members, e: Entry)
    requires op.SettleRegistration? && ItemsOk(e.replicas) && SettleChange(rules, op, Some((m, e))).Unchanged?
    ensures MeantEntry(rules, e, op) == e
  {
    SettledItemIsSettled(e.replicas[ReplicaIndex(e.replicas, op.settledSpace).value], op.registrationId);
  }

  lemma UnlistedIsMeant(rules: Rules, op: Op, m: Members, e: Entry)
    requires op.RemoveReplica? && RemoveChange(rules, op, Some((m, e))).Unchanged?
    ensures MeantEntry(rules, e, op) == e
  {
    ListedIndex(e.replicas, op.removedSpace);
    OthersWhenUnlisted(e.replicas, op.removedSpace);
  }

  lemma MarkedIsMeant(rules: Rules, op: Op, m: Members, e: Entry)
    requires (op.SetMarker? || op.ClearMarker?) && MarkersChange(rules, op, Some((m, e))).Unchanged?
    ensures MeantEntry(rules, e, op) == e
  {
  }

  lemma GrantedIsMeant(rules: Rules, did: Text, op: Op, m: Members, e: Entry)
    requires op.RecordReplicaGrant? && RecordGrantChange(rules, did, op, Some((m, e))).Unchanged?
    ensures MeantEntry(rules, e, op) == e
  {
  }

  lemma UnchangedIsMeant(rules: Rules, did: Text, op: Op, m: Members, e: Entry)
    requires !op.RecordReplicas? && Stands(rules, did, m, e) && ItemsOk(e.replicas)
    requires ChangeOf(rules, did, op, Some(m)).Unchanged?
    ensures MeantEntry(rules, e, op) == e
  {
    ChangeOverStanding(rules, did, op, m, e);
    match op
    case RecordReplicaGrant(_, _, _, _, _) => GrantedIsMeant(rules, did, op, m, e);
    case SettleRegistration(_, _) => SettledIsMeant(rules, op, m, e);
    case RemoveReplica(_) => UnlistedIsMeant(rules, op, m, e);
    case RemoveGrants(ids) => KeptAll(rules, e.grants, ids);
    case _ => MarkedIsMeant(rules, op, m, e);
  }

  /** What a writer other than `RecordReplicas` leaves is the entry it means, whether
      it stored a body or found nothing to change. */
  lemma TookIsMeant(rules: Rules, did: Text, op: Op, m: Members)
    requires !op.RecordReplicas? && StoredOk(rules, did, Some(m)) && OpOk(rules, op, Parsed(rules, Some(m)))
    requires Took(rules, did, op, m)
    ensures Parsed(rules, After(rules, did, op, Some(m))) == Some(MeantEntry(rules, Before(rules, m), op))
  {
    var e := Before(rules, m);
    if ChangeOf(rules, did, op, Some(m)).Body? {
      WritersParseToMeaning(rules, did, op, m, e);
    } else {
      UnchangedIsMeant(rules, did, op, m, e);
    }
  }

  // ---- Markers

  /** The Spaces a marker write names: those listed, or with no list all. */
  predicate Names(op: Op, space: Text)
    requires op.SetMarker? || op.ClearMarker?
  {
    var named := if op.SetMarker? then op.named else op.clearedIn;
    named.Some? ==> space in named.value
  }

  /** A marker write sets the marker, at its stamp, on exactly the items it names
      that lack it -- or takes it off exactly those it names -- and changes nothing
      else of any item, nor of the entry but that a re-start undoes a decline. */
  ghost predicate MarkersSet(op: Op, e: Entry, e': Entry)
    requires op.SetMarker? || op.ClearMarker?
  {
    && |e'.replicas| == |e.replicas|
    && e' == e.(replicas := e'.replicas, declined := if op.SetMarker? && op.marker == Restarted then None else e.declined)
    && forall i, k :: 0 <= i < |e.replicas| ==>
         Get(ItemMembers(e'.replicas[i]), k) == MarkerExpected(op, e.replicas[i], k)
  }

  /** The member of an item after the write. */
  function MarkerExpected(op: Op, item: Json, k: Member): Option<Json>
    requires op.SetMarker? || op.ClearMarker?
  {
    var was := Get(ItemMembers(item), k);
    if !Names(op, FromSpace(item)) then was
    else if op.ClearMarker? then (if k == MarkerMember(op.cleared) then None else was)
    else if k == MarkerMember(op.marker) && was.None? then Some(JString(op.markedAt)) else was
  }

  lemma MarkersMeant(rules: Rules, op: Op, e: Entry)
    requires op.SetMarker? || op.ClearMarker?
    ensures MarkersSet(op, e, MeantEntry(rules, e, op))
  {
  }

  // ---- Registrations

  /** The item of a Space, in an entry that lists it once. */
  ghost predicate ItemOf(items: seq<Json>, space: Text, i: nat) {
    i < |items| && FromSpace(items[i]) == space
  }

  lemma ItemIsIndexed(items: seq<Json>, space: Text, i: nat)
    requires ItemsOk(items) && ItemOf(items, space, i)
    ensures ReplicaIndex(items, space) == Some(i)
  {
  }

  /** A settlement registers the Space's item under the id, which was pending there or
      registered already, and leaves every other member and item. */
  ghost predicate Registered(op: Op, e: Entry, e': Entry)
    requires op.SettleRegistration?
  {
    exists i: nat :: RegisteredAt(op, e, e', i)
  }

  ghost predicate RegisteredAt(op: Op, e: Entry, e': Entry, i: nat)
    requires op.SettleRegistration?
  {
    && ItemOf(e.replicas, op.settledSpace, i) && |e'.replicas| == |e.replicas|
    && e' == e.(replicas := e.replicas[i := e'.replicas[i]])
    && (ItemText(e.replicas[i], MPendingRegistrationId) == Some(op.registrationId)
        || ItemText(e.replicas[i], MRegistrationId) == Some(op.registrationId))
    && forall k :: Get(ItemMembers(e'.replicas[i]), k) ==
         if k == MRegistrationId then Some(JString(op.registrationId))
         else if k == MPendingRegistrationId then None else Get(ItemMembers(e.replicas[i]), k)
  }

  lemma SettledMembers(item: Json, id: Text, k: Member)
    ensures Get(ItemMembers(WithoutMember(WithMember(item, MRegistrationId, id), MPendingRegistrationId)), k) ==
            if k == MRegistrationId then Some(JString(id))
            else if k == MPendingRegistrationId then None else Get(ItemMembers(item), k)
  {
  }

  lemma SettleMeant(rules: Rules, op: Op, m: Members, e: Entry)
    requires op.SettleRegistration?
    requires SettleChange(rules, op, Some((m, e))).Body? || SettleChange(rules, op, Some((m, e))).Unchanged?
    ensures Registered(op, e, MeantEntry(rules, e, op))
  {
    var i := ReplicaIndex(e.replicas, op.settledSpace).value;
    forall k ensures Get(ItemMembers(MeantEntry(rules, e, op).replicas[i]), k) ==
                     if k == MRegistrationId then Some(JString(op.registrationId))
                     else if k == MPendingRegistrationId then None else Get(ItemMembers(e.replicas[i]), k)
    {
      SettledMembers(e.replicas[i], op.registrationId, k);
    }
    assert RegisteredAt(op, e, MeantEntry(rules, e, op), i);
  }

  // ---- Grants

  /** The grant recorded anew, or as a renewal of one held: that one's kind and first
      time, and the time of the renewal. */
  ghost predicate RecordsGrant(rules: Rules, e: Entry, op: Op, g: Json)
    requires op.RecordReplicaGrant?
  {
    && GrantCapability(rules, g) == CapabilityOf(rules, Some(JObject(op.zcap)))
    && var r := MembersOf(Some(g));
       match op.renews
       case None => TextAt(r, MGrantKind) == Ascii("grant") && TextAt(r, MGrantedAt) == op.at && MRenewedAt !in r
       case Some(source) =>
         exists j :: 0 <= j < |e.grants| && RenewableBy(rules, e.grants, j, source, op) && CarriesOn(r, e.grants[j], op.at)
  }

  predicate CarriesOn(r: Members, source: Json, at: Text) {
    var held := MembersOf(Some(source));
    && TextAt(r, MGrantKind) == TextAt(held, MGrantKind) && TextAt(r, MGrantedAt) == TextAt(held, MGrantedAt)
    && Get(r, MRenewedAt) == Some(JString(at))
  }

  /** Grant `j` is the source, of the renewal's scope, the latest of that scope -- of
      those as late, the last recorded -- and outlived by it. */
  ghost predicate RenewableBy(rules: Rules, grants: seq<Json>, j: nat, source: Text, op: Op)
    requires op.RecordReplicaGrant? && j < |grants|
  {
    var c, held := CapabilityOf(rules, Some(JObject(op.zcap))), GrantCapability(rules, grants[j]);
    && held.id == source && GrantScopeKey(c) == GrantScopeKey(held) && held.expiresAt < c.expiresAt
    && forall l :: 0 <= l < |grants| && GrantScopeKey(GrantCapability(rules, grants[l])) == GrantScopeKey(held) ==>
         if j < l then GrantCapability(rules, grants[l]).expiresAt < held.expiresAt
         else GrantCapability(rules, grants[l]).expiresAt <= held.expiresAt
  }

  lemma AnewRecords(rules: Rules, e: Entry, op: Op)
    requires op.RecordReplicaGrant? && op.renews.None?
    ensures RecordOf(rules, e, op).Some? && RecordsGrant(rules, e, op, RecordOf(rules, e, op).value)
  {
    RecordCapability(rules, op.zcap, Ascii("grant"), op.at, None);
  }

  lemma SourceIsRenewable(rules: Rules, e: Entry, op: Op) returns (j: nat)
    requires op.RecordReplicaGrant? && op.renews.Some? && RecordOf(rules, e, op).Some?
    ensures j < |e.grants| && RenewableBy(rules, e.grants, j, op.renews.value, op)
    ensures GrantIndex(rules, e.grants, op.renews.value) == Some(j)
    ensures RecordOf(rules, e, op) ==
            Some(GrantRecord(op.zcap, TextAt(MembersOf(Some(e.grants[j])), MGrantKind),
                             TextAt(MembersOf(Some(e.grants[j])), MGrantedAt), Some(op.at)))
  {
    j := GrantIndex(rules, e.grants, op.renews.value).value;
  }

  lemma RecordCarriesOn(zcap: Members, source: Json, at: Text)
    ensures var held := MembersOf(Some(source));
            CarriesOn(MembersOf(Some(GrantRecord(zcap, TextAt(held, MGrantKind), TextAt(held, MGrantedAt), Some(at)))), source, at)
  {
  }

  lemma RenewalRecords(rules: Rules, e: Entry, op: Op)
    requires op.RecordReplicaGrant? && op.renews.Some? && RecordOf(rules, e, op).Some?
    ensures RecordsGrant(rules, e, op, RecordOf(rules, e, op).value)
  {
    var j := SourceIsRenewable(rules, e, op);
    var held := MembersOf(Some(e.grants[j]));
    RecordCapability(rules, op.zcap, TextAt(held, MGrantKind), TextAt(held, MGrantedAt), Some(op.at));
    RecordCarriesOn(op.zcap, e.grants[j], op.at);
  }

  ghost predicate Held(rules: Rules, e: Entry, id: Text) {
    exists j :: 0 <= j < |e.grants| && GrantCapability(rules, e.grants[j]).id == id
  }

  /** A grant taken is a GET to the party inside the Space. */
  ghost predicate IsPull(rules: Rules, did: Text, op: Op)
    requires op.RecordReplicaGrant?
  {
    var c := CapabilityOf(rules, Some(JObject(op.zcap)));
    c.controller == did && IsTargetInSpace(c.target, op.fromSpace) && NormalizedActions(c.allowedAction) == [Ascii("GET")]
  }

  /** It is held already, or recorded last with its own times; and the item of its
      Space, and nothing else, takes the pending id if there is one. */
  ghost predicate GrantTaken(rules: Rules, op: Op, e: Entry, e': Entry)
    requires op.RecordReplicaGrant?
  {
    && e' == e.(grants := e'.grants, replicas := e'.replicas)
    && (if Held(rules, e, CapabilityOf(rules, Some(JObject(op.zcap))).id) then e'.grants == e.grants
        else |e'.grants| == |e.grants| + 1 && e.grants <= e'.grants && RecordsGrant(rules, e, op, e'.grants[|e.grants|]))
    && PendingTaken(op, e.replicas, e'.replicas)
  }

  ghost predicate PendingTaken(op: Op, before: seq<Json>, after: seq<Json>)
    requires op.RecordReplicaGrant?
  {
    exists i: nat :: PendingTakenAt(op, before, after, i)
  }

  ghost predicate PendingTakenAt(op: Op, before: seq<Json>, after: seq<Json>, i: nat)
    requires op.RecordReplicaGrant?
  {
    && ItemOf(before, op.fromSpace, i) && |after| == |before| && after == before[i := after[i]]
    && forall k :: Get(ItemMembers(after[i]), k) ==
         if k == MPendingRegistrationId && op.pending.Some? then Some(JString(op.pending.value))
         else Get(ItemMembers(before[i]), k)
  }

  lemma PendingMember(op: Op, item: Json)
    requires op.RecordReplicaGrant?
    ensures op.pending.Some? ==>
              forall k :: Get(ItemMembers(WithMember(item, MPendingRegistrationId, op.pending.value)), k) ==
                if k == MPendingRegistrationId then Some(JString(op.pending.value)) else Get(ItemMembers(item), k)
    ensures op.pending.Some? && ItemText(item, MPendingRegistrationId) == op.pending ==>
              Get(ItemMembers(item), MPendingRegistrationId) == Some(JString(op.pending.value))
  {
  }

  lemma PendingMeant(rules: Rules, op: Op, e: Entry)
    requires op.RecordReplicaGrant? && ReplicaIndex(e.replicas, op.fromSpace).Some?
    ensures PendingTaken(op, e.replicas, MeantEntry(rules, e, op).replicas)
  {
    var i := ReplicaIndex(e.replicas, op.fromSpace).value;
    PendingMember(op, e.replicas[i]);
    assert PendingTakenAt(op, e.replicas, MeantEntry(rules, e, op).replicas, i);
  }

  lemma HeldIff(rules: Rules, e: Entry, id: Text)
    ensures Held(rules, e, id) <==> GrantIndex(rules, e.grants, id).Some?
  {
  }

  lemma RecordMeant(rules: Rules, op: Op, e: Entry)
    requires op.RecordReplicaGrant? && RecordOf(rules, e, op).Some?
    ensures RecordsGrant(rules, e, op, RecordOf(rules, e, op).value)
  {
    if op.renews.None? { AnewRecords(rules, e, op); } else { RenewalRecords(rules, e, op); }
  }

  lemma GrantMeant(rules: Rules, did: Text, op: Op, m: Members, e: Entry)
    requires op.RecordReplicaGrant?
    requires var change := RecordGrantChange(rules, did, op, Some((m, e))); change.Body? || change.Unchanged?
    ensures IsPull(rules, did, op) && GrantTaken(rules, op, e, MeantEntry(rules, e, op))
  {
    HeldIff(rules, e, CapabilityOf(rules, Some(JObject(op.zcap))).id);
    PendingMeant(rules, op, e);
    RecordMeant(rules, op, e);
  }

  // ---- Listing and unlisting

  /** A bare item -- source Space and replica id -- for each replica handed in. */
  function BareItems(incoming: seq<(Text, Text)>): (r: seq<Json>)
    ensures |r| == |incoming|
    ensures forall n :: 0 <= n < |r| ==>
              r[n] == JObject(map[MFromSpace := JString(incoming[n].0), MSpaceId := JString(incoming[n].1)])
  {
    seq(|incoming|, n requires 0 <= n < |incoming| =>
          JObject(map[MFromSpace := JString(incoming[n].0), MSpaceId := JString(incoming[n].1)]))
  }

  lemma {:induction false} NewItemsInOrder(incoming: seq<(Text, Text)>, held: seq<Json>) returns (at: seq<nat>)
    ensures Keeps(BareItems(incoming), NewItems(incoming, held), at)
    ensures forall n: nat :: n in at <==> n < |incoming| && !Listed(held, incoming[n].0)
  {
    if incoming == [] {
      at := [];
    } else {
      var tail := incoming[1..];
      var rest := NewItemsInOrder(tail, held);
      ListedIndex(held, incoming[0].0);
      var keep := !Listed(held, incoming[0].0);
      at := Onward(keep, rest);
      assert BareItems(incoming) == [NewItem(incoming[0])] + BareItems(tail);
      KeepsOnward(NewItem(incoming[0]), BareItems(tail), NewItems(tail, held), keep, rest);
      forall n: nat ensures n in at <==> n < |incoming| && !Listed(held, incoming[n].0) { OnwardMember(keep, rest, n); }
    }
  }

  /** The items after a recording: those that stood, as they were, then a bare item for
      every incoming Space not listed, in the order handed in, and no other. */
  ghost predicate Recorded(op: Op, e: Entry, e': Entry)
    requires op.RecordReplicas?
  {
    && e' == e.(url := Some(op.url), lastSeen := op.stamp, retired := None, declined := None, replicas := e'.replicas,
                name := if Normalized(op.name).Some? then Normalized(op.name) else e.name,
                seed := if e.seed.Some? then e.seed else op.seed, seedTag := if e.seed.Some? then e.seedTag else op.seedTag)
    && e.replicas <= e'.replicas
    && exists at :: NewlyListed(op, e.replicas, e'.replicas[|e.replicas|..], at)
  }

  ghost predicate NewlyListed(op: Op, held: seq<Json>, added: seq<Json>, at: seq<nat>)
    requires op.RecordReplicas?
  {
    && Keeps(BareItems(op.incoming), added, at)
    && forall n: nat :: n in at <==> n < |op.incoming| && !Listed(held, op.incoming[n].0)
  }

  lemma RecordedMeant(op: Op, e: Entry)
    requires op.RecordReplicas? && (op.seed.Some? == op.seedTag.Some?) && (e.seed.Some? == e.seedTag.Some?)
    ensures Recorded(op, e, RecordedEntry(e, op))
  {
    var at := NewItemsInOrder(op.incoming, e.replicas);
    assert RecordedEntry(e, op).replicas[|e.replicas|..] == NewItems(op.incoming, e.replicas);
    assert NewlyListed(op, e.replicas, NewItems(op.incoming, e.replicas), at);
  }

  lemma {:induction false} OthersInOrder(items: seq<Json>, space: Text) returns (at: seq<nat>)
    ensures Keeps(items, Others(items, space), at)
    ensures forall i: nat :: i in at <==> i < |items| && FromSpace(items[i]) != space
  {
    if items == [] {
      at := [];
    } else {
      var rest := OthersInOrder(items[1..], space);
      var keep := FromSpace(items[0]) != space;
      at := Onward(keep, rest);
      assert items == [items[0]] + items[1..];
      KeepsOnward(items[0], items[1..], Others(items[1..], space), keep, rest);
      forall i: nat ensures i in at <==> i < |items| && FromSpace(items[i]) != space { OnwardMember(keep, rest, i); }
    }
  }

  lemma {:induction false} KeptInOrder(rules: Rules, grants: seq<Json>, ids: set<Text>) returns (at: seq<nat>)
    ensures Keeps(grants, KeptGrants(rules, grants, ids), at)
    ensures forall i: nat :: i in at <==> i < |grants| && GrantCapability(rules, grants[i]).id !in ids
  {
    if grants == [] {
      at := [];
    } else {
      var rest := KeptInOrder(rules, grants[1..], ids);
      var keep := GrantCapability(rules, grants[0]).id !in ids;
      at := Onward(keep, rest);
      assert grants == [grants[0]] + grants[1..];
      KeepsOnward(grants[0], grants[1..], KeptGrants(rules, grants[1..], ids), keep, rest);
      forall i: nat ensures i in at <==> i < |grants| && GrantCapability(rules, grants[i]).id !in ids {
        OnwardMember(keep, rest, i);
      }
    }
  }

  /** After a removal the items of every other Space stand, as they were, in order, and
      no other. */
  ghost predicate Unlisted(op: Op, e: Entry, e': Entry)
    requires op.RemoveReplica?
  {
    e' == e.(replicas := e'.replicas) && exists at :: UnlistedAt(op, e, e', at)
  }

  ghost predicate UnlistedAt(op: Op, e: Entry, e': Entry, at: seq<nat>)
    requires op.RemoveReplica?
  {
    && Keeps(e.replicas, e'.replicas, at)
    && forall i: nat :: i in at <==> i < |e.replicas| && FromSpace(e.replicas[i]) != op.removedSpace
  }

  lemma UnlistMeant(rules: Rules, op: Op, e: Entry)
    requires op.RemoveReplica?
    ensures Unlisted(op, e, MeantEntry(rules, e, op))
  {
    var at := OthersInOrder(e.replicas, op.removedSpace);
    assert UnlistedAt(op, e, MeantEntry(rules, e, op), at);
  }

  /** After the removal of grants every other grant stands, in order, and no other. */
  ghost predicate Ungranted(rules: Rules, op: Op, e: Entry, e': Entry)
    requires op.RemoveGrants?
  {
    e' == e.(grants := e'.grants) && exists at :: UngrantedAt(rules, op, e, e', at)
  }

  ghost predicate UngrantedAt(rules: Rules, op: Op, e: Entry, e': Entry, at: seq<nat>)
    requires op.RemoveGrants?
  {
    && Keeps(e.grants, e'.grants, at)
    && forall i: nat :: i in at <==> i < |e.grants| && GrantCapability(rules, e.grants[i]).id !in op.removedIds
  }

  lemma UngrantMeant(rules: Rules, op: Op, e: Entry)
    requires op.RemoveGrants?
    ensures Ungranted(rules, op, e, MeantEntry(rules, e, op))
  {
    var at := KeptInOrder(rules, e.grants, op.removedIds);
    assert UngrantedAt(rules, op, e, MeantEntry(rules, e, op), at);
  }

  // ---- Every writer

  ghost predicate Effect(rules: Rules, did: Text, op: Op, e: Entry, e': Entry) {
    match op
    case RecordReplicas(_, _, _, _, _, _) => Recorded(op, e, e')
    case RecordReplicaGrant(_, _, _, _, _) => IsPull(rules, did, op) && GrantTaken(rules, op, e, e')
    case SettleRegistration(_, _) => Registered(op, e, e')
    case RemoveReplica(_) => Unlisted(op, e, e')
    case RemoveGrants(_) => Ungranted(rules, op, e, e')
    case _ => MarkersSet(op, e, e')
  }

  lemma MeantHasEffect(rules: Rules, did: Text, op: Op, m: Members, e: Entry)
    requires !op.RecordReplicas? && Stands(rules, did, m, e)
    requires ChangeOf(rules, did, op, Some(m)).Body? || ChangeOf(rules, did, op, Some(m)).Unchanged?
    ensures Effect(rules, did, op, e, MeantEntry(rules, e, op))
  {
    match op
    case RecordReplicaGrant(_, _, _, _, _) => GrantMeant(rules, did, op, m, e);
    case SettleRegistration(_, _) => SettleMeant(rules, op, m, e);
    case RemoveReplica(_) => UnlistMeant(rules, op, e);
    case RemoveGrants(_) => UngrantMeant(rules, op, e);
    case _ => MarkersMeant(rules, op, e);
  }

  lemma RecordHasEffect(rules: Rules, did: Text, op: Op, m: Members)
    requires op.RecordReplicas? && StoredOk(rules, did, Some(m)) && OpOk(rules, op, Parsed(rules, Some(m)))
    requires ChangeOf(rules, did, op, Some(m)).Body?
    ensures Parsed(rules, After(rules, did, op, Some(m))).Some?
    ensures Recorded(op, Before(rules, m), Parsed(rules, After(rules, did, op, Some(m))).value)
  {
    RecordParsesIff(rules, did, op, m, Before(rules, m));
    RecordedMeant(op, Before(rules, m));
  }

  /** Over a standing entry, a call that goes through has its effect on the parsed
      entry -- no more, and no less when it found nothing to change. */
  lemma TookHasEffect(rules: Rules, did: Text, op: Op, m: Members)
    requires StoredOk(rules, did, Some(m)) && OpOk(rules, op, Parsed(rules, Some(m))) && Took(rules, did, op, m)
    ensures Parsed(rules, After(rules, did, op, Some(m))).Some?
    ensures Effect(rules, did, op, Before(rules, m), Parsed(rules, After(rules, did, op, Some(m))).value)
  {
    if op.RecordReplicas? {
      RecordHasEffect(rules, did, op, m);
    } else {
      TookIsMeant(rules, did, op, m);
      MeantHasEffect(rules, did, op, m, Before(rules, m));
    }
  }

  // ---- Refusals

  ghost predicate PendingAs(items: seq<Json>, space: Text, id: Text) {
    exists i :: 0 <= i < |items| && FromSpace(items[i]) == space && ItemText(items[i], MPendingRegistrationId) == Some(id)
  }

  ghost predicate RegisteredOnly(items: seq<Json>, space: Text, id: Text) {
    exists i :: 0 <= i < |items| && FromSpace(items[i]) == space && ItemText(items[i], MRegistrationId) == Some(id)
  }

  /** Its Space is listed with neither an id settled nor another pending. */
  ghost predicate Registrable(items: seq<Json>, space: Text, id: Text) {
    exists i :: 0 <= i < |items| && FromSpace(items[i]) == space && !Has(items[i], MRegistrationId)
      && (Has(items[i], MPendingRegistrationId) ==> ItemText(items[i], MPendingRegistrationId) == Some(id))
  }

  ghost predicate MarkedLostIn(items: seq<Json>, space: Text) {
    exists i :: 0 <= i < |items| && FromSpace(items[i]) == space && MLostAt in ItemMembers(items[i])
  }

  /** Every replica handed in names a Space by its URL and carries a decodable id; no
      Space twice. */
  predicate SoundReplicas(rules: Rules, incoming: seq<(Text, Text)>) {
    && (forall n :: 0 <= n < |incoming| ==>
          IsSpaceUrl(rules, incoming[n].0) && IsSeed(rules, Some(JString(incoming[n].1))))
    && (forall n, l :: 0 <= n < l < |incoming| ==> incoming[n].0 != incoming[l].0)
  }

  /** The first grant of the renewed capability's id is the renewal's source. */
  ghost predicate Renewable(rules: Rules, grants: seq<Json>, op: Op)
    requires op.RecordReplicaGrant? && op.renews.Some?
  {
    exists j: nat :: RenewableAt(rules, grants, j, op)
  }

  ghost predicate RenewableAt(rules: Rules, grants: seq<Json>, j: nat, op: Op)
    requires op.RecordReplicaGrant? && op.renews.Some?
  {
    && j < |grants| && RenewableBy(rules, grants, j, op.renews.value, op)
    && forall l :: 0 <= l < j ==> GrantCapability(rules, grants[l]).id != op.renews.value
  }

  lemma {:induction false} FirstIsIndexed(rules: Rules, grants: seq<Json>, id: Text, j: nat)
    requires j < |grants| && GrantCapability(rules, grants[j]).id == id
    requires forall l :: 0 <= l < j ==> GrantCapability(rules, grants[l]).id != id
    ensures GrantIndex(rules, grants, id) == Some(j)
  {
    if j > 0 {
      assert GrantCapability(rules, grants[0]).id != id;
      assert forall l :: 1 <= l < |grants| ==> grants[l] == grants[1..][l - 1];
      FirstIsIndexed(rules, grants[1..], id, j - 1);
    }
  }

  lemma {:induction false} IndexIsFirst(rules: Rules, grants: seq<Json>, id: Text)
    ensures var at := GrantIndex(rules, grants, id);
            at.Some? ==> forall l :: 0 <= l < at.value ==> GrantCapability(rules, grants[l]).id != id
  {
    if grants != [] && GrantCapability(rules, grants[0]).id != id {
      IndexIsFirst(rules, grants[1..], id);
      assert forall l :: 1 <= l < |grants| ==> grants[l] == grants[1..][l - 1];
    }
  }

  lemma RenewableIsRecorded(rules: Rules, e: Entry, op: Op, j: nat)
    requires op.RecordReplicaGrant? && op.renews.Some? && RenewableAt(rules, e.grants, j, op)
    ensures RecordOf(rules, e, op).Some?
  {
    FirstIsIndexed(rules, e.grants, op.renews.value, j);
    assert LatestOfScope(rules, e.grants, j);
  }

  lemma RenewableIff(rules: Rules, e: Entry, op: Op)
    requires op.RecordReplicaGrant? && op.renews.Some?
    ensures Renewable(rules, e.grants, op) <==> RecordOf(rules, e, op).Some?
  {
    if RecordOf(rules, e, op).Some? {
      var j := SourceIsRenewable(rules, e, op);
      IndexIsFirst(rules, e.grants, op.renews.value);
      assert RenewableAt(rules, e.grants, j, op);
    }
    if Renewable(rules, e.grants, op) {
      var j: nat :| RenewableAt(rules, e.grants, j, op);
      RenewableIsRecorded(rules, e, op, j);
    }
  }

  /** A pull grant that pends a registration or renews one, if either, not both. */
  ghost predicate SoundGrant(rules: Rules, did: Text, op: Op)
    requires op.RecordReplicaGrant?
  {
    && !(op.pending.Some? && op.renews.Some?) && IsSpaceUrl(rules, op.fromSpace)
    && IsZcap(rules, Some(JObject(op.zcap))) && IsPull(rules, did, op) && IsOptionalSeed(rules, JsonText(op.pending))
  }

  /** The entry is not retired and lists the Space, free to take the pending id; what
      is renewed is renewable. */
  ghost predicate TakesGrant(rules: Rules, op: Op, e: Entry)
    requires op.RecordReplicaGrant?
  {
    && e.retired.None? && Listed(e.replicas, op.fromSpace)
    && (op.renews.Some? ==> Renewable(rules, e.grants, op))
    && (op.pending.Some? ==> Registrable(e.replicas, op.fromSpace, op.pending.value))
  }

  /** What each writer demands of its arguments and of the standing entry. */
  ghost predicate Demands(rules: Rules, did: Text, op: Op, e: Entry) {
    match op
    case RecordReplicas(_, incoming, _, seed, seedTag, _) =>
      && seed.Some? == seedTag.Some? && SoundReplicas(rules, incoming) && (seed.Some? && e.seed.Some? ==> e.seed == seed)
      && forall n :: 0 <= n < |incoming| ==> !MarkedLostIn(e.replicas, incoming[n].0)
    case RecordReplicaGrant(_, _, _, _, _) => SoundGrant(rules, did, op) && TakesGrant(rules, op, e)
    case SettleRegistration(space, id) =>
      && IsSpaceUrl(rules, space) && IsSeed(rules, Some(JString(id)))
      && (PendingAs(e.replicas, space, id) || RegisteredOnly(e.replicas, space, id))
    case SetMarker(_, named, _) => named.Some? ==> forall space :: space in named.value ==> Listed(e.replicas, space)
    case ClearMarker(_, named) => named.Some? ==> forall space :: space in named.value ==> Listed(e.replicas, space)
    case RemoveReplica(space) =>
      && IsSpaceUrl(rules, space)
      && (Listed(e.replicas, space) ==> forall g :: g in e.grants ==> !IsTargetInSpace(TargetOf(rules, g), space))
    case RemoveGrants(_) => true
  }

  lemma LostIsMarked(items: seq<Json>, incoming: seq<(Text, Text)>)
    ensures NamesLost(incoming, items) <==> exists n :: 0 <= n < |incoming| && MarkedLostIn(items, incoming[n].0)
  {
  }

  lemma ItemAt(items: seq<Json>, space: Text) returns (i: nat)
    requires ItemsOk(items) && Listed(items, space)
    ensures ItemOf(items, space, i) && ReplicaIndex(items, space) == Some(i)
  {
    i :| i < |items| && FromSpace(items[i]) == space;
    ItemIsIndexed(items, space, i);
  }

  lemma SettleTakenIff(rules: Rules, did: Text, op: Op, m: Members, e: Entry)
    requires op.SettleRegistration? && Stands(rules, did, m, e) && EntryOk(rules, did, e)
    ensures SettleChange(rules, op, Some((m, e))).Refuse? <==> !Demands(rules, did, op, e)
  {
    ListedIndex(e.replicas, op.settledSpace);
    if Listed(e.replicas, op.settledSpace) {
      var i := ItemAt(e.replicas, op.settledSpace);
      assert !(Has(e.replicas[i], MRegistrationId) && Has(e.replicas[i], MPendingRegistrationId));
    }
  }

  lemma UnsoundGrant(rules: Rules, did: Text, op: Op, m: Members, e: Entry)
    requires op.RecordReplicaGrant? && !SoundGrant(rules, did, op)
    ensures RecordGrantChange(rules, did, op, Some((m, e))).Refuse?
  {
  }

  lemma RegistrableIff(op: Op, items: seq<Json>, i: nat)
    requires op.RecordReplicaGrant? && op.pending.Some? && ItemsOk(items) && ItemOf(items, op.fromSpace, i)
    ensures Registrable(items, op.fromSpace, op.pending.value) <==>
            && MRegistrationId !in ItemMembers(items[i])
            && (MPendingRegistrationId in ItemMembers(items[i]) ==> ItemText(items[i], MPendingRegistrationId) == op.pending)
  {
    forall j | 0 <= j < |items| && FromSpace(items[j]) == op.fromSpace ensures j == i {
      ItemIsIndexed(items, op.fromSpace, j);
      ItemIsIndexed(items, op.fromSpace, i);
    }
  }

  lemma SoundGrantTakenIff(rules: Rules, did: Text, op: Op, m: Members, e: Entry)
    requires op.RecordReplicaGrant? && e.kind == REPLICA_SERVER_KIND && ItemsOk(e.replicas) && SoundGrant(rules, did, op)
    ensures RecordGrantChange(rules, did, op, Some((m, e))).Refuse? <==> !TakesGrant(rules, op, e)
  {
    ListedIndex(e.replicas, op.fromSpace);
    if op.renews.Some? { RenewableIff(rules, e, op); }
    if Listed(e.replicas, op.fromSpace) {
      var i := ItemAt(e.replicas, op.fromSpace);
      if op.pending.Some? { RegistrableIff(op, e.replicas, i); }
    }
  }

  lemma GrantTakenIff(rules: Rules, did: Text, op: Op, m: Members, e: Entry)
    requires op.RecordReplicaGrant? && Stands(rules, did, m, e) && EntryOk(rules, did, e)
    ensures RecordGrantChange(rules, did, op, Some((m, e))).Refuse? <==> !Demands(rules, did, op, e)
  {
    if SoundGrant(rules, did, op) { SoundGrantTakenIff(rules, did, op, m, e); } else { UnsoundGrant(rules, did, op, m, e); }
  }

  lemma RemoveTakenIff(rules: Rules, did: Text, op: Op, m: Members, e: Entry)
    requires op.RemoveReplica? && Stands(rules, did, m, e)
    ensures RemoveChange(rules, op, Some((m, e))).Refuse? <==> !Demands(rules, did, op, e)
  {
    ListedIndex(e.replicas, op.removedSpace);
    assert forall i :: 0 <= i < |e.grants| ==> e.grants[i] in e.grants;
  }

  lemma MarkersTakenIff(rules: Rules, did: Text, op: Op, m: Members, e: Entry)
    requires (op.SetMarker? || op.ClearMarker?) && Stands(rules, did, m, e)
    ensures MarkersChange(rules, op, Some((m, e))).Refuse? <==> !Demands(rules, did, op, e)
  {
    forall space ensures Listed(e.replicas, space) <==> ReplicaIndex(e.replicas, space).Some? { ListedIndex(e.replicas, space); }
  }

  lemma RecordTakenIff(rules: Rules, did: Text, op: Op, m: Members, e: Entry)
    requires op.RecordReplicas? && Stands(rules, did, m, e)
    ensures RecordReplicasChange(rules, did, op, Some((m, e))).Refuse? <==> !Demands(rules, did, op, e)
    ensures !RecordReplicasChange(rules, did, op, Some((m, e))).Absent?
  {
    LostIsMarked(e.replicas, op.incoming);
  }

  /** Over a standing entry a writer goes through exactly when its demands are met. */
  lemma TookIff(rules: Rules, did: Text, op: Op, m: Members)
    requires StoredOk(rules, did, Some(m))
    ensures Took(rules, did, op, m) <==> Demands(rules, did, op, Before(rules, m))
  {
    var e := Before(rules, m);
    ChangeOverStanding(rules, did, op, m, e);
    match op
    case RecordReplicas(_, _, _, _, _, _) => RecordTakenIff(rules, did, op, m, e);
    case RecordReplicaGrant(_, _, _, _, _) => GrantTakenIff(rules, did, op, m, e);
    case SettleRegistration(_, _) => SettleTakenIff(rules, did, op, m, e);
    case RemoveReplica(_) => RemoveTakenIff(rules, did, op, m, e);
    case RemoveGrants(_) =>
    case _ => MarkersTakenIff(rules, did, op, m, e);
  }

  /** In any run, over a standing entry, a writer whose demands are met has its whole
      effect, and any other leaves the resource as it stood. */
  lemma EveryWriteHasEffect(rules: Rules, did: Text, states: seq<Option<Members>>, ops: seq<Op>, n: nat)
    requires Execution(rules, did, states, ops) && n < |ops| && states[n].Some?
    ensures Parsed(rules, states[n]).Some? && Parsed(rules, states[n + 1]).Some?
    ensures var e, e' := Parsed(rules, states[n]).value, Parsed(rules, states[n + 1]).value;
            if Demands(rules, did, ops[n], e) then Effect(rules, did, ops[n], e, e') else states[n + 1] == states[n]
  {
    EveryStateOk(rules, did, states, ops, n);
    TookIff(rules, did, ops[n], states[n].value);
    if Took(rules, did, ops[n], states[n].value) { TookHasEffect(rules, did, ops[n], states[n].value); }
  }

  // ---- Each capability is recorded once

  ghost predicate RecordedOnce(rules: Rules, grants: seq<Json>) {
    forall i, j :: 0 <= i < j < |grants| ==> GrantCapability(rules, grants[i]).id != GrantCapability(rules, grants[j]).id
  }

  lemma OnceKept(rules: Rules, before: seq<Json>, after: seq<Json>, at: seq<nat>)
    requires RecordedOnce(rules, before) && Keeps(before, after, at)
    ensures RecordedOnce(rules, after)
  {
  }

  lemma OnceAppended(rules: Rules, before: seq<Json>, g: Json)
    requires RecordedOnce(rules, before)
    requires forall j :: 0 <= j < |before| ==> GrantCapability(rules, before[j]).id != GrantCapability(rules, g).id
    ensures RecordedOnce(rules, before + [g])
  {
  }

  lemma OnceAfterGrant(rules: Rules, op: Op, e: Entry, e': Entry)
    requires op.RecordReplicaGrant? && GrantTaken(rules, op, e, e') && RecordedOnce(rules, e.grants)
    ensures RecordedOnce(rules, e'.grants)
  {
    if e'.grants != e.grants {
      OnceAppended(rules, e.grants, e'.grants[|e.grants|]);
      assert e'.grants == e.grants + [e'.grants[|e.grants|]];
    }
  }

  lemma OnceAfter(rules: Rules, did: Text, op: Op, e: Entry, e': Entry)
    requires Effect(rules, did, op, e, e') && RecordedOnce(rules, e.grants)
    ensures RecordedOnce(rules, e'.grants)
  {
    match op
    case RecordReplicaGrant(_, _, _, _, _) => OnceAfterGrant(rules, op, e, e');
    case SettleRegistration(_, _) =>
      var i: nat :| RegisteredAt(op, e, e', i);
    case RemoveGrants(_) =>
      var at :| UngrantedAt(rules, op, e, e', at);
      OnceKept(rules, e.grants, e'.grants, at);
    case _ =>
  }

  ghost predicate OnceIn(rules: Rules, stored: Option<Members>) {
    Parsed(rules, stored).Some? ==> RecordedOnce(rules, Parsed(rules, stored).value.grants)
  }

  lemma OnceCreated(rules: Rules, did: Text, states: seq<Option<Members>>, ops: seq<Op>, n: nat)
    requires Execution(rules, did, states, ops) && n < |ops| && states[n].None?
    ensures OnceIn(rules, states[n + 1])
  {
    var op := ops[n];
    if ChangeOf(rules, did, op, None).Body? {
      CreatesIff(rules, did, op);
      CreateParsesIff(rules, did, op);
      assert Parsed(rules, states[n + 1]).Some? ==> Parsed(rules, states[n + 1]).value.grants == [];
    }
  }

  lemma OnceStep(rules: Rules, did: Text, states: seq<Option<Members>>, ops: seq<Op>, n: nat)
    requires Execution(rules, did, states, ops) && n < |ops| && states[n].Some? && OnceIn(rules, states[n])
    ensures OnceIn(rules, states[n + 1])
  {
    EveryWriteHasEffect(rules, did, states, ops, n);
    var e, e' := Parsed(rules, states[n]).value, Parsed(rules, states[n + 1]).value;
    if Demands(rules, did, ops[n], e) { OnceAfter(rules, did, ops[n], e, e'); }
  }

  lemma OnceNext(rules: Rules, did: Text, states: seq<Option<Members>>, ops: seq<Op>, n: nat)
    requires Execution(rules, did, states, ops) && n < |ops| && OnceIn(rules, states[n])
    ensures OnceIn(rules, states[n + 1])
  {
    if states[n].Some? { OnceStep(rules, did, states, ops, n); } else { OnceCreated(rules, did, states, ops, n); }
  }

  lemma OnceAtFirst(rules: Rules, did: Text, states: seq<Option<Members>>, ops: seq<Op>)
    requires Execution(rules, did, states, ops)
    ensures OnceIn(rules, states[0])
  {
  }

  /** However writers interleave, no capability is recorded twice in any state reached. */
  lemma {:induction false} EveryGrantIsRecordedOnce(rules: Rules, did: Text, states: seq<Option<Members>>, ops: seq<Op>, n: nat)
    requires Execution(rules, did, states, ops) && n < |states|
    ensures OnceIn(rules, states[n])
  {
    if n == 0 {
      OnceAtFirst(rules, did, states, ops);
    } else {
      EveryGrantIsRecordedOnce(rules, did, states, ops, n - 1);
      OnceNext(rules, did, states, ops, n - 1);
    }
  }

  /** A stored body is refused as it stands, whatever the call, exactly when it does
      not parse, sits under another party's resource, or is of another version. */
  lemma UnwritableIff(rules: Rules, did: Text, op: Op, m: Members)
    ensures ChangeOf(rules, did, op, Some(m)) == Refuse(Unwritable) <==>
            var parsed := Parsed(rules, Some(m));
            parsed.None? || parsed.value.id != Some(did) || parsed.value.version != CONNECTION_ENTRY_VERSION
  {
  }

  lemma LostMarks(op: Op, e: Entry, e': Entry, i: nat)
    requires op.SetMarker? && op.marker == Lost && MarkersSet(op, e, e')
    requires i < |e.replicas| && Names(op, FromSpace(e.replicas[i]))
    ensures MarkedLostIn(e'.replicas, FromSpace(e.replicas[i]))
  {
    var a, b := e.replicas[i], e'.replicas[i];
    assert Get(ItemMembers(b), MFromSpace) == MarkerExpected(op, a, MFromSpace);
    assert Get(ItemMembers(b), MLostAt) == MarkerExpected(op, a, MLostAt);
    SameSpace(a, b);
  }

  lemma SameSpace(a: Json, b: Json)
    requires Get(ItemMembers(b), MFromSpace) == Get(ItemMembers(a), MFromSpace)
    ensures FromSpace(b) == FromSpace(a)
  {
  }

  lemma LostDemands(rules: Rules, did: Text, incoming: Op, e: Entry, n: nat)
    requires incoming.RecordReplicas? && n < |incoming.incoming| && MarkedLostIn(e.replicas, incoming.incoming[n].0)
    ensures !Demands(rules, did, incoming, e)
  {
  }

  /** A replica marked lost is not listed again: a recording that names its Space is
      refused, until the marker is cleared. */
  lemma LostIsNotRelisted(rules: Rules, did: Text, m: Members, op: Op, incoming: Op, i: nat, n: nat)
    requires op.SetMarker? && op.marker == Lost && StoredOk(rules, did, Some(m)) && OpOk(rules, op, Parsed(rules, Some(m)))
    requires Took(rules, did, op, m) && i < |Before(rules, m).replicas| && Names(op, FromSpace(Before(rules, m).replicas[i]))
    requires incoming.RecordReplicas? && n < |incoming.incoming|
    requires incoming.incoming[n].0 == FromSpace(Before(rules, m).replicas[i])
    ensures After(rules, did, op, Some(m)).Some? && !Took(rules, did, incoming, After(rules, did, op, Some(m)).value)
  {
    TookHasEffect(rules, did, op, m);
    WriteSteps(rules, did, op, m);
    var m' := After(rules, did, op, Some(m)).value;
    LostMarks(op, Before(rules, m), Before(rules, m'), i);
    LostDemands(rules, did, incoming, Before(rules, m'), n);
    TookIff(rules, did, incoming, m');
  }

  lemma {:induction false} AllNew(incoming: seq<(Text, Text)>)
    ensures NewItems(incoming, []) == BareItems(incoming)
  {
    if incoming != [] {
      AllNew(incoming[1..]);
      assert BareItems(incoming) == [NewItem(incoming[0])] + BareItems(incoming[1..]);
    }
  }

  /** Over an absent entry only a recording with sound arguments stores anything; it
      lists exactly what it is handed, in its order. */
  lemma CreatesIff(rules: Rules, did: Text, op: Op)
    ensures ChangeOf(rules, did, op, None).Body? <==>
            op.RecordReplicas? && op.seed.Some? == op.seedTag.Some? && SoundReplicas(rules, op.incoming)
    ensures op.RecordReplicas? ==> CreatedEntry(did, op).replicas == BareItems(op.incoming)
  {
    if op.RecordReplicas? {
      AllNew(op.incoming);
    }
  }
}
