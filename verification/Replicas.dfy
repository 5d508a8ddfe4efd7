/** The writers of a replica server's directory entry: replica items, their
    registrations and markers, and the pull grants recorded for them. */
module Replicas {
  import opened Seqs
  import opened LabelText
  import opened Entry
  import opened Grants

  type Members = map<Member, Json>

  datatype Marker = Stopped | Restarted | Lost

  function MarkerMember(marker: Marker): Member {
    match marker
    case Stopped => MStoppedAt
    case Restarted => MRestartedAt
    case Lost => MLostAt
  }

  /** One writer's call; `stamp` is its clock as ISO text. */
  datatype Op =
    | RecordReplicas(url: Text, incoming: seq<(Text, Text)>, name: Option<Text>, seed: Option<Text>, seedTag: Option<Text>,
                     stamp: Text)
    | RecordReplicaGrant(fromSpace: Text, zcap: Members, pending: Option<Text>, renews: Option<Text>, at: Text)
    | SettleRegistration(settledSpace: Text, registrationId: Text)
    | SetMarker(marker: Marker, named: Option<set<Text>>, markedAt: Text)
    | ClearMarker(cleared: Marker, clearedIn: Option<set<Text>>)
    | RemoveReplica(removedSpace: Text)
    | RemoveGrants(removedIds: set<Text>)

  datatype Refusal =
    | SeedWithoutTag | BadReplica | Unwritable | WrongKind | SeedDiffers | MarkedLost | BothPendingAndRenews | BadGrant
    | Retired | NoSuchReplica | AlreadyRegistered | OtherPending | BadRenewal | NothingPending | GrantsStanding

  datatype Change = Body(members: Members) | Absent | Unchanged | Refuse(why: Refusal)

  // ---- Items

  function ItemMembers(item: Json): Members { MembersOf(Some(item)) }

  function ItemText(item: Json, k: Member): Option<Text> {
    TextOf(Get(ItemMembers(item), k))
  }

  function WithMember(item: Json, k: Member, v: Text): Json {
    JObject(ItemMembers(item)[k := JString(v)])
  }

  function WithoutMember(item: Json, k: Member): Json {
    JObject(ItemMembers(item) - {k})
  }

  /** The index of the item of a source Space. */
  function ReplicaIndex(items: seq<Json>, space: Text): (r: Option<nat>)
    ensures r.Some? ==> r.value < |items| && FromSpace(items[r.value]) == space
    ensures r.None? ==> forall i :: 0 <= i < |items| ==> FromSpace(items[i]) != space
  {
    if items == [] then None
    else if FromSpace(items[0]) == space then Some(0)
    else
      var rest := ReplicaIndex(items[1..], space);
      if rest.None? then None else Some(rest.value + 1)
  }

  function NewItem(replica: (Text, Text)): Json {
    JObject(map[MFromSpace := JString(replica.0), MSpaceId := JString(replica.1)])
  }

  /** The incoming items whose source Space no item held yet names. */
  function NewItems(incoming: seq<(Text, Text)>, held: seq<Json>): seq<Json> {
    if incoming == [] then []
    else (if ReplicaIndex(held, incoming[0].0).None? then [NewItem(incoming[0])] else []) + NewItems(incoming[1..], held)
  }

  predicate IncomingOk(rules: Rules, incoming: seq<(Text, Text)>) {
    && (forall i :: 0 <= i < |incoming| ==>
          IsSpaceUrl(rules, incoming[i].0) && IsSeed(rules, Some(JString(incoming[i].1))))
    && (forall i, j :: 0 <= i < j < |incoming| ==> incoming[i].0 != incoming[j].0)
  }

  predicate NamesLost(incoming: seq<(Text, Text)>, items: seq<Json>) {
    exists i, j :: 0 <= i < |items| && 0 <= j < |incoming|
      && MLostAt in ItemMembers(items[i]) && FromSpace(items[i]) == incoming[j].0
  }

  function Marked(items: seq<Json>, marker: Marker, named: Option<set<Text>>, stamp: Text): (r: seq<Json>)
    ensures |r| == |items|
    ensures forall i :: 0 <= i < |r| ==> r[i] == MarkedItem(items[i], marker, named, stamp)
  {
    seq(|items|, i requires 0 <= i < |items| => MarkedItem(items[i], marker, named, stamp))
  }

  /** A marker already set keeps its time. */
  function MarkedItem(item: Json, marker: Marker, named: Option<set<Text>>, stamp: Text): Json {
    if named.Some? && FromSpace(item) !in named.value then item
    else if MarkerMember(marker) in ItemMembers(item) then item
    else WithMember(item, MarkerMember(marker), stamp)
  }

  function Cleared(items: seq<Json>, marker: Marker, named: Option<set<Text>>): (r: seq<Json>)
    ensures |r| == |items|
    ensures forall i :: 0 <= i < |r| ==> r[i] == ClearedItem(items[i], marker, named)
  {
    seq(|items|, i requires 0 <= i < |items| => ClearedItem(items[i], marker, named))
  }

  function ClearedItem(item: Json, marker: Marker, named: Option<set<Text>>): Json {
    if named.Some? && FromSpace(item) !in named.value then item
    else if MarkerMember(marker) !in ItemMembers(item) then item
    else WithoutMember(item, MarkerMember(marker))
  }

  function Others(items: seq<Json>, space: Text): seq<Json> {
    if items == [] then []
    else (if FromSpace(items[0]) != space then [items[0]] else []) + Others(items[1..], space)
  }

  // ---- The writers

  function NewConnectionEntry(did: Text, stamp: Text): Members {
    map[MVersion := JInteger(CONNECTION_ENTRY_VERSION), MKind := JString(REPLICA_SERVER_KIND), MId := JString(did),
        MFirstSeen := JString(stamp), MLastSeen := JString(stamp), MGrants := JArray([]), MGrantsReceived := JArray([]),
        MOutbox := JArray([]), MWriters := JArray([])]
  }

  function Put(m: Members, k: Member, v: Option<Json>): Members {
    if v.Some? then m[k := v.value] else m
  }

  function WithSeed(m: Members, seed: Option<Text>, seedTag: Option<Text>): Members {
    Put(Put(m, MSeed, JsonText(seed)), MSeedTag, JsonText(seedTag))
  }

  function Declared(m: Members, name: Option<Text>, url: Text): Members {
    Put(m, MName, JsonText(Normalized(name)))[MUrl := JString(url)]
  }

  function RecordReplicasChange(rules: Rules, did: Text, op: Op, current: Option<(Members, Entry)>): Change
    requires op.RecordReplicas?
  {
    if op.seed.Some? != op.seedTag.Some? then Refuse(SeedWithoutTag)
    else if !IncomingOk(rules, op.incoming) then Refuse(BadReplica)
    else if current.None? then
      Body(WithSeed(Declared(NewConnectionEntry(did, op.stamp), op.name, op.url), op.seed, op.seedTag)
             [MReplicas := JArray(NewItems(op.incoming, []))])
    else
      var entry := current.value.1;
      if entry.kind != REPLICA_SERVER_KIND then Refuse(WrongKind)
      else if op.seed.Some? && entry.seed.Some? && entry.seed != op.seed then Refuse(SeedDiffers)
      else if NamesLost(op.incoming, entry.replicas) then Refuse(MarkedLost)
      else
        var declared := Declared(current.value.0, op.name, op.url)[MLastSeen := JString(op.stamp)];
        var seeded := if entry.seed.None? then WithSeed(declared, op.seed, op.seedTag) else declared;
        Body(seeded[MReplicas := JArray(entry.replicas + NewItems(op.incoming, entry.replicas))] - {MRetired} - {MDeclined})
  }

  /** What `checkedDelegatedZcap`, the target and the action checks demand. */
  predicate PullGrantOk(rules: Rules, did: Text, zcap: Members, space: Text) {
    && IsZcap(rules, Some(JObject(zcap)))
    && var c := CapabilityOf(rules, Some(JObject(zcap)));
       c.controller == did && IsTargetInSpace(c.target, space) && NormalizedActions(c.allowedAction) == [Ascii("GET")]
  }

  function GrantIndex(rules: Rules, grants: seq<Json>, id: Text): (r: Option<nat>)
    ensures r.Some? ==> r.value < |grants| && GrantCapability(rules, grants[r.value]).id == id
    ensures r.None? ==> forall i :: 0 <= i < |grants| ==> GrantCapability(rules, grants[i]).id != id
  {
    if grants == [] then None
    else if GrantCapability(rules, grants[0]).id == id then Some(0)
    else
      var rest := GrantIndex(rules, grants[1..], id);
      if rest.None? then None else Some(rest.value + 1)
  }

  /** No grant of the source's scope is later than it, or as late and recorded after. */
  predicate LatestOfScope(rules: Rules, grants: seq<Json>, i: nat)
    requires i < |grants|
  {
    forall j :: 0 <= j < |grants| && GrantScopeKey(GrantCapability(rules, grants[j])) == GrantScopeKey(GrantCapability(rules, grants[i])) ==>
      GrantCapability(rules, grants[j]).expiresAt <= GrantCapability(rules, grants[i]).expiresAt
      && (i < j ==> GrantCapability(rules, grants[j]).expiresAt < GrantCapability(rules, grants[i]).expiresAt)
  }

  function GrantRecord(zcap: Members, kind: Text, grantedAt: Text, renewedAt: Option<Text>): Json {
    JObject(Put(map[MZcap := JObject(zcap), MGrantKind := JString(kind), MGrantedAt := JString(grantedAt)],
                MRenewedAt, JsonText(renewedAt)))
  }

  /** `renewedGrantRecord`: the source still there, of the same scope, the latest of
      it, and outlived. */
  function RenewedRecord(rules: Rules, grants: seq<Json>, zcap: Members, source: Text, stamp: Text): Option<Json> {
    var at := GrantIndex(rules, grants, source);
    var c := CapabilityOf(rules, Some(JObject(zcap)));
    if at.None? then None
    else
      var held := GrantCapability(rules, grants[at.value]);
      if GrantScopeKey(c) != GrantScopeKey(held) || !LatestOfScope(rules, grants, at.value) || c.expiresAt <= held.expiresAt
      then None
      else
        var m := MembersOf(Some(grants[at.value]));
        Some(GrantRecord(zcap, TextAt(m, MGrantKind), TextAt(m, MGrantedAt), Some(stamp)))
  }

  function RecordGrantChange(rules: Rules, did: Text, op: Op, current: Option<(Members, Entry)>): Change
    requires op.RecordReplicaGrant?
  {
    if op.pending.Some? && op.renews.Some? then Refuse(BothPendingAndRenews)
    else if !IsSpaceUrl(rules, op.fromSpace) || !PullGrantOk(rules, did, op.zcap, op.fromSpace)
            || !IsOptionalSeed(rules, JsonText(op.pending))
    then Refuse(BadGrant)
    else if current.None? then Absent
    else
      var body, entry := current.value.0, current.value.1;
      var index := ReplicaIndex(entry.replicas, op.fromSpace);
      if entry.kind != REPLICA_SERVER_KIND then Refuse(WrongKind)
      else if entry.retired.Some? then Refuse(Retired)
      else if index.None? then Refuse(NoSuchReplica)
      else
        var item := entry.replicas[index.value];
        var held := GrantIndex(rules, entry.grants, CapabilityOf(rules, Some(JObject(op.zcap))).id).Some?;
        var record := if op.renews.None? then Some(GrantRecord(op.zcap, Ascii("grant"), op.at, None))
                      else RenewedRecord(rules, entry.grants, op.zcap, op.renews.value, op.at);
        if record.None? then Refuse(BadRenewal)
        else if op.pending.Some? && MRegistrationId in ItemMembers(item) then Refuse(AlreadyRegistered)
        else if op.pending.Some? && MPendingRegistrationId in ItemMembers(item)
                && ItemText(item, MPendingRegistrationId) != op.pending
        then Refuse(OtherPending)
        else
          var moves := op.pending.Some? && ItemText(item, MPendingRegistrationId) != op.pending;
          var replicas := if moves then entry.replicas[index.value := WithMember(item, MPendingRegistrationId, op.pending.value)]
                          else entry.replicas;
          if held && !moves then Unchanged
          else Body((if held then body else body[MGrants := JArray(entry.grants + [record.value])])[MReplicas := JArray(replicas)])
  }

  function SettleChange(rules: Rules, op: Op, current: Option<(Members, Entry)>): Change
    requires op.SettleRegistration?
  {
    if !IsSpaceUrl(rules, op.settledSpace) || !IsSeed(rules, Some(JString(op.registrationId))) then Refuse(BadReplica)
    else if current.None? then Absent
    else
      var body, entry := current.value.0, current.value.1;
      var index := ReplicaIndex(entry.replicas, op.settledSpace);
      if entry.kind != REPLICA_SERVER_KIND then Refuse(WrongKind)
      else if index.None? then Refuse(NoSuchReplica)
      else
        var item := entry.replicas[index.value];
        if ItemText(item, MRegistrationId) == Some(op.registrationId) && MPendingRegistrationId !in ItemMembers(item)
        then Unchanged
        else if ItemText(item, MPendingRegistrationId) != Some(op.registrationId) then Refuse(NothingPending)
        else
          var settled := WithoutMember(WithMember(item, MRegistrationId, op.registrationId), MPendingRegistrationId);
          Body(body[MReplicas := JArray(entry.replicas[index.value := settled])])
  }

  predicate AllNamed(items: seq<Json>, named: Option<set<Text>>) {
    named.Some? ==> forall space :: space in named.value ==> ReplicaIndex(items, space).Some?
  }

  function MarkersChange(rules: Rules, op: Op, current: Option<(Members, Entry)>): Change
    requires op.SetMarker? || op.ClearMarker?
  {
    if current.None? then Absent
    else
      var body, entry := current.value.0, current.value.1;
      var named := if op.SetMarker? then op.named else op.clearedIn;
      if entry.kind != REPLICA_SERVER_KIND then Refuse(WrongKind)
      else if !AllNamed(entry.replicas, named) then Refuse(NoSuchReplica)
      else
        var replicas := if op.SetMarker? then Marked(entry.replicas, op.marker, named, op.markedAt)
                        else Cleared(entry.replicas, op.cleared, named);
        var undeclines := op.SetMarker? && op.marker.Restarted?;
        if replicas == entry.replicas && !(undeclines && entry.declined.Some?) then Unchanged
        else Body(body[MReplicas := JArray(replicas)] - (if undeclines then {MDeclined} else {}))
  }

  function RemoveChange(rules: Rules, op: Op, current: Option<(Members, Entry)>): Change
    requires op.RemoveReplica?
  {
    if !IsSpaceUrl(rules, op.removedSpace) then Refuse(BadReplica)
    else if current.None? then Absent
    else
      var body, entry := current.value.0, current.value.1;
      if entry.kind != REPLICA_SERVER_KIND then Refuse(WrongKind)
      else if ReplicaIndex(entry.replicas, op.removedSpace).None? then Unchanged
      else if exists i :: 0 <= i < |entry.grants| && IsTargetInSpace(GrantCapability(rules, entry.grants[i]).target, op.removedSpace)
      then Refuse(GrantsStanding)
      else Body(body[MReplicas := JArray(Others(entry.replicas, op.removedSpace))])
  }

  /** The grants none of whose capability ids is removed, in the order recorded. */
  function KeptGrants(rules: Rules, grants: seq<Json>, ids: set<Text>): seq<Json> {
    if grants == [] then []
    else (if GrantCapability(rules, grants[0]).id in ids then [] else [grants[0]]) + KeptGrants(rules, grants[1..], ids)
  }

  /** `removeGrants`, whatever the entry's kind. */
  function RemoveGrantsChange(rules: Rules, op: Op, current: Option<(Members, Entry)>): Change
    requires op.RemoveGrants?
  {
    if current.None? then Absent
    else
      var kept := KeptGrants(rules, current.value.1.grants, op.removedIds);
      if |kept| == |current.value.1.grants| then Unchanged
      else Body(current.value.0[MGrants := JArray(kept)])
  }

  /** One attempt of a writer over what it read: a stored body must parse, sit at its
      party's resource and be of this build's version. */
  function ChangeOf(rules: Rules, did: Text, op: Op, stored: Option<Members>): Change {
    var parsed := if stored.Some? then ParseConnectionEntry(rules, JObject(stored.value)) else None;
    if stored.Some? && (parsed.None? || parsed.value.id != Some(did) || parsed.value.version != CONNECTION_ENTRY_VERSION)
    then Refuse(Unwritable)
    else
      var current := if stored.Some? then Some((stored.value, parsed.value)) else None;
      match op
      case RecordReplicas(_, _, _, _, _, _) => RecordReplicasChange(rules, did, op, current)
      case RecordReplicaGrant(_, _, _, _, _) => RecordGrantChange(rules, did, op, current)
      case SettleRegistration(_, _) => SettleChange(rules, op, current)
      case RemoveReplica(_) => RemoveChange(rules, op, current)
      case RemoveGrants(_) => RemoveGrantsChange(rules, op, current)
      case _ => MarkersChange(rules, op, current)
  }
}
