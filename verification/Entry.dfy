/** The directory entry codec: which JSON bodies read as a connections entry, and as
    which one. */
module Entry {
  import opened Seqs
  import opened LabelText

  /** The member names the codec knows, and any other. */
  datatype Member =
    | MVersion | MKind | MId | MName | MLabel | MOrigin | MUrl | MAppKey | MFirstSeen | MLastSeen | MRetired
    | MDeclined | MSeed | MSeedTag | MGrants | MGrantsReceived | MOutbox | MWriters | MReplicas
    | MZcap | MGrantKind | MGrantedAt | MRenewedAt | MReceivedAt | MMessage | MCreatedAt
    | MController | MInvocationTarget | MAllowedAction | MExpires
    | MFromSpace | MSpaceId | MRegistrationId | MPendingRegistrationId | MCollections
    | MStoppedAt | MRestartedAt | MLostAt
    | MWriterId | MActive
    | MOther(name: Text)

  datatype Json =
    | JNull
    | JBool(flag: bool)
    | JInteger(n: int)
    | JFraction(tag: nat)
    | JString(text: Text)
    | JArray(items: seq<Json>)
    | JObject(members: map<Member, Json>)

  /** What the codec asks of the platform: `Date.parse`, URL parsing, and base64url
      decoding to 32 bytes. Its canonical URLs are the ones stored. */
  datatype Rules = Rules(
    parseTime: Text -> Option<int>,
    isUrl: Text -> bool,
    decodesTo32Bytes: Text -> bool,
    baseServer: Text -> Text)

  const CONNECTION_ENTRY_VERSION: int := 1
  const CONNECTION_SEED_TEXT_LENGTH: nat := 43

  function Ascii(s: string): Text {
    seq(|s|, i requires 0 <= i < |s| => if s[i] as int < 0x80 then s[i] as int else 0)
  }

  const REPLICA_SERVER_KIND: Text := Ascii("replica-server")

  function Get(m: map<Member, Json>, k: Member): Option<Json> {
    if k in m then Some(m[k]) else None
  }

  predicate IsText(j: Option<Json>) {
    j.Some? && j.value.JString?
  }

  predicate IsOptionalText(j: Option<Json>) {
    j.Some? ==> j.value.JString?
  }

  predicate IsTimestamp(rules: Rules, j: Option<Json>) {
    IsText(j) && rules.parseTime(j.value.text).Some?
  }

  predicate IsOptionalTimestamp(rules: Rules, j: Option<Json>) {
    j.Some? ==> IsTimestamp(rules, j)
  }

  /** `decodeConnectionSeed`, and the rule of every fresh id. */
  predicate IsSeed(rules: Rules, j: Option<Json>) {
    IsText(j) && |j.value.text| == CONNECTION_SEED_TEXT_LENGTH && rules.decodesTo32Bytes(j.value.text)
  }

  predicate IsOptionalSeed(rules: Rules, j: Option<Json>) {
    j.Some? ==> IsSeed(rules, j)
  }

  predicate IsSpaceUrl(rules: Rules, t: Text) {
    t != [] && t[|t| - 1] == 0x2f && rules.isUrl(t)
  }

  predicate IsArray(j: Option<Json>) {
    j.Some? && j.value.JArray?
  }

  /** The list a member holds, an absent one read as empty. */
  function ItemsOf(j: Option<Json>): seq<Json> {
    if j.Some? && j.value.JArray? then j.value.items else []
  }

  // ---- The lists' items

  predicate IsActionList(j: Option<Json>) {
    && (j.Some? ==> j.value.JString? || j.value.JArray?)
    && forall i :: 0 <= i < |ItemsOf(j)| ==> ItemsOf(j)[i].JString?
  }

  predicate IsZcap(rules: Rules, j: Option<Json>) {
    && j.Some? && j.value.JObject?
    && var m := j.value.members;
       && IsText(Get(m, MId)) && Get(m, MId).value.text != []
       && IsText(Get(m, MController)) && IsText(Get(m, MInvocationTarget))
       && IsActionList(Get(m, MAllowedAction)) && IsTimestamp(rules, Get(m, MExpires))
  }

  predicate IsGrantRecord(rules: Rules, j: Json) {
    && j.JObject? && IsZcap(rules, Get(j.members, MZcap)) && IsText(Get(j.members, MGrantKind))
    && IsTimestamp(rules, Get(j.members, MGrantedAt)) && IsOptionalTimestamp(rules, Get(j.members, MRenewedAt))
  }

  predicate IsReceivedGrantRecord(rules: Rules, j: Json) {
    && j.JObject? && IsZcap(rules, Get(j.members, MZcap)) && IsText(Get(j.members, MGrantKind))
    && IsTimestamp(rules, Get(j.members, MReceivedAt))
  }

  predicate IsOutboxItem(rules: Rules, j: Json) {
    && j.JObject? && Get(j.members, MMessage).Some? && Get(j.members, MMessage).value.JObject?
    && IsTimestamp(rules, Get(j.members, MCreatedAt))
  }

  predicate IsReplica(rules: Rules, j: Json) {
    && j.JObject?
    && IsText(Get(j.members, MFromSpace)) && IsSpaceUrl(rules, Get(j.members, MFromSpace).value.text)
    && IsSeed(rules, Get(j.members, MSpaceId))
    && IsOptionalSeed(rules, Get(j.members, MRegistrationId))
    && IsOptionalSeed(rules, Get(j.members, MPendingRegistrationId))
    && IsCollectionList(Get(j.members, MCollections))
    && IsOptionalTimestamp(rules, Get(j.members, MStoppedAt))
    && IsOptionalTimestamp(rules, Get(j.members, MRestartedAt))
    && IsOptionalTimestamp(rules, Get(j.members, MLostAt))
  }

  predicate IsCollectionList(j: Option<Json>) {
    j.Some? ==>
      && j.value.JArray? && j.value.items != []
      && forall i :: 0 <= i < |j.value.items| ==> j.value.items[i].JString? && j.value.items[i].text != []
  }

  /** A writer's label is normalized as it is read. */
  function ParseWriter(rules: Rules, j: Json): Option<Json> {
    if !j.JObject? || !IsText(Get(j.members, MWriterId)) || Get(j.members, MWriterId).value.text == []
       || !IsText(Get(j.members, MLabel)) || !IsTimestamp(rules, Get(j.members, MLastSeen))
       || Get(j.members, MActive).None? || !Get(j.members, MActive).value.JBool?
    then None
    else
      var named := NormalizeDisplayName(Get(j.members, MLabel).value.text);
      if named.None? then None else Some(JObject(j.members[MLabel := JString(named.value)]))
  }

  predicate AllGrants(rules: Rules, items: seq<Json>) {
    forall i :: 0 <= i < |items| ==> IsGrantRecord(rules, items[i])
  }

  predicate AllReceived(rules: Rules, items: seq<Json>) {
    forall i :: 0 <= i < |items| ==> IsReceivedGrantRecord(rules, items[i])
  }

  predicate AllOutbox(rules: Rules, items: seq<Json>) {
    forall i :: 0 <= i < |items| ==> IsOutboxItem(rules, items[i])
  }

  predicate AllReplicas(rules: Rules, items: seq<Json>) {
    forall i :: 0 <= i < |items| ==> IsReplica(rules, items[i])
  }

  predicate AllWriters(rules: Rules, items: seq<Json>) {
    forall i :: 0 <= i < |items| ==> ParseWriter(rules, items[i]).Some?
  }

  function ParsedWriters(rules: Rules, items: seq<Json>): (r: seq<Json>)
    requires AllWriters(rules, items)
    ensures |r| == |items|
    ensures forall i :: 0 <= i < |r| ==> Some(r[i]) == ParseWriter(rules, items[i])
  {
    seq(|items|, i requires 0 <= i < |items| => ParseWriter(rules, items[i]).value)
  }

  // ---- The entry

  datatype Entry = Entry(
    version: int, kind: Text, id: Option<Text>, name: Option<Text>, userLabel: Option<Text>, origin: Option<Text>,
    url: Option<Text>, appKey: Option<Text>, firstSeen: Text, lastSeen: Text, retired: Option<Text>,
    declined: Option<Text>, seed: Option<Text>, seedTag: Option<Text>, grants: seq<Json>, grantsReceived: seq<Json>,
    outbox: seq<Json>, writers: seq<Json>, replicas: seq<Json>)

  function TextOf(j: Option<Json>): Option<Text> {
    if j.Some? && j.value.JString? then Some(j.value.text) else None
  }

  predicate IsDid(t: Text) {
    Ascii("did:") <= t
  }

  /** The members a body is destructured into; an absent one is `None`. */
  datatype Fields = Fields(
    version: Option<Json>, kind: Option<Json>, id: Option<Json>, name: Option<Json>, userLabel: Option<Json>,
    origin: Option<Json>, url: Option<Json>, appKey: Option<Json>, firstSeen: Option<Json>, lastSeen: Option<Json>,
    retired: Option<Json>, declined: Option<Json>, seed: Option<Json>, seedTag: Option<Json>, grants: Option<Json>,
    grantsReceived: Option<Json>, outbox: Option<Json>, writers: Option<Json>, replicas: Option<Json>)

  function FieldsOf(m: map<Member, Json>): Fields {
    Fields(
      Get(m, MVersion), Get(m, MKind), Get(m, MId), Get(m, MName), Get(m, MLabel), Get(m, MOrigin), Get(m, MUrl),
      Get(m, MAppKey), Get(m, MFirstSeen), Get(m, MLastSeen), Get(m, MRetired), Get(m, MDeclined), Get(m, MSeed),
      Get(m, MSeedTag), Get(m, MGrants), Get(m, MGrantsReceived), Get(m, MOutbox), Get(m, MWriters), Get(m, MReplicas))
  }

  predicate ScalarsOk(rules: Rules, f: Fields) {
    && f.version.Some? && f.version.value.JInteger? && f.version.value.n >= 1
    && IsText(f.kind) && f.kind.value.text != []
    && IsOptionalText(f.id) && (f.id.Some? ==> IsDid(f.id.value.text))
    && IsOptionalText(f.name) && IsOptionalText(f.userLabel) && IsOptionalText(f.origin) && IsOptionalText(f.url)
    && IsOptionalText(f.appKey) && (f.appKey.Some? ==> f.appKey.value.text != [])
  }

  predicate TimesAndSeedsOk(rules: Rules, f: Fields) {
    && IsTimestamp(rules, f.firstSeen) && IsTimestamp(rules, f.lastSeen)
    && IsOptionalTimestamp(rules, f.retired) && IsOptionalTimestamp(rules, f.declined)
    && IsOptionalSeed(rules, f.seed) && IsOptionalSeed(rules, f.seedTag)
    && f.seed.Some? == f.seedTag.Some?
  }

  /** A display name that is there normalizes to one. */
  predicate NameOk(j: Option<Json>) {
    TextOf(j).Some? ==> NormalizeDisplayName(TextOf(j).value).Some?
  }

  predicate ListsOk(rules: Rules, f: Fields) {
    && IsArray(f.grants) && IsArray(f.writers)
    && (f.grantsReceived.Some? ==> IsArray(f.grantsReceived))
    && (f.outbox.Some? ==> IsArray(f.outbox)) && (f.replicas.Some? ==> IsArray(f.replicas))
    && (ItemsOf(f.replicas) != [] ==> TextOf(f.kind) == Some(REPLICA_SERVER_KIND))
    && AllGrants(rules, ItemsOf(f.grants)) && AllReceived(rules, ItemsOf(f.grantsReceived))
    && AllOutbox(rules, ItemsOf(f.outbox)) && AllWriters(rules, ItemsOf(f.writers))
    && AllReplicas(rules, ItemsOf(f.replicas))
    && (f.id.None? ==> |ItemsOf(f.writers)| == 1)
  }

  function Normalized(t: Option<Text>): Option<Text> {
    if t.Some? then NormalizeDisplayName(t.value) else None
  }

  predicate FieldsOk(rules: Rules, f: Fields) {
    ScalarsOk(rules, f) && TimesAndSeedsOk(rules, f) && NameOk(f.name) && NameOk(f.userLabel) && ListsOk(rules, f)
  }

  function EntryOf(rules: Rules, f: Fields): Entry
    requires FieldsOk(rules, f)
  {
    Entry(
      f.version.value.n, f.kind.value.text, TextOf(f.id), Normalized(TextOf(f.name)), Normalized(TextOf(f.userLabel)),
      TextOf(f.origin), TextOf(f.url), TextOf(f.appKey), f.firstSeen.value.text, f.lastSeen.value.text,
      TextOf(f.retired), TextOf(f.declined), TextOf(f.seed), TextOf(f.seedTag), ItemsOf(f.grants),
      ItemsOf(f.grantsReceived), ItemsOf(f.outbox), ParsedWriters(rules, ItemsOf(f.writers)), ItemsOf(f.replicas))
  }

  function ParseFields(rules: Rules, f: Fields): Option<Entry> {
    if FieldsOk(rules, f) then Some(EntryOf(rules, f)) else None
  }

  /** `parseConnectionEntry`. */
  function ParseConnectionEntry(rules: Rules, body: Json): Option<Entry> {
    if body.JObject? then ParseFields(rules, FieldsOf(body.members)) else None
  }

  function JsonText(t: Option<Text>): Option<Json> {
    if t.Some? then Some(JString(t.value)) else None
  }

  /** An entry object's members; an undefined one is absent. */
  function EntryFields(e: Entry): Fields {
    Fields(
      Some(JInteger(e.version)), Some(JString(e.kind)), JsonText(e.id), JsonText(e.name), JsonText(e.userLabel),
      JsonText(e.origin), JsonText(e.url), JsonText(e.appKey), Some(JString(e.firstSeen)), Some(JString(e.lastSeen)),
      JsonText(e.retired), JsonText(e.declined), JsonText(e.seed), JsonText(e.seedTag), Some(JArray(e.grants)),
      Some(JArray(e.grantsReceived)), Some(JArray(e.outbox)), Some(JArray(e.writers)), Some(JArray(e.replicas)))
  }

  const KNOWN: set<Member> := {MVersion, MKind, MId, MName, MLabel, MOrigin, MUrl, MAppKey, MFirstSeen, MLastSeen,
                               MRetired, MDeclined, MSeed, MSeedTag, MGrants, MGrantsReceived, MOutbox, MWriters, MReplicas}

  function FieldNamed(f: Fields, k: Member): Option<Json> {
    match k
    case MVersion => f.version
    case MKind => f.kind
    case MId => f.id
    case MName => f.name
    case MLabel => f.userLabel
    case MOrigin => f.origin
    case MUrl => f.url
    case MAppKey => f.appKey
    case MFirstSeen => f.firstSeen
    case MLastSeen => f.lastSeen
    case MRetired => f.retired
    case MDeclined => f.declined
    case MSeed => f.seed
    case MSeedTag => f.seedTag
    case MGrants => f.grants
    case MGrantsReceived => f.grantsReceived
    case MOutbox => f.outbox
    case MWriters => f.writers
    case MReplicas => f.replicas
    case _ => None
  }

  /** A parsed entry as a body again. */
  function EntryBody(e: Entry): Json {
    JObject(map k | k in KNOWN && FieldNamed(EntryFields(e), k).Some? :: FieldNamed(EntryFields(e), k).value)
  }

  lemma BodyMember(e: Entry, k: Member)
    ensures Get(EntryBody(e).members, k) == FieldNamed(EntryFields(e), k)
  {
  }

  lemma BodyTexts(e: Entry)
    ensures Get(EntryBody(e).members, MVersion) == EntryFields(e).version
    ensures Get(EntryBody(e).members, MKind) == EntryFields(e).kind
    ensures Get(EntryBody(e).members, MId) == EntryFields(e).id
    ensures Get(EntryBody(e).members, MName) == EntryFields(e).name
    ensures Get(EntryBody(e).members, MLabel) == EntryFields(e).userLabel
    ensures Get(EntryBody(e).members, MOrigin) == EntryFields(e).origin
    ensures Get(EntryBody(e).members, MUrl) == EntryFields(e).url
  {
    BodyMember(e, MVersion);
    BodyMember(e, MKind);
    BodyMember(e, MId);
    BodyMember(e, MName);
    BodyMember(e, MLabel);
    BodyMember(e, MOrigin);
    BodyMember(e, MUrl);
  }

  lemma BodyStamps(e: Entry)
    ensures Get(EntryBody(e).members, MAppKey) == EntryFields(e).appKey
    ensures Get(EntryBody(e).members, MFirstSeen) == EntryFields(e).firstSeen
    ensures Get(EntryBody(e).members, MLastSeen) == EntryFields(e).lastSeen
    ensures Get(EntryBody(e).members, MRetired) == EntryFields(e).retired
    ensures Get(EntryBody(e).members, MDeclined) == EntryFields(e).declined
    ensures Get(EntryBody(e).members, MSeed) == EntryFields(e).seed
    ensures Get(EntryBody(e).members, MSeedTag) == EntryFields(e).seedTag
  {
    BodyMember(e, MAppKey);
    BodyMember(e, MFirstSeen);
    BodyMember(e, MLastSeen);
    BodyMember(e, MRetired);
    BodyMember(e, MDeclined);
    BodyMember(e, MSeed);
    BodyMember(e, MSeedTag);
  }

  lemma BodyLists(e: Entry)
    ensures Get(EntryBody(e).members, MGrants) == EntryFields(e).grants
    ensures Get(EntryBody(e).members, MGrantsReceived) == EntryFields(e).grantsReceived
    ensures Get(EntryBody(e).members, MOutbox) == EntryFields(e).outbox
    ensures Get(EntryBody(e).members, MWriters) == EntryFields(e).writers
    ensures Get(EntryBody(e).members, MReplicas) == EntryFields(e).replicas
  {
    BodyMember(e, MGrants);
    BodyMember(e, MGrantsReceived);
    BodyMember(e, MOutbox);
    BodyMember(e, MWriters);
    BodyMember(e, MReplicas);
  }

  lemma BodyFields(e: Entry)
    ensures FieldsOf(EntryBody(e).members) == EntryFields(e)
  {
    BodyTexts(e);
    BodyStamps(e);
    BodyLists(e);
  }

  lemma {:induction false} WriterIsIdempotent(rules: Rules, j: Json)
    requires ParseWriter(rules, j).Some?
    ensures ParseWriter(rules, ParseWriter(rules, j).value) == ParseWriter(rules, j)
  {
    NormalizeIsIdempotent(Get(j.members, MLabel).value.text);
    var named := NormalizeDisplayName(Get(j.members, MLabel).value.text).value;
    var again := j.members[MLabel := JString(named)];
    assert again[MLabel := JString(named)] == again;
  }

  lemma WritersAreIdempotent(rules: Rules, items: seq<Json>)
    requires AllWriters(rules, items)
    ensures AllWriters(rules, ParsedWriters(rules, items))
    ensures ParsedWriters(rules, ParsedWriters(rules, items)) == ParsedWriters(rules, items)
  {
    var parsed := ParsedWriters(rules, items);
    forall i | 0 <= i < |parsed| ensures ParseWriter(rules, parsed[i]) == Some(parsed[i]) {
      WriterIsIdempotent(rules, items[i]);
    }
  }

  lemma NormalizedTwice(t: Option<Text>)
    requires t.Some? ==> NormalizeDisplayName(t.value).Some?
    ensures Normalized(Normalized(t)) == Normalized(t)
    ensures NameOk(JsonText(Normalized(t)))
  {
    if t.Some? { NormalizeIsIdempotent(t.value); }
  }

  /** Parsing a parsed entry gives the same entry, for every body. */
  lemma ParsedIsFixpoint(rules: Rules, body: Json)
    requires ParseConnectionEntry(rules, body).Some?
    ensures var e := ParseConnectionEntry(rules, body).value;
            ParseConnectionEntry(rules, EntryBody(e)) == Some(e)
  {
    var f := FieldsOf(body.members);
    BodyFields(EntryOf(rules, f));
    FieldsFixpoint(rules, f);
  }

  lemma ScalarsFixpoint(rules: Rules, f: Fields)
    requires FieldsOk(rules, f)
    ensures ScalarsOk(rules, EntryFields(EntryOf(rules, f)))
  {
    NormalizedTwice(TextOf(f.name));
    NormalizedTwice(TextOf(f.userLabel));
  }

  lemma ListsFixpoint(rules: Rules, f: Fields)
    requires FieldsOk(rules, f)
    ensures ListsOk(rules, EntryFields(EntryOf(rules, f)))
  {
    WritersAreIdempotent(rules, ItemsOf(f.writers));
    var e := EntryOf(rules, f);
    assert ItemsOf(Some(JArray(e.writers))) == e.writers;
  }

  lemma EntryReadsBack(rules: Rules, e: Entry)
    requires FieldsOk(rules, EntryFields(e))
    requires Normalized(e.name) == e.name && Normalized(e.userLabel) == e.userLabel
    requires AllWriters(rules, e.writers) && ParsedWriters(rules, e.writers) == e.writers
    ensures ParseFields(rules, EntryFields(e)) == Some(e)
  {
    var f := EntryFields(e);
    assert ItemsOf(f.writers) == e.writers;
    assert TextOf(f.name) == e.name && TextOf(f.userLabel) == e.userLabel;
  }

  lemma FieldsFixpoint(rules: Rules, f: Fields)
    requires FieldsOk(rules, f)
    ensures ParseFields(rules, EntryFields(EntryOf(rules, f))) == Some(EntryOf(rules, f))
  {
    var e := EntryOf(rules, f);
    NormalizedTwice(TextOf(f.name));
    NormalizedTwice(TextOf(f.userLabel));
    WritersAreIdempotent(rules, ItemsOf(f.writers));
    ScalarsFixpoint(rules, f);
    ListsFixpoint(rules, f);
    EntryReadsBack(rules, e);
  }

  predicate CleanName(t: Option<Text>) {
    t.Some? ==> NormalizeDisplayName(t.value) == t
  }

  predicate Parses(rules: Rules, t: Text) { rules.parseTime(t).Some? }

  predicate WellStamped(rules: Rules, e: Entry) {
    && Parses(rules, e.firstSeen) && Parses(rules, e.lastSeen)
    && (e.retired.Some? ==> Parses(rules, e.retired.value)) && (e.declined.Some? ==> Parses(rules, e.declined.value))
  }

  predicate WellSeeded(rules: Rules, e: Entry) {
    && (e.seed.Some? <==> e.seedTag.Some?)
    && (e.seed.Some? ==> IsSeed(rules, Some(JString(e.seed.value))) && IsSeed(rules, Some(JString(e.seedTag.value))))
  }

  predicate WellListed(rules: Rules, e: Entry) {
    && AllGrants(rules, e.grants) && AllReceived(rules, e.grantsReceived) && AllOutbox(rules, e.outbox)
    && AllReplicas(rules, e.replicas) && (e.replicas != [] ==> e.kind == REPLICA_SERVER_KIND)
    && (forall i :: 0 <= i < |e.writers| ==> ParseWriter(rules, e.writers[i]) == Some(e.writers[i]))
    && (e.id.None? ==> |e.writers| == 1)
  }

  /** An entry a body can stand for. */
  predicate WellFormed(rules: Rules, e: Entry) {
    && e.version >= 1 && e.kind != [] && (e.id.Some? ==> IsDid(e.id.value)) && (e.appKey.Some? ==> e.appKey.value != [])
    && CleanName(e.name) && CleanName(e.userLabel)
    && WellStamped(rules, e) && WellSeeded(rules, e) && WellListed(rules, e)
  }

  lemma TimesIff(rules: Rules, e: Entry)
    ensures TimesAndSeedsOk(rules, EntryFields(e)) <==> WellStamped(rules, e) && WellSeeded(rules, e)
  {
  }

  lemma ScalarsIff(rules: Rules, e: Entry)
    ensures ScalarsOk(rules, EntryFields(e)) <==>
            e.version >= 1 && e.kind != [] && (e.id.Some? ==> IsDid(e.id.value)) && (e.appKey.Some? ==> e.appKey.value != [])
  {
  }

  lemma NamesIff(e: Entry)
    ensures NameOk(EntryFields(e).name) && Normalized(e.name) == e.name <==> CleanName(e.name)
    ensures NameOk(EntryFields(e).userLabel) && Normalized(e.userLabel) == e.userLabel <==> CleanName(e.userLabel)
  {
  }

  lemma ListsIff(rules: Rules, e: Entry)
    ensures ListsOk(rules, EntryFields(e)) && ParsedWriters(rules, e.writers) == e.writers <==> WellListed(rules, e)
  {
    var f := EntryFields(e);
    assert ItemsOf(f.grants) == e.grants && ItemsOf(f.grantsReceived) == e.grantsReceived && ItemsOf(f.outbox) == e.outbox;
    assert ItemsOf(f.writers) == e.writers && ItemsOf(f.replicas) == e.replicas && TextOf(f.kind) == Some(e.kind);
  }

  /** Writing an entry and parsing it gives it back exactly when it is well formed. */
  lemma WrittenReadsBackIff(rules: Rules, e: Entry)
    ensures ParseConnectionEntry(rules, EntryBody(e)) == Some(e) <==> WellFormed(rules, e)
  {
    BodyFields(e);
    ScalarsIff(rules, e);
    TimesIff(rules, e);
    NamesIff(e);
    ListsIff(rules, e);
    if FieldsOk(rules, EntryFields(e)) { FieldsReadBackIff(rules, e); }
  }

  lemma FieldsReadBackIff(rules: Rules, e: Entry)
    requires FieldsOk(rules, EntryFields(e))
    ensures EntryOf(rules, EntryFields(e)) == e <==>
            Normalized(e.name) == e.name && Normalized(e.userLabel) == e.userLabel && ParsedWriters(rules, e.writers) == e.writers
  {
    var f := EntryFields(e);
    assert ItemsOf(f.writers) == e.writers && TextOf(f.name) == e.name && TextOf(f.userLabel) == e.userLabel;
  }

  /** A name or label is read as what the display-name rule makes of it, and the entry
      refused exactly when the rule refuses it. */
  lemma NamesAreNormalized(rules: Rules, m: map<Member, Json>, t: Text)
    requires ParseConnectionEntry(rules, JObject(m)).Some?
    ensures var e, named := ParseConnectionEntry(rules, JObject(m)).value, NormalizeDisplayName(t);
            && ParseConnectionEntry(rules, JObject(m[MName := JString(t)])) ==
               (if named.Some? then Some(e.(name := named)) else None)
            && ParseConnectionEntry(rules, JObject(m[MLabel := JString(t)])) ==
               (if named.Some? then Some(e.(userLabel := named)) else None)
  {
    var f := FieldsOf(m);
    assert FieldsOf(m[MName := JString(t)]) == f.(name := Some(JString(t)));
    assert FieldsOf(m[MLabel := JString(t)]) == f.(userLabel := Some(JString(t)));
  }

  lemma ListDropped(m: map<Member, Json>)
    ensures FieldsOf(m - {MGrantsReceived}) == FieldsOf(m).(grantsReceived := None)
    ensures FieldsOf(m - {MOutbox}) == FieldsOf(m).(outbox := None)
    ensures FieldsOf(m - {MReplicas}) == FieldsOf(m).(replicas := None)
  {
  }

  lemma ListAbsent(rules: Rules, f: Fields)
    requires FieldsOk(rules, f)
    ensures ParseFields(rules, f.(grantsReceived := None)) == Some(EntryOf(rules, f).(grantsReceived := []))
    ensures ParseFields(rules, f.(outbox := None)) == Some(EntryOf(rules, f).(outbox := []))
    ensures ParseFields(rules, f.(replicas := None)) == Some(EntryOf(rules, f).(replicas := []))
  {
  }

  /** The lists older bodies lack read as empty. */
  lemma AbsentListsAreEmpty(rules: Rules, m: map<Member, Json>)
    requires ParseConnectionEntry(rules, JObject(m)).Some?
    ensures var e := ParseConnectionEntry(rules, JObject(m)).value;
            && ParseConnectionEntry(rules, JObject(m - {MGrantsReceived})) == Some(e.(grantsReceived := []))
            && ParseConnectionEntry(rules, JObject(m - {MOutbox})) == Some(e.(outbox := []))
            && ParseConnectionEntry(rules, JObject(m - {MReplicas})) == Some(e.(replicas := []))
  {
    ListDropped(m);
    ListAbsent(rules, FieldsOf(m));
  }

  /** Members the codec does not know change nothing it reads. */
  lemma UnknownMembersIgnored(rules: Rules, m: map<Member, Json>, k: Member, v: Json)
    requires k !in KNOWN
    ensures ParseConnectionEntry(rules, JObject(m[k := v])) == ParseConnectionEntry(rules, JObject(m))
  {
  }

  // ---- Bodies a writer changes

  /** The members the replica writers change. */
  predicate Written(k: Member) {
    || k == MName || k == MUrl || k == MLastSeen || k == MRetired || k == MDeclined || k == MSeed || k == MSeedTag
    || k == MGrants || k == MReplicas
  }

  function WithField(f: Fields, k: Member, v: Option<Json>): Fields
    requires Written(k)
  {
    match k
    case MName => f.(name := v)
    case MUrl => f.(url := v)
    case MLastSeen => f.(lastSeen := v)
    case MRetired => f.(retired := v)
    case MDeclined => f.(declined := v)
    case MSeed => f.(seed := v)
    case MSeedTag => f.(seedTag := v)
    case MGrants => f.(grants := v)
    case MReplicas => f.(replicas := v)
  }

  lemma FieldsPut(m: map<Member, Json>, k: Member, v: Json)
    requires Written(k)
    ensures FieldsOf(m[k := v]) == WithField(FieldsOf(m), k, Some(v))
  {
  }

  lemma FieldsDrop(m: map<Member, Json>, k: Member)
    requires Written(k)
    ensures FieldsOf(m - {k}) == WithField(FieldsOf(m), k, None)
  {
  }

  lemma ReplicasUpdate(rules: Rules, f: Fields, items: seq<Json>)
    requires FieldsOk(rules, f) && TextOf(f.kind) == Some(REPLICA_SERVER_KIND) && AllReplicas(rules, items)
    ensures ParseFields(rules, f.(replicas := Some(JArray(items)))) == Some(EntryOf(rules, f).(replicas := items))
  {
  }

  lemma GrantsUpdate(rules: Rules, f: Fields, items: seq<Json>)
    requires FieldsOk(rules, f) && AllGrants(rules, items)
    ensures ParseFields(rules, f.(grants := Some(JArray(items)))) == Some(EntryOf(rules, f).(grants := items))
  {
  }

  lemma EndingsDropped(rules: Rules, f: Fields)
    requires FieldsOk(rules, f)
    ensures ParseFields(rules, f.(declined := None)) == Some(EntryOf(rules, f).(declined := None))
    ensures ParseFields(rules, f.(retired := None)) == Some(EntryOf(rules, f).(retired := None))
  {
  }
}
