/** The readers of an entry's grants: which the wallet shows, which are live, and
    which is the latest of its scope. */
module Grants {
  import opened Seqs
  import opened LabelText
  import opened ScopeText
  import opened Entry

  /** `allowedAction` as a capability carries it. */
  datatype AllowedAction = NoAction | OneAction(action: Text) | ActionList(actions: seq<Text>)

  /** A capability's known members; `document` is the whole of it. */
  datatype Capability = Capability(
    id: Text, controller: Text, target: Text, allowedAction: AllowedAction, expiresAt: int, document: Json)

  datatype Grant = Grant(zcap: Capability, shared: bool, grantedAt: Text)

  datatype ReceivedGrant = ReceivedGrant(zcap: Capability, inbox: bool, receivedAt: Option<int>)

  const SHARE: Text := Ascii("share")
  const INBOX: Text := Ascii("inbox")
  const POST: Text := Ascii("POST")

  function MembersOf(j: Option<Json>): map<Member, Json> {
    if j.Some? && j.value.JObject? then j.value.members else map[]
  }

  function TextAt(m: map<Member, Json>, k: Member): Text {
    if TextOf(Get(m, k)).Some? then TextOf(Get(m, k)).value else []
  }

  function TextsOf(items: seq<Json>): seq<Text> {
    seq(|items|, i requires 0 <= i < |items| => if items[i].JString? then items[i].text else [])
  }

  function ActionOf(j: Option<Json>): AllowedAction {
    if j.None? then NoAction else if j.value.JString? then OneAction(j.value.text) else ActionList(TextsOf(ItemsOf(j)))
  }

  function TimeAt(rules: Rules, m: map<Member, Json>, k: Member): Option<int> {
    rules.parseTime(TextAt(m, k))
  }

  function CapabilityOf(rules: Rules, j: Option<Json>): Capability {
    var m := MembersOf(j);
    var expires := TimeAt(rules, m, MExpires);
    Capability(TextAt(m, MId), TextAt(m, MController), TextAt(m, MInvocationTarget), ActionOf(Get(m, MAllowedAction)),
               if expires.Some? then expires.value else 0, JObject(m))
  }

  function GrantCapability(rules: Rules, record: Json): Capability {
    CapabilityOf(rules, Get(MembersOf(Some(record)), MZcap))
  }

  // ---- Targets

  /** A target inside a Space: its container URL is a prefix. */
  predicate IsTargetInSpace(target: Text, space: Text) {
    space <= target
  }

  predicate IsTargetInAnySpace(target: Text, spaces: seq<Text>) {
    exists i :: 0 <= i < |spaces| && IsTargetInSpace(target, spaces[i])
  }

  function FromSpace(item: Json): Text {
    TextAt(MembersOf(Some(item)), MFromSpace)
  }

  /** The source Spaces of an entry's replicas on one base server. */
  function OwnContainers(rules: Rules, replicas: seq<Json>, base: Text): seq<Text> {
    if replicas == [] then []
    else (if rules.baseServer(FromSpace(replicas[0])) == base then [FromSpace(replicas[0])] else [])
         + OwnContainers(rules, replicas[1..], base)
  }

  lemma {:induction false} OwnContainersMember(rules: Rules, replicas: seq<Json>, base: Text, i: nat)
    requires i < |replicas| && rules.baseServer(FromSpace(replicas[i])) == base
    ensures FromSpace(replicas[i]) in OwnContainers(rules, replicas, base)
  {
    if i > 0 { OwnContainersMember(rules, replicas[1..], base, i - 1); }
  }

  function AccountContainerUrls(rules: Rules, entry: Option<Entry>, spaceUrl: Text): seq<Text> {
    if entry.None? || entry.value.replicas == [] then [spaceUrl]
    else Dedup([spaceUrl] + OwnContainers(rules, entry.value.replicas, rules.baseServer(spaceUrl)))
  }

  /** A replica taken from a Space on the account's own base server. */
  predicate FromOwnServer(rules: Rules, replica: Json, spaceUrl: Text) {
    rules.baseServer(FromSpace(replica)) == rules.baseServer(spaceUrl)
  }

  /** A Space that one of those was taken from. */
  ghost predicate FromReplica(rules: Rules, entry: Entry, spaceUrl: Text, u: Text) {
    exists i :: 0 <= i < |entry.replicas| && FromOwnServer(rules, entry.replicas[i], spaceUrl) && u == FromSpace(entry.replicas[i])
  }

  lemma {:induction false} OwnContainersOnly(rules: Rules, replicas: seq<Json>, base: Text, u: Text)
    requires u in OwnContainers(rules, replicas, base)
    ensures exists i :: 0 <= i < |replicas| && rules.baseServer(FromSpace(replicas[i])) == base && u == FromSpace(replicas[i])
  {
    if u in OwnContainers(rules, replicas[1..], base) {
      OwnContainersOnly(rules, replicas[1..], base, u);
      var i :| 0 <= i < |replicas[1..]| && rules.baseServer(FromSpace(replicas[1..][i])) == base && u == FromSpace(replicas[1..][i]);
      assert replicas[1..][i] == replicas[i + 1];
    } else {
      assert rules.baseServer(FromSpace(replicas[0])) == base && u == FromSpace(replicas[0]);
    }
  }

  /** The containers of an account: its own Space, and the Spaces its replicas on
      the same base server were taken from; each listed once. */
  lemma ContainersIff(rules: Rules, entry: Entry, spaceUrl: Text, u: Text)
    ensures u in AccountContainerUrls(rules, Some(entry), spaceUrl) <==>
            u == spaceUrl || FromReplica(rules, entry, spaceUrl, u)
    ensures var urls := AccountContainerUrls(rules, Some(entry), spaceUrl);
            0 < |urls| && urls[0] == spaceUrl && forall i, j :: 0 <= i < j < |urls| ==> urls[i] != urls[j]
    ensures AccountContainerUrls(rules, None, spaceUrl) == [spaceUrl]
  {
    var base, replicas := rules.baseServer(spaceUrl), entry.replicas;
    if replicas != [] {
      var own := OwnContainers(rules, replicas, base);
      DedupDistinct([spaceUrl] + own);
      DedupFirst([spaceUrl] + own);
      if u in own { OwnContainersOnly(rules, replicas, base, u); }
      forall i | 0 <= i < |replicas| && FromOwnServer(rules, replicas[i], spaceUrl) ensures FromSpace(replicas[i]) in own {
        OwnContainersMember(rules, replicas, base, i);
      }
    }
  }

  // ---- What the wallet shows

  predicate Shown(rules: Rules, entry: Entry, spaces: seq<Text>, record: Json) {
    var zcap := GrantCapability(rules, record);
    entry.id == Some(zcap.controller) && IsTargetInAnySpace(zcap.target, spaces)
  }

  function GrantOf(rules: Rules, record: Json): Grant {
    Grant(GrantCapability(rules, record), TextAt(MembersOf(Some(record)), MGrantKind) == SHARE,
          TextAt(MembersOf(Some(record)), MGrantedAt))
  }

  /** The shown grants among the first `n`, in the order recorded. */
  function ShownGrants(rules: Rules, entry: Entry, spaces: seq<Text>, n: nat): seq<Grant>
    requires n <= |entry.grants|
  {
    if n == 0 then []
    else ShownGrants(rules, entry, spaces, n - 1) +
         (if Shown(rules, entry, spaces, entry.grants[n - 1]) then [GrantOf(rules, entry.grants[n - 1])] else [])
  }

  /** A recorded grant is among the shown ones once it is shown at all. */
  lemma {:induction false} ShownIsListed(rules: Rules, entry: Entry, spaces: seq<Text>, n: nat, i: nat)
    requires i < n <= |entry.grants| && Shown(rules, entry, spaces, entry.grants[i])
    ensures GrantOf(rules, entry.grants[i]) in ShownGrants(rules, entry, spaces, n)
  {
    if i < n - 1 { ShownIsListed(rules, entry, spaces, n - 1, i); }
  }

  lemma ContainerTargets(rules: Rules, entry: Entry, spaceUrl: Text, u: Text, target: Text)
    requires (u == spaceUrl || FromReplica(rules, entry, spaceUrl, u)) && u <= target
    ensures IsTargetInAnySpace(target, AccountContainerUrls(rules, Some(entry), spaceUrl))
  {
    ContainersIff(rules, entry, spaceUrl, u);
    var urls := AccountContainerUrls(rules, Some(entry), spaceUrl);
    var k :| 0 <= k < |urls| && urls[k] == u;
    assert IsTargetInSpace(target, urls[k]);
  }

  /** A grant is shown exactly when the entry's id is its controller and its target
      lies in the account's Space or in one an own-server replica was taken from. */
  lemma ShownIff(rules: Rules, entry: Entry, spaceUrl: Text, record: Json)
    ensures Shown(rules, entry, AccountContainerUrls(rules, Some(entry), spaceUrl), record) <==>
            && entry.id == Some(GrantCapability(rules, record).controller)
            && (|| spaceUrl <= GrantCapability(rules, record).target
                || (exists i :: 0 <= i < |entry.replicas| && FromOwnServer(rules, entry.replicas[i], spaceUrl)
                                && FromSpace(entry.replicas[i]) <= GrantCapability(rules, record).target))
  {
    var urls, target := AccountContainerUrls(rules, Some(entry), spaceUrl), GrantCapability(rules, record).target;
    if IsTargetInAnySpace(target, urls) {
      var k :| 0 <= k < |urls| && IsTargetInSpace(target, urls[k]);
      ContainersIff(rules, entry, spaceUrl, urls[k]);
    }
    if spaceUrl <= target { ContainerTargets(rules, entry, spaceUrl, spaceUrl, target); }
    forall i | 0 <= i < |entry.replicas| && FromOwnServer(rules, entry.replicas[i], spaceUrl)
               && FromSpace(entry.replicas[i]) <= target
      ensures IsTargetInAnySpace(target, urls)
    {
      assert FromReplica(rules, entry, spaceUrl, FromSpace(entry.replicas[i]));
      ContainerTargets(rules, entry, spaceUrl, FromSpace(entry.replicas[i]), target);
    }
  }

  /** `picked` is the grants recorded at the indices `at`, in their order. */
  ghost predicate RecordedAt(rules: Rules, entry: Entry, at: seq<nat>, picked: seq<Grant>) {
    |picked| == |at| && forall k :: 0 <= k < |at| ==> at[k] < |entry.grants| && ShownAs(rules, entry.grants[at[k]], picked[k])
  }

  /** The grant as its record has it: a share by its kind, else one of the others. */
  predicate ShownAs(rules: Rules, record: Json, g: Grant) {
    var m := MembersOf(Some(record));
    && g.zcap == GrantCapability(rules, record) && (g.shared <==> Get(m, MGrantKind) == Some(JString(Ascii("share"))))
    && (IsText(Get(m, MGrantedAt)) ==> Get(m, MGrantedAt) == Some(JString(g.grantedAt)))
  }

  lemma {:induction false} ShownWhere(rules: Rules, entry: Entry, spaces: seq<Text>, flags: seq<bool>)
    requires |flags| <= |entry.grants|
    requires forall i :: 0 <= i < |flags| ==> flags[i] == Shown(rules, entry, spaces, entry.grants[i])
    ensures RecordedAt(rules, entry, Where(flags), ShownGrants(rules, entry, spaces, |flags|))
  {
    if flags != [] {
      var n := |flags| - 1;
      ShownWhere(rules, entry, spaces, flags[..n]);
      assert flags[n] == Shown(rules, entry, spaces, entry.grants[n]);
    }
  }

  /** What is shown is the shown grants, each once, in the order recorded. */
  lemma ShownInOrder(rules: Rules, entry: Entry, spaces: seq<Text>) returns (at: seq<nat>)
    ensures RecordedAt(rules, entry, at, ShownGrants(rules, entry, spaces, |entry.grants|)) && Ascending(at)
    ensures forall i: nat :: i in at <==> i < |entry.grants| && Shown(rules, entry, spaces, entry.grants[i])
  {
    var flags := seq(|entry.grants|, i requires 0 <= i < |entry.grants| => Shown(rules, entry, spaces, entry.grants[i]));
    ShownWhere(rules, entry, spaces, flags);
    WhereIs(flags);
    at := Where(flags);
  }

  method ConnectionGrants(rules: Rules, entry: Entry, spaceUrl: Text) returns (grants: seq<Grant>)
    ensures grants == ShownGrants(rules, entry, AccountContainerUrls(rules, Some(entry), spaceUrl), |entry.grants|)
  {
    grants := [];
    var spaceUrls := AccountContainerUrls(rules, Some(entry), spaceUrl);
    for n := 0 to |entry.grants|
      invariant grants == ShownGrants(rules, entry, spaceUrls, n)
    {
      var zcap := GrantCapability(rules, entry.grants[n]);
      if entry.id == Some(zcap.controller) && IsTargetInAnySpace(zcap.target, spaceUrls) {
        grants := grants + [GrantOf(rules, entry.grants[n])];
      }
    }
  }

  function Unexpired(grants: seq<Grant>, now: int): seq<Grant> {
    if grants == [] then []
    else Unexpired(grants[..|grants| - 1], now) +
         (if grants[|grants| - 1].zcap.expiresAt > now then [grants[|grants| - 1]] else [])
  }

  function Lapsing(grants: seq<Grant>, now: int): seq<Grant> {
    if grants == [] then []
    else Lapsing(grants[..|grants| - 1], now) +
         (if grants[|grants| - 1].zcap.expiresAt <= now then [grants[|grants| - 1]] else [])
  }

  /** Each half holds what its name says, in the order listed, and every grant is in
      exactly one of them: a grant is expired from the moment its expiry is reached. */
  lemma HalvesByExpiry(grants: seq<Grant>, now: int) returns (live: seq<nat>, expired: seq<nat>)
    ensures Keeps(grants, Unexpired(grants, now), live) && Keeps(grants, Lapsing(grants, now), expired)
    ensures forall i: nat :: i in live <==> i < |grants| && now < grants[i].zcap.expiresAt
    ensures forall i: nat :: i in expired <==> i < |grants| && grants[i].zcap.expiresAt <= now
  {
    var due := seq(|grants|, i requires 0 <= i < |grants| => grants[i].zcap.expiresAt <= now);
    var standing := seq(|grants|, i requires 0 <= i < |grants| => now < grants[i].zcap.expiresAt);
    HalvesWhere(grants, now, standing, due);
    WhereIs(standing);
    WhereIs(due);
    live, expired := Where(standing), Where(due);
  }

  /** `picked` is the listed grants at the indices `at`. */
  ghost predicate PickedAt(grants: seq<Grant>, at: seq<nat>, picked: seq<Grant>) {
    |picked| == |at| && forall k :: 0 <= k < |at| ==> at[k] < |grants| && picked[k] == grants[at[k]]
  }

  lemma {:induction false} HalvesWhere(grants: seq<Grant>, now: int, standing: seq<bool>, due: seq<bool>)
    requires |standing| == |due| == |grants|
    requires forall i :: 0 <= i < |grants| ==> due[i] == (grants[i].zcap.expiresAt <= now) && standing[i] == !due[i]
    ensures PickedAt(grants, Where(standing), Unexpired(grants, now)) && PickedAt(grants, Where(due), Lapsing(grants, now))
  {
    if grants != [] {
      var n := |grants| - 1;
      HalvesWhere(grants[..n], now, standing[..n], due[..n]);
    }
  }

  method SplitGrantsByExpiry(grants: seq<Grant>, now: int) returns (live: seq<Grant>, expired: seq<Grant>)
    ensures live == Unexpired(grants, now) && expired == Lapsing(grants, now)
  {
    live, expired := [], [];
    for n := 0 to |grants|
      invariant live == Unexpired(grants[..n], now) && expired == Lapsing(grants[..n], now)
    {
      assert grants[..n + 1][..n] == grants[..n];
      if grants[n].zcap.expiresAt <= now {
        expired := expired + [grants[n]];
      } else {
        live := live + [grants[n]];
      }
    }
    assert grants[..|grants|] == grants;
  }

  // ---- Received grants

  /** `normalizedActions`. */
  function NormalizedActions(a: AllowedAction): seq<Text> {
    match a
    case NoAction => []
    case OneAction(action) => [action]
    case ActionList(actions) => Sorted(actions)
  }

  predicate AllowsAction(a: AllowedAction, action: Text) {
    action in NormalizedActions(a)
  }

  function ReceivedOf(rules: Rules, record: Json): ReceivedGrant {
    var m := MembersOf(Some(record));
    ReceivedGrant(GrantCapability(rules, record), TextAt(m, MGrantKind) == INBOX, TimeAt(rules, m, MReceivedAt))
  }

  /** A received grant the wallet takes: delegated to its pairwise DID, outside its
      own Space, and able to POST if it is an inbox. */
  predicate Taken(g: ReceivedGrant, pairwiseDid: Text, spaceUrl: Text) {
    && g.zcap.controller == pairwiseDid && !IsTargetInSpace(g.zcap.target, spaceUrl)
    && (g.inbox ==> AllowsAction(g.zcap.allowedAction, POST))
  }

  /** The received grants taken among the first `n`, in the order stored. */
  function TakenGrants(rules: Rules, entry: Entry, pairwiseDid: Text, spaceUrl: Text, n: nat): seq<ReceivedGrant>
    requires n <= |entry.grantsReceived|
  {
    if n == 0 then []
    else
      var g := ReceivedOf(rules, entry.grantsReceived[n - 1]);
      TakenGrants(rules, entry, pairwiseDid, spaceUrl, n - 1) + (if Taken(g, pairwiseDid, spaceUrl) then [g] else [])
  }

  /** POST is among the actions of an inbox that is taken, in whatever form. */
  lemma TakenIff(g: ReceivedGrant, pairwiseDid: Text, spaceUrl: Text)
    ensures Taken(g, pairwiseDid, spaceUrl) <==>
            && g.zcap.controller == pairwiseDid && !(spaceUrl <= g.zcap.target)
            && (g.inbox ==> POST in ActionBag(g.zcap.allowedAction))
  {
    ActionsInOrder(g.zcap.allowedAction);
    assert POST in NormalizedActions(g.zcap.allowedAction) <==> POST in multiset(NormalizedActions(g.zcap.allowedAction));
  }

  /** `picked` is the received grants at the indices `at`, in their order. */
  ghost predicate ReceivedAt(rules: Rules, entry: Entry, at: seq<nat>, picked: seq<ReceivedGrant>) {
    && |picked| == |at|
    && forall k :: 0 <= k < |at| ==> at[k] < |entry.grantsReceived| && TakenAs(rules, entry.grantsReceived[at[k]], picked[k])
  }

  /** The received grant as its record has it: an inbox by its kind. */
  predicate TakenAs(rules: Rules, record: Json, g: ReceivedGrant) {
    var m := MembersOf(Some(record));
    && g.zcap == GrantCapability(rules, record) && (g.inbox <==> Get(m, MGrantKind) == Some(JString(Ascii("inbox"))))
    && (IsText(Get(m, MReceivedAt)) ==> g.receivedAt == rules.parseTime(Get(m, MReceivedAt).value.text))
  }

  lemma {:induction false} TakenWhere(rules: Rules, entry: Entry, pairwiseDid: Text, spaceUrl: Text, flags: seq<bool>)
    requires |flags| <= |entry.grantsReceived|
    requires forall i :: 0 <= i < |flags| ==> flags[i] == Taken(ReceivedOf(rules, entry.grantsReceived[i]), pairwiseDid, spaceUrl)
    ensures ReceivedAt(rules, entry, Where(flags), TakenGrants(rules, entry, pairwiseDid, spaceUrl, |flags|))
  {
    if flags != [] {
      var n := |flags| - 1;
      TakenWhere(rules, entry, pairwiseDid, spaceUrl, flags[..n]);
      assert flags[n] == Taken(ReceivedOf(rules, entry.grantsReceived[n]), pairwiseDid, spaceUrl);
    }
  }

  /** What is taken is the grants to take, each once, in the order stored. */
  lemma TakenInOrder(rules: Rules, entry: Entry, pairwiseDid: Text, spaceUrl: Text) returns (at: seq<nat>)
    ensures ReceivedAt(rules, entry, at, TakenGrants(rules, entry, pairwiseDid, spaceUrl, |entry.grantsReceived|))
    ensures Ascending(at)
    ensures forall i: nat :: i in at <==>
              i < |entry.grantsReceived| && Taken(ReceivedOf(rules, entry.grantsReceived[i]), pairwiseDid, spaceUrl)
  {
    var flags := seq(|entry.grantsReceived|, i requires 0 <= i < |entry.grantsReceived| =>
                       Taken(ReceivedOf(rules, entry.grantsReceived[i]), pairwiseDid, spaceUrl));
    TakenWhere(rules, entry, pairwiseDid, spaceUrl, flags);
    WhereIs(flags);
    at := Where(flags);
  }

  method ReceivedGrants(rules: Rules, entry: Entry, pairwiseDid: Text, spaceUrl: Text) returns (grants: seq<ReceivedGrant>)
    ensures grants == if entry.retired.Some? then []
                      else TakenGrants(rules, entry, pairwiseDid, spaceUrl, |entry.grantsReceived|)
  {
    grants := [];
    if entry.retired.Some? { return; }
    for n := 0 to |entry.grantsReceived|
      invariant grants == TakenGrants(rules, entry, pairwiseDid, spaceUrl, n)
    {
      var g := ReceivedOf(rules, entry.grantsReceived[n]);
      if g.zcap.controller == pairwiseDid && !IsTargetInSpace(g.zcap.target, spaceUrl) {
        if !g.inbox || AllowsAction(g.zcap.allowedAction, POST) {
          grants := grants + [g];
        }
      }
    }
  }

  predicate Lapsed(g: ReceivedGrant, now: int, maxLifetimeMs: int) {
    g.receivedAt.None? || g.receivedAt.value + maxLifetimeMs <= now || g.zcap.expiresAt <= now
  }

  /** An inbox that has neither outlived its longest life nor expired. */
  predicate LiveInbox(g: ReceivedGrant, now: int, maxLifetimeMs: int) {
    g.inbox && g.receivedAt.Some? && now < g.receivedAt.value + maxLifetimeMs && now < g.zcap.expiresAt
  }

  /** The last of the live inboxes whose expiry no other exceeds. */
  ghost predicate IsChannel(grants: seq<ReceivedGrant>, i: int, now: int, maxLifetimeMs: int) {
    && 0 <= i < |grants| && LiveInbox(grants[i], now, maxLifetimeMs)
    && forall j :: 0 <= j < |grants| && LiveInbox(grants[j], now, maxLifetimeMs) ==>
         grants[j].zcap.expiresAt <= grants[i].zcap.expiresAt
         && (i < j ==> grants[j].zcap.expiresAt < grants[i].zcap.expiresAt)
  }

  method LiveInboxChannel(grants: seq<ReceivedGrant>, now: int, maxLifetimeMs: int) returns (best: Option<ReceivedGrant>)
    ensures best.None? <==> forall j :: 0 <= j < |grants| ==> !LiveInbox(grants[j], now, maxLifetimeMs)
    ensures best.Some? ==> exists i :: IsChannel(grants, i, now, maxLifetimeMs) && best == Some(grants[i])
  {
    best := None;
    var bestExpires := 0;
    ghost var at := -1;
    for n := 0 to |grants|
      invariant best.None? ==> forall j :: 0 <= j < n ==> !LiveInbox(grants[j], now, maxLifetimeMs)
      invariant best.Some? ==> IsChannel(grants[..n], at, now, maxLifetimeMs)
                               && best == Some(grants[at]) && bestExpires == grants[at].zcap.expiresAt
    {
      var g := grants[n];
      if g.inbox && !Lapsed(g, now, maxLifetimeMs) {
        if best.None? || g.zcap.expiresAt >= bestExpires {
          best := Some(g);
          bestExpires := g.zcap.expiresAt;
          at := n;
        }
      }
    }
    assert grants[..|grants|] == grants;
  }

  // ---- The latest of each scope

  function GrantScopeKey(zcap: Capability): Text {
    ScopeKey(zcap.controller, zcap.target, NormalizedActions(zcap.allowedAction))
  }

  function ActionBag(a: AllowedAction): multiset<Text> {
    match a
    case NoAction => multiset{}
    case OneAction(action) => multiset{action}
    case ActionList(actions) => multiset(actions)
  }

  /** Two capabilities share a scope exactly when they have the same controller, the
      same target and the same actions, in whatever order and form. */
  lemma SameScopeIff(a: Capability, b: Capability)
    ensures GrantScopeKey(a) == GrantScopeKey(b) <==>
            a.controller == b.controller && a.target == b.target && ActionBag(a.allowedAction) == ActionBag(b.allowedAction)
  {
    ScopeKeyIsInjective(a.controller, a.target, NormalizedActions(a.allowedAction),
                        b.controller, b.target, NormalizedActions(b.allowedAction));
    ActionsInOrder(a.allowedAction);
    ActionsInOrder(b.allowedAction);
    if ActionBag(a.allowedAction) == ActionBag(b.allowedAction) {
      OrderIsUnique(NormalizedActions(a.allowedAction), NormalizedActions(b.allowedAction));
    }
  }

  lemma ActionsInOrder(a: AllowedAction)
    ensures InOrder(NormalizedActions(a)) && multiset(NormalizedActions(a)) == ActionBag(a)
  {
    if a.ActionList? { SortedKeeps(a.actions); }
  }

  /** What the loop compares of a capability. */
  datatype Scoped = Scoped(key: Text, expiresAt: int)

  function ScopedOf(zcaps: seq<Capability>): (r: seq<Scoped>)
    ensures |r| == |zcaps|
    ensures forall i :: 0 <= i < |r| ==> r[i] == Scoped(GrantScopeKey(zcaps[i]), zcaps[i].expiresAt)
  {
    seq(|zcaps|, i requires 0 <= i < |zcaps| => Scoped(GrantScopeKey(zcaps[i]), zcaps[i].expiresAt))
  }

  function KeysOf(scoped: seq<Scoped>): (r: seq<Text>)
    ensures |r| == |scoped|
    ensures forall i :: 0 <= i < |r| ==> r[i] == scoped[i].key
  {
    seq(|scoped|, i requires 0 <= i < |scoped| => scoped[i].key)
  }

  /** The last index below `n` attaining the greatest expiry of its scope there. */
  ghost predicate IsLatest(scoped: seq<Scoped>, n: nat, scope: Text, i: int)
    requires n <= |scoped|
  {
    && 0 <= i < n && scoped[i].key == scope
    && forall j :: 0 <= j < n && scoped[j].key == scope ==>
         scoped[j].expiresAt <= scoped[i].expiresAt && (i < j ==> scoped[j].expiresAt < scoped[i].expiresAt)
  }

  /** A `Map`'s keys in insertion order beside its values. */
  datatype IndexMap = IndexMap(order: seq<Text>, at: map<Text, nat>)

  ghost predicate IndexesLatest(scoped: seq<Scoped>, n: nat, latest: IndexMap)
    requires n <= |scoped|
  {
    && latest.order == Dedup(KeysOf(scoped)[..n])
    && (forall s :: s in latest.at <==> s in latest.order)
    && forall s :: s in latest.at ==> IsLatest(scoped, n, s, latest.at[s])
  }

  lemma LatestUnbeaten(scoped: seq<Scoped>, n: nat, s: Text, i: int)
    requires n < |scoped| && IsLatest(scoped, n, s, i)
    requires scoped[n].key != s || scoped[n].expiresAt < scoped[i].expiresAt
    ensures IsLatest(scoped, n + 1, s, i)
  {
  }

  lemma LatestBeaten(scoped: seq<Scoped>, n: nat, held: Option<nat>)
    requires n < |scoped|
    requires if held.Some? then IsLatest(scoped, n, scoped[n].key, held.value) && scoped[n].expiresAt >= scoped[held.value].expiresAt
             else forall j :: 0 <= j < n ==> scoped[j].key != scoped[n].key
    ensures IsLatest(scoped, n + 1, scoped[n].key, n)
  {
  }

  lemma OrderOneMore(scoped: seq<Scoped>, n: nat)
    requires n < |scoped|
    ensures Dedup(KeysOf(scoped)[..n + 1]) == Pushed(Dedup(KeysOf(scoped)[..n]), scoped[n].key)
    ensures scoped[n].key !in Dedup(KeysOf(scoped)[..n]) ==> forall j :: 0 <= j < n ==> scoped[j].key != scoped[n].key
  {
    var keys := KeysOf(scoped);
    assert keys[..n + 1] == keys[..n] + [scoped[n].key];
    DedupPush(keys[..n], scoped[n].key);
    forall j | 0 <= j < n ensures scoped[j].key in keys[..n] { assert keys[..n][j] == scoped[j].key; }
  }

  lemma IndexKept(scoped: seq<Scoped>, n: nat, latest: IndexMap)
    requires n < |scoped| && IndexesLatest(scoped, n, latest) && scoped[n].key in latest.at
    requires latest.at[scoped[n].key] < n && scoped[n].expiresAt < scoped[latest.at[scoped[n].key]].expiresAt
    ensures IndexesLatest(scoped, n + 1, latest)
  {
    OrderOneMore(scoped, n);
    forall s | s in latest.at ensures IsLatest(scoped, n + 1, s, latest.at[s]) {
      LatestUnbeaten(scoped, n, s, latest.at[s]);
    }
  }

  lemma IndexReplaced(scoped: seq<Scoped>, n: nat, latest: IndexMap)
    requires n < |scoped| && IndexesLatest(scoped, n, latest)
    requires scoped[n].key in latest.at ==>
               latest.at[scoped[n].key] < n && scoped[n].expiresAt >= scoped[latest.at[scoped[n].key]].expiresAt
    ensures IndexesLatest(scoped, n + 1, IndexMap(Pushed(latest.order, scoped[n].key), latest.at[scoped[n].key := n]))
  {
    var scope := scoped[n].key;
    OrderOneMore(scoped, n);
    LatestBeaten(scoped, n, if scope in latest.at then Some(latest.at[scope]) else None);
    forall s | s in latest.at && s != scope ensures IsLatest(scoped, n + 1, s, latest.at[s]) {
      LatestUnbeaten(scoped, n, s, latest.at[s]);
    }
  }

  /** The loop over what it compares. */
  method LatestIndexes(scoped: seq<Scoped>) returns (latest: IndexMap)
    ensures IndexesLatest(scoped, |scoped|, latest)
  {
    latest := IndexMap([], map[]);
    for n := 0 to |scoped|
      invariant IndexesLatest(scoped, n, latest)
    {
      var scope := scoped[n].key;
      assert scope in latest.at ==> IsLatest(scoped, n, scope, latest.at[scope]);
      if scope !in latest.at || scoped[n].expiresAt >= scoped[latest.at[scope]].expiresAt {
        IndexReplaced(scoped, n, latest);
        latest := IndexMap(Pushed(latest.order, scope), latest.at[scope := n]);
      } else {
        IndexKept(scoped, n, latest);
      }
    }
  }

  /** `latestIndexPerScope`: each scope in first-seen order, at its latest. */
  method LatestIndexPerScope(zcaps: seq<Capability>) returns (latest: IndexMap)
    ensures IndexesLatest(ScopedOf(zcaps), |zcaps|, latest)
  {
    latest := LatestIndexes(ScopedOf(zcaps));
  }

  /** The members an index of them keeps, in its order. */
  function Kept(scoped: seq<Scoped>, latest: IndexMap): (r: seq<Scoped>)
    requires forall s :: s in latest.order ==> s in latest.at && latest.at[s] < |scoped|
    ensures |r| == |latest.order|
    ensures forall i :: 0 <= i < |r| ==> r[i] == scoped[latest.at[latest.order[i]]]
  {
    seq(|latest.order|, i requires 0 <= i < |latest.order| => scoped[latest.at[latest.order[i]]])
  }

  ghost predicate DistinctKeys(scoped: seq<Scoped>) {
    forall j, k :: 0 <= j < k < |scoped| ==> scoped[j].key != scoped[k].key
  }

  lemma IndexInRange(scoped: seq<Scoped>, latest: IndexMap)
    requires IndexesLatest(scoped, |scoped|, latest)
    ensures forall s :: s in latest.order ==> s in latest.at && latest.at[s] < |scoped|
    ensures latest.order == Dedup(KeysOf(scoped))
  {
    assert KeysOf(scoped)[..|scoped|] == KeysOf(scoped);
    forall s | s in latest.order ensures s in latest.at && latest.at[s] < |scoped| {
      assert IsLatest(scoped, |scoped|, s, latest.at[s]);
    }
  }

  /** What is kept has one member a scope. */
  lemma KeptIsDistinct(scoped: seq<Scoped>, latest: IndexMap)
    requires IndexesLatest(scoped, |scoped|, latest)
    requires forall s :: s in latest.order ==> s in latest.at && latest.at[s] < |scoped|
    ensures DistinctKeys(Kept(scoped, latest))
  {
    IndexInRange(scoped, latest);
    DedupDistinct(KeysOf(scoped));
    var kept := Kept(scoped, latest);
    forall i | 0 <= i < |kept| ensures kept[i].key == latest.order[i] {
      assert latest.order[i] in latest.order;
      assert IsLatest(scoped, |scoped|, latest.order[i], latest.at[latest.order[i]]);
    }
  }

  lemma DistinctOrder(scoped: seq<Scoped>, latest: IndexMap)
    requires DistinctKeys(scoped) && IndexesLatest(scoped, |scoped|, latest)
    ensures latest.order == KeysOf(scoped)
  {
    IndexInRange(scoped, latest);
    DistinctIsDeduped(KeysOf(scoped));
  }

  /** Where each scope has one member, each is its own latest. */
  lemma DistinctKeepsAll(scoped: seq<Scoped>, latest: IndexMap)
    requires DistinctKeys(scoped) && IndexesLatest(scoped, |scoped|, latest)
    requires forall s :: s in latest.order ==> s in latest.at && latest.at[s] < |scoped|
    ensures Kept(scoped, latest) == scoped
  {
    DistinctOrder(scoped, latest);
    forall i | 0 <= i < |scoped| ensures Kept(scoped, latest)[i] == scoped[i] {
      assert latest.order[i] in latest.order;
      assert IsLatest(scoped, |scoped|, latest.order[i], latest.at[latest.order[i]]);
    }
  }

  /** Filtering to the latest of each scope again filters nothing. */
  lemma LatestIsIdempotent(scoped: seq<Scoped>, latest: IndexMap, again: IndexMap)
    requires IndexesLatest(scoped, |scoped|, latest)
    requires forall s :: s in latest.order ==> s in latest.at && latest.at[s] < |scoped|
    requires IndexesLatest(Kept(scoped, latest), |latest.order|, again)
    ensures forall s :: s in again.order ==> s in again.at && again.at[s] < |latest.order|
    ensures Kept(Kept(scoped, latest), again) == Kept(scoped, latest)
  {
    KeptIsDistinct(scoped, latest);
    IndexInRange(Kept(scoped, latest), again);
    DistinctKeepsAll(Kept(scoped, latest), again);
  }
}
