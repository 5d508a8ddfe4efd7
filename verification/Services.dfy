/** The service entries a document carries for the protocol: the account's pointer,
    a generation's embedded delegation and its replica pointers, as lenses over one
    matching predicate. */
module Services {
  import opened Seqs

  /** A DID; a replica server's has the one path shape its check admits. */
  datatype Did = Did(id: nat, replicaShaped: bool)

  datatype ServiceType = DelegatedClients | GenerationDelegation | ReplicaServer | OtherType(name: nat)

  /** Fragments are distinct per role; a replica's is a digest of its server's DID. */
  datatype Fragment = DelegatedClientsFragment | GenerationDelegationFragment | ReplicaFragment(server: Did)

  datatype ServiceId = At(base: Did, fragment: Fragment) | OtherId(name: nat)

  datatype Endpoint = Text(did: Did) | Json(value: nat) | OtherShape(value: nat)

  datatype Shape = StringShape | MapShape

  /** `types` is the entry's type, or its list of them; `rest` everything else. */
  datatype Service = Service(id: ServiceId, types: seq<ServiceType>, endpoint: Endpoint, rest: nat)

  predicate HasShape(e: Endpoint, shape: Shape) {
    match shape
    case StringShape => e.Text?
    case MapShape => e.Json?
  }

  predicate Matches(s: Service, t: ServiceType, shape: Shape) {
    t in s.types && HasShape(s.endpoint, shape)
  }

  /** `serviceEntriesWith`. */
  function EntriesWith(services: seq<Service>, t: ServiceType, shape: Shape): seq<Service> {
    if services == [] then []
    else (if Matches(services[0], t, shape) then [services[0]] else []) + EntriesWith(services[1..], t, shape)
  }

  lemma {:induction false} EntriesMember(services: seq<Service>, t: ServiceType, shape: Shape, s: Service)
    ensures s in EntriesWith(services, t, shape) <==> s in services && Matches(s, t, shape)
  {
    if services != [] {
      assert services == [services[0]] + services[1..];
      EntriesMember(services[1..], t, shape, s);
    }
  }

  lemma {:induction false} NoneMatches(services: seq<Service>, t: ServiceType, shape: Shape)
    ensures EntriesWith(services, t, shape) == [] <==> forall i :: 0 <= i < |services| ==> !Matches(services[i], t, shape)
  {
    if services != [] { NoneMatches(services[1..], t, shape); }
  }

  function EndpointOf(services: seq<Service>, t: ServiceType, shape: Shape): Option<Endpoint> {
    var entries := EntriesWith(services, t, shape);
    if entries == [] then None else Some(entries[0].endpoint)
  }

  /** Readers read the first matching entry, and nothing exactly when none matches. */
  lemma {:induction false} GetIsFirst(services: seq<Service>, t: ServiceType, shape: Shape, i: nat)
    requires i < |services| && Matches(services[i], t, shape)
    requires forall j :: 0 <= j < i ==> !Matches(services[j], t, shape)
    ensures EndpointOf(services, t, shape) == Some(services[i].endpoint)
  {
    if i > 0 {
      assert !Matches(services[0], t, shape);
      assert forall j :: 0 <= j < i - 1 ==> services[1..][j] == services[j + 1];
      GetIsFirst(services[1..], t, shape, i - 1);
    }
  }

  function Replaced(s: Service, t: ServiceType, shape: Shape, e: Endpoint): Service {
    if Matches(s, t, shape) then s.(endpoint := e) else s
  }

  /** Every matching entry with its endpoint replaced. */
  function Rewritten(services: seq<Service>, t: ServiceType, shape: Shape, e: Endpoint): (r: seq<Service>)
    ensures |r| == |services|
  {
    if services == [] then []
    else [Replaced(services[0], t, shape, e)] + Rewritten(services[1..], t, shape, e)
  }

  lemma {:induction false} RewrittenAt(services: seq<Service>, t: ServiceType, shape: Shape, e: Endpoint, i: nat)
    requires i < |services|
    ensures Rewritten(services, t, shape, e)[i] == Replaced(services[i], t, shape, e)
  {
    if i > 0 { RewrittenAt(services[1..], t, shape, e, i - 1); }
  }

  /** `withServiceEntry`; a fresh entry has `id`, the one type and the endpoint. */
  function WithServiceEntry(services: seq<Service>, t: ServiceType, shape: Shape, e: Endpoint, id: ServiceId): seq<Service> {
    if EntriesWith(services, t, shape) != [] then Rewritten(services, t, shape, e)
    else services + [Service(id, [t], e, 0)]
  }

  // ---- The lens laws

  lemma {:induction false} EntriesAppend(a: seq<Service>, b: seq<Service>, t: ServiceType, shape: Shape)
    ensures EntriesWith(a + b, t, shape) == EntriesWith(a, t, shape) + EntriesWith(b, t, shape)
  {
    if a == [] {
      assert a + b == b;
    } else {
      var head, tail := a[0], a[1..];
      EntriesAppend(tail, b, t, shape);
      EntriesCons(head, tail + b, t, shape);
      EntriesCons(head, tail, t, shape);
      assert a == [head] + tail && a + b == [head] + (tail + b);
    }
  }

  lemma EntriesCons(head: Service, tail: seq<Service>, t: ServiceType, shape: Shape)
    ensures EntriesWith([head] + tail, t, shape) ==
            (if Matches(head, t, shape) then [head] else []) + EntriesWith(tail, t, shape)
  {
    assert ([head] + tail)[1..] == tail;
  }

  lemma RewrittenCons(head: Service, tail: seq<Service>, t: ServiceType, shape: Shape, e: Endpoint)
    ensures Rewritten([head] + tail, t, shape, e) == [Replaced(head, t, shape, e)] + Rewritten(tail, t, shape, e)
  {
    assert ([head] + tail)[1..] == tail;
  }

  /** A rewrite leaves the same entries matching, all at the endpoint written. */
  lemma {:induction false} EntriesRewritten(services: seq<Service>, t: ServiceType, shape: Shape, e: Endpoint, i: nat)
    requires HasShape(e, shape)
    ensures |EntriesWith(Rewritten(services, t, shape, e), t, shape)| == |EntriesWith(services, t, shape)|
    ensures i < |EntriesWith(services, t, shape)| ==>
              EntriesWith(Rewritten(services, t, shape, e), t, shape)[i].endpoint == e
  {
    if services != [] {
      var head, tail := services[0], services[1..];
      EntriesCons(Replaced(head, t, shape, e), Rewritten(tail, t, shape, e), t, shape);
      EntriesRewritten(tail, t, shape, e, if Matches(head, t, shape) && i > 0 then i - 1 else i);
    }
  }

  /** What is written is what every reader reads. */
  lemma PutGet(services: seq<Service>, t: ServiceType, shape: Shape, e: Endpoint, id: ServiceId)
    requires HasShape(e, shape)
    ensures EndpointOf(WithServiceEntry(services, t, shape, e, id), t, shape) == Some(e)
    ensures forall i :: 0 <= i < |EntriesWith(WithServiceEntry(services, t, shape, e, id), t, shape)| ==>
              EntriesWith(WithServiceEntry(services, t, shape, e, id), t, shape)[i].endpoint == e
  {
    if EntriesWith(services, t, shape) != [] {
      EntriesRewritten(services, t, shape, e, 0);
      forall i | 0 <= i < |EntriesWith(services, t, shape)|
        ensures EntriesWith(Rewritten(services, t, shape, e), t, shape)[i].endpoint == e
      {
        EntriesRewritten(services, t, shape, e, i);
      }
    } else {
      EntriesAppend(services, [Service(id, [t], e, 0)], t, shape);
    }
  }

  lemma {:induction false} RewrittenTwice(services: seq<Service>, t: ServiceType, shape: Shape, e: Endpoint, f: Endpoint)
    requires HasShape(e, shape)
    ensures Rewritten(Rewritten(services, t, shape, e), t, shape, f) == Rewritten(services, t, shape, f)
  {
    if services != [] {
      RewrittenCons(Replaced(services[0], t, shape, e), Rewritten(services[1..], t, shape, e), t, shape, f);
      RewrittenTwice(services[1..], t, shape, e, f);
    }
  }

  lemma {:induction false} RewrittenNothing(services: seq<Service>, t: ServiceType, shape: Shape, e: Endpoint)
    requires EntriesWith(services, t, shape) == []
    ensures Rewritten(services, t, shape, e) == services
  {
    if services != [] { RewrittenNothing(services[1..], t, shape, e); }
  }

  lemma {:induction false} RewrittenAppend(a: seq<Service>, b: seq<Service>, t: ServiceType, shape: Shape, e: Endpoint)
    ensures Rewritten(a + b, t, shape, e) == Rewritten(a, t, shape, e) + Rewritten(b, t, shape, e)
  {
    if a == [] {
      assert a + b == b;
    } else {
      assert a + b == [a[0]] + (a[1..] + b);
      RewrittenCons(a[0], a[1..] + b, t, shape, e);
      RewrittenAppend(a[1..], b, t, shape, e);
    }
  }

  /** The last write wins, whatever stood before; so writing twice is writing once. */
  lemma PutPut(services: seq<Service>, t: ServiceType, shape: Shape, e: Endpoint, f: Endpoint, id: ServiceId)
    requires HasShape(e, shape) && HasShape(f, shape)
    ensures WithServiceEntry(WithServiceEntry(services, t, shape, e, id), t, shape, f, id) ==
            WithServiceEntry(services, t, shape, f, id)
  {
    PutGet(services, t, shape, e, id);
    if EntriesWith(services, t, shape) != [] {
      RewrittenTwice(services, t, shape, e, f);
    } else {
      var added := [Service(id, [t], e, 0)];
      RewrittenAppend(services, added, t, shape, f);
      RewrittenNothing(services, t, shape, f);
      RewrittenCons(added[0], [], t, shape, f);
    }
  }

  /** Writing back what is read changes nothing exactly when the matching entries
      agree: the writer replaces every one of them, the reader takes the first. */
  lemma GetPutIffAgreeing(services: seq<Service>, t: ServiceType, shape: Shape, id: ServiceId)
    requires EndpointOf(services, t, shape).Some?
    ensures var e := EndpointOf(services, t, shape).value;
            WithServiceEntry(services, t, shape, e, id) == services <==>
            forall i :: 0 <= i < |services| && Matches(services[i], t, shape) ==> services[i].endpoint == e
  {
    var e := EndpointOf(services, t, shape).value;
    var r := Rewritten(services, t, shape, e);
    forall i | 0 <= i < |services| ensures r[i] == Replaced(services[i], t, shape, e) { RewrittenAt(services, t, shape, e, i); }
  }

  /** A write keeps every entry's id, types and other members, in place, and every
      entry it does not match whole. */
  lemma OthersKept(services: seq<Service>, t: ServiceType, shape: Shape, e: Endpoint, id: ServiceId, i: nat)
    requires i < |services|
    ensures var r := WithServiceEntry(services, t, shape, e, id);
            && |services| <= |r| <= |services| + 1
            && r[i] == services[i].(endpoint := r[i].endpoint)
            && (!Matches(services[i], t, shape) ==> r[i] == services[i])
            && (|r| == |services| + 1 <==> forall j :: 0 <= j < |services| ==> !Matches(services[j], t, shape))
  {
    NoneMatches(services, t, shape);
    RewrittenAt(services, t, shape, e, i);
  }

  function IdsOf(services: seq<Service>): (r: seq<ServiceId>)
    ensures |r| == |services|
    ensures forall i :: 0 <= i < |r| ==> r[i] == services[i].id
  {
    seq(|services|, i requires 0 <= i < |services| => services[i].id)
  }

  ghost predicate Distinct(ids: seq<ServiceId>) {
    forall i, j :: 0 <= i < j < |ids| ==> ids[i] != ids[j]
  }

  lemma IdsRewritten(services: seq<Service>, t: ServiceType, shape: Shape, e: Endpoint)
    ensures IdsOf(Rewritten(services, t, shape, e)) == IdsOf(services)
  {
    forall i | 0 <= i < |services| ensures Rewritten(services, t, shape, e)[i].id == services[i].id {
      RewrittenAt(services, t, shape, e, i);
    }
  }

  /** Ids stay distinct exactly when the entry was there to rewrite, or nothing
      unmatched holds the fresh entry's id. */
  lemma IdsDistinctIff(services: seq<Service>, t: ServiceType, shape: Shape, e: Endpoint, id: ServiceId)
    requires Distinct(IdsOf(services))
    ensures Distinct(IdsOf(WithServiceEntry(services, t, shape, e, id))) <==>
            EntriesWith(services, t, shape) != [] || id !in IdsOf(services)
  {
    if EntriesWith(services, t, shape) != [] {
      IdsRewritten(services, t, shape, e);
    } else {
      var r := IdsOf(WithServiceEntry(services, t, shape, e, id));
      assert r == IdsOf(services) + [id];
      if id in IdsOf(services) {
        var i :| 0 <= i < |services| && IdsOf(services)[i] == id;
        assert r[i] == r[|services|];
      }
    }
  }

  /** An entry whose write would show in another reader: it answers to both, and
      holds another value than the one written. */
  predicate Shared(s: Service, t: ServiceType, shape: Shape, e: Endpoint, u: ServiceType, other: Shape) {
    Matches(s, t, shape) && Matches(s, u, other) && s.endpoint != e
  }

  lemma SameTail(a: seq<Service>, b: seq<Service>, x: seq<Service>, y: seq<Service>)
    requires |a| == |b|
    ensures a + x == b + y <==> a == b && x == y
  {
    if a + x == b + y {
      assert a == (a + x)[..|a|] && b == (b + y)[..|b|];
      assert x == (a + x)[|a|..] && y == (b + y)[|b|..];
    }
  }

  lemma HeadRewritten(head: Service, tail: seq<Service>, t: ServiceType, shape: Shape, e: Endpoint,
                      u: ServiceType, other: Shape)
    requires HasShape(e, shape)
    ensures EntriesWith(Rewritten([head] + tail, t, shape, e), u, other) == EntriesWith([head] + tail, u, other) <==>
            !Shared(head, t, shape, e, u, other)
            && EntriesWith(Rewritten(tail, t, shape, e), u, other) == EntriesWith(tail, u, other)
  {
    EntriesCons(Replaced(head, t, shape, e), Rewritten(tail, t, shape, e), u, other);
    SameTail(if Matches(Replaced(head, t, shape, e), u, other) then [Replaced(head, t, shape, e)] else [],
             if Matches(head, u, other) then [head] else [],
             EntriesWith(Rewritten(tail, t, shape, e), u, other), EntriesWith(tail, u, other));
  }

  lemma {:induction false} OtherReadersRewritten(services: seq<Service>, t: ServiceType, shape: Shape, e: Endpoint,
                                                 u: ServiceType, other: Shape)
    requires HasShape(e, shape)
    ensures EntriesWith(Rewritten(services, t, shape, e), u, other) == EntriesWith(services, u, other) <==>
            forall i :: 0 <= i < |services| ==> !Shared(services[i], t, shape, e, u, other)
  {
    if services != [] {
      var head, tail := services[0], services[1..];
      OtherReadersRewritten(tail, t, shape, e, u, other);
      HeadRewritten(head, tail, t, shape, e, u, other);
      assert services == [head] + tail;
    }
  }

  /** Two readers' writers leave each other alone exactly when no entry answers to
      both (or such an entry already holds the value written). Readers of different
      shapes never share one. */
  lemma WritersIndependentIff(services: seq<Service>, t: ServiceType, shape: Shape, e: Endpoint, id: ServiceId,
                              u: ServiceType, other: Shape)
    requires HasShape(e, shape) && t != u
    ensures EntriesWith(WithServiceEntry(services, t, shape, e, id), u, other) == EntriesWith(services, u, other) <==>
            forall i :: 0 <= i < |services| ==> !Shared(services[i], t, shape, e, u, other)
    ensures shape != other ==>
              EntriesWith(WithServiceEntry(services, t, shape, e, id), u, other) == EntriesWith(services, u, other)
  {
    if EntriesWith(services, t, shape) != [] {
      OtherReadersRewritten(services, t, shape, e, u, other);
    } else {
      NoneMatches(services, t, shape);
      EntriesAppend(services, [Service(id, [t], e, 0)], u, other);
    }
  }

  // ---- The three kinds of entry

  function DelegatedClientsPointer(services: seq<Service>): Option<Endpoint> {
    EndpointOf(services, DelegatedClients, StringShape)
  }

  function EmbeddedGenerationDelegation(services: seq<Service>): Option<Endpoint> {
    EndpointOf(services, GenerationDelegation, MapShape)
  }

  function WithGenerationDelegationEntry(services: seq<Service>, annex: Did, delegation: nat): seq<Service> {
    WithServiceEntry(services, GenerationDelegation, MapShape, Json(delegation), At(annex, GenerationDelegationFragment))
  }

  function ServersOf(entries: seq<Service>): seq<Did>
    requires forall s :: s in entries ==> s.endpoint.Text?
  {
    if entries == [] then [] else [entries[0].endpoint.did] + ServersOf(entries[1..])
  }

  function TextEntries(services: seq<Service>): (r: seq<Service>)
    ensures forall s :: s in r ==> s.endpoint.Text?
  {
    forall s ensures s in EntriesWith(services, ReplicaServer, StringShape) ==> s.endpoint.Text? {
      EntriesMember(services, ReplicaServer, StringShape, s);
    }
    EntriesWith(services, ReplicaServer, StringShape)
  }

  function ReplicaServerPointers(services: seq<Service>): seq<Did> {
    Dedup(ServersOf(TextEntries(services)))
  }

  function ReplicaServersMissing(services: seq<Service>, servers: seq<Did>): seq<Did> {
    Without(Dedup(servers), SetOf(ReplicaServerPointers(services)))
  }

  function ReplicaEntries(annex: Did, servers: seq<Did>): (r: seq<Service>)
    ensures |r| == |servers|
    ensures forall i :: 0 <= i < |r| ==> r[i] == Service(At(annex, ReplicaFragment(servers[i])), [ReplicaServer], Text(servers[i]), 0)
  {
    seq(|servers|, i requires 0 <= i < |servers| =>
      Service(At(annex, ReplicaFragment(servers[i])), [ReplicaServer], Text(servers[i]), 0))
  }

  datatype InstallError = NotAReplicaServer | IdTaken

  function ReplicaPointerInstaller(services: seq<Service>, annex: Did, servers: seq<Did>)
    : Result<seq<Service>, InstallError>
  {
    if exists d :: d in servers && !d.replicaShaped then Failure(NotAReplicaServer)
    else
      var added := ReplicaEntries(annex, ReplicaServersMissing(services, servers));
      if exists s :: s in added && s.id in IdsOf(services) then Failure(IdTaken) else Success(added)
  }

  /** The delegation entry, then the replica pointers still missing. */
  function WithInstalledEntries(services: seq<Service>, annex: Did, delegation: nat, servers: seq<Did>)
    : Result<seq<Service>, InstallError>
  {
    match ReplicaPointerInstaller(services, annex, servers)
    case Failure(err) => Failure(err)
    case Success(added) => Success(WithGenerationDelegationEntry(services, annex, delegation) + added)
  }

  lemma {:induction false} EntriesOfReplicas(annex: Did, servers: seq<Did>)
    ensures EntriesWith(ReplicaEntries(annex, servers), ReplicaServer, StringShape) == ReplicaEntries(annex, servers)
    ensures EntriesWith(ReplicaEntries(annex, servers), GenerationDelegation, MapShape) == []
    ensures EntriesWith(ReplicaEntries(annex, servers), DelegatedClients, StringShape) == []
    ensures ServersOf(ReplicaEntries(annex, servers)) == servers
  {
    if servers != [] {
      EntriesOfReplicas(annex, servers[1..]);
      assert ReplicaEntries(annex, servers)[1..] == ReplicaEntries(annex, servers[1..]);
    }
  }

  lemma {:induction false} ServersAppend(a: seq<Service>, b: seq<Service>)
    requires (forall s :: s in a ==> s.endpoint.Text?) && (forall s :: s in b ==> s.endpoint.Text?)
    ensures ServersOf(a + b) == ServersOf(a) + ServersOf(b)
  {
    if a == [] {
      assert a + b == b;
    } else {
      assert (a + b)[0] == a[0] && (a + b)[1..] == a[1..] + b;
      ServersAppend(a[1..], b);
    }
  }

  /** The pointers after an install: those that stood, then the missing ones. */
  lemma InstalledPointers(services: seq<Service>, annex: Did, delegation: nat, servers: seq<Did>)
    ensures var r := WithGenerationDelegationEntry(services, annex, delegation) +
                     ReplicaEntries(annex, ReplicaServersMissing(services, servers));
            ReplicaServerPointers(r) ==
            Dedup(ServersOf(TextEntries(services)) + ReplicaServersMissing(services, servers))
  {
    var delegated := WithGenerationDelegationEntry(services, annex, delegation);
    var missing := ReplicaServersMissing(services, servers);
    var id := At(annex, GenerationDelegationFragment);
    WritersIndependentIff(services, GenerationDelegation, MapShape, Json(delegation), id, ReplicaServer, StringShape);
    EntriesAppend(delegated, ReplicaEntries(annex, missing), ReplicaServer, StringShape);
    EntriesOfReplicas(annex, missing);
    ServersAppend(TextEntries(services), ReplicaEntries(annex, missing));
  }

  lemma MissingMembers(services: seq<Service>, servers: seq<Did>, d: Did)
    ensures d in Dedup(ServersOf(TextEntries(services)) + ReplicaServersMissing(services, servers)) <==>
            d in ReplicaServerPointers(services) || d in servers
  {
  }

  /** An install reads back: the delegation is the one installed, every listed
      server has its pointer, no pointer that stood is gone, and the account
      pointer is where it was. */
  lemma InstallReadsBack(services: seq<Service>, annex: Did, delegation: nat, servers: seq<Did>)
    requires WithInstalledEntries(services, annex, delegation, servers).Success?
    ensures var r := WithInstalledEntries(services, annex, delegation, servers).value;
            && EmbeddedGenerationDelegation(r) == Some(Json(delegation))
            && DelegatedClientsPointer(r) == DelegatedClientsPointer(services)
            && (forall d :: d in ReplicaServerPointers(r) <==> d in ReplicaServerPointers(services) || d in servers)
            && ReplicaServersMissing(r, servers) == []
  {
    var r := WithInstalledEntries(services, annex, delegation, servers).value;
    InstallEmbeds(services, annex, delegation, ReplicaServersMissing(services, servers));
    InstalledPointers(services, annex, delegation, servers);
    forall d ensures d in ReplicaServerPointers(r) <==> d in ReplicaServerPointers(services) || d in servers {
      MissingMembers(services, servers, d);
    }
    WithoutAll(Dedup(servers), SetOf(ReplicaServerPointers(r)));
  }

  lemma InstallEmbeds(services: seq<Service>, annex: Did, delegation: nat, missing: seq<Did>)
    ensures var r := WithGenerationDelegationEntry(services, annex, delegation) + ReplicaEntries(annex, missing);
            && EmbeddedGenerationDelegation(r) == Some(Json(delegation))
            && DelegatedClientsPointer(r) == DelegatedClientsPointer(services)
  {
    var id := At(annex, GenerationDelegationFragment);
    var delegated := WithGenerationDelegationEntry(services, annex, delegation);
    EntriesOfReplicas(annex, missing);
    PutGet(services, GenerationDelegation, MapShape, Json(delegation), id);
    EntriesAppend(delegated, ReplicaEntries(annex, missing), GenerationDelegation, MapShape);
    EntriesAppend(delegated, ReplicaEntries(annex, missing), DelegatedClients, StringShape);
    WritersIndependentIff(services, GenerationDelegation, MapShape, Json(delegation), id, DelegatedClients, StringShape);
  }

  /** An install is refused exactly when a server listed is no replica server, or one
      not pointed at yet finds its entry's id taken. */
  lemma InstallRefusedIff(services: seq<Service>, annex: Did, delegation: nat, servers: seq<Did>)
    ensures WithInstalledEntries(services, annex, delegation, servers) == Failure(NotAReplicaServer) <==>
            exists d :: d in servers && !d.replicaShaped
    ensures WithInstalledEntries(services, annex, delegation, servers) == Failure(IdTaken) <==>
            && (forall d :: d in servers ==> d.replicaShaped)
            && exists d :: d in servers && d !in ReplicaServerPointers(services) && At(annex, ReplicaFragment(d)) in IdsOf(services)
  {
    var missing := ReplicaServersMissing(services, servers);
    var added := ReplicaEntries(annex, missing);
    forall d ensures d in missing <==> d in servers && d !in ReplicaServerPointers(services) {
    }
    forall i | 0 <= i < |added| && added[i].id in IdsOf(services)
      ensures missing[i] in missing && At(annex, ReplicaFragment(missing[i])) in IdsOf(services)
    {
    }
    forall d | d in missing && At(annex, ReplicaFragment(d)) in IdsOf(services)
      ensures exists s :: s in added && s.id in IdsOf(services)
    {
      var i :| 0 <= i < |missing| && missing[i] == d;
      assert added[i] in added;
    }
  }

  /** An install leaves every entry but the delegation's where and as it was. */
  lemma InstallKeepsOthers(services: seq<Service>, annex: Did, delegation: nat, servers: seq<Did>, i: nat)
    requires WithInstalledEntries(services, annex, delegation, servers).Success?
    requires i < |services| && !Matches(services[i], GenerationDelegation, MapShape)
    ensures var r := WithInstalledEntries(services, annex, delegation, servers).value;
            |services| <= |r| && r[i] == services[i]
  {
    OthersKept(services, GenerationDelegation, MapShape, Json(delegation), At(annex, GenerationDelegationFragment), i);
  }

  /** Installing again adds no pointer. */
  lemma InstallIdempotent(services: seq<Service>, annex: Did, delegation: nat, servers: seq<Did>)
    requires WithInstalledEntries(services, annex, delegation, servers).Success?
    ensures var once := WithInstalledEntries(services, annex, delegation, servers).value;
            ReplicaPointerInstaller(once, annex, servers) == Success([])
  {
    InstallReadsBack(services, annex, delegation, servers);
  }

  lemma InstalledIdsDistinct(services: seq<Service>, annex: Did, delegation: nat, servers: seq<Did>)
    requires Distinct(IdsOf(services)) && WithInstalledEntries(services, annex, delegation, servers).Success?
    requires Distinct(IdsOf(WithGenerationDelegationEntry(services, annex, delegation)))
    ensures Distinct(IdsOf(WithInstalledEntries(services, annex, delegation, servers).value))
  {
    var id := At(annex, GenerationDelegationFragment);
    var delegated := WithGenerationDelegationEntry(services, annex, delegation);
    var missing := ReplicaServersMissing(services, servers);
    var added := ReplicaEntries(annex, missing);
    DedupDistinct(servers);
    WithoutDistinct(Dedup(servers), SetOf(ReplicaServerPointers(services)));
    var r := IdsOf(delegated + added);
    forall i, j | 0 <= i < j < |r| ensures r[i] != r[j] {
      if i < |services| && |delegated| <= j {
        OthersKept(services, GenerationDelegation, MapShape, Json(delegation), id, i);
        assert added[j - |delegated|] in added;
        assert services[i].id == IdsOf(services)[i];
      } else if j < |delegated| {
        assert r[i] == IdsOf(delegated)[i] && r[j] == IdsOf(delegated)[j];
      }
    }
  }

  /** Ids stay distinct through an install exactly when the delegation's own write
      keeps them so: the installer refuses any replica id already taken. */
  lemma InstallKeepsIdsDistinct(services: seq<Service>, annex: Did, delegation: nat, servers: seq<Did>)
    requires Distinct(IdsOf(services)) && WithInstalledEntries(services, annex, delegation, servers).Success?
    ensures Distinct(IdsOf(WithInstalledEntries(services, annex, delegation, servers).value)) <==>
            || EntriesWith(services, GenerationDelegation, MapShape) != []
            || At(annex, GenerationDelegationFragment) !in IdsOf(services)
  {
    var id := At(annex, GenerationDelegationFragment);
    IdsDistinctIff(services, GenerationDelegation, MapShape, Json(delegation), id);
    var delegated := WithGenerationDelegationEntry(services, annex, delegation);
    var after := WithInstalledEntries(services, annex, delegation, servers).value;
    if Distinct(IdsOf(delegated)) {
      InstalledIdsDistinct(services, annex, delegation, servers);
    } else {
      var i, j :| 0 <= i < j < |delegated| && IdsOf(delegated)[i] == IdsOf(delegated)[j];
      assert IdsOf(after)[i] == IdsOf(delegated)[i] && IdsOf(after)[j] == IdsOf(delegated)[j];
    }
  }
}
