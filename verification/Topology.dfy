/** From what SMD lists to the rows the mapping tables should hold (buildDesiredMappings in sync/smd_sync.go). */
module Topology {
  import opened Text
  import opened Records
  import opened MappingTables

  datatype Component = Component(id: string, kind: string, parentID: Option<string>)

  /** `addresses` is the decoded `ipAddrs` list. */
  datatype Interface = Interface(componentID: string, addresses: seq<string>)

  predicate IsBMC(kind: string) {
    EqualFold(TrimSpace(kind), "BMC")
  }

  predicate IsNode(kind: string) {
    EqualFold(TrimSpace(kind), "Node")
  }

  /** The BMCs to keep an endpoint for, and the BMC of each node. */
  datatype Seen = Seen(bmcs: set<string>, nodeToBMC: map<string, string>)

  function ParentOf(c: Component): string {
    match c.parentID
    case None => ""
    case Some(p) => TrimSpace(p)
  }

  function See(before: Seen, c: Component): Seen {
    var id, parent := TrimSpace(c.id), ParentOf(c);
    if id == "" then before
    else
      var first := if IsBMC(TrimSpace(c.kind)) then before.(bmcs := before.bmcs + {id}) else before;
      if IsNode(TrimSpace(c.kind)) && parent != "" then Seen(first.bmcs + {parent}, first.nodeToBMC[id := parent])
        else first
  }

  function SeenIn(components: seq<Component>): Seen {
    if components == [] then Seen({}, map[])
      else See(SeenIn(components[..|components| - 1]), components[|components| - 1])
  }

  /** `endpointFromIPAddrs`: the first address that can be normalised. */
  function FirstEndpoint(addresses: seq<string>, normalize: string -> string): string {
    if addresses == [] then ""
    else if normalize(addresses[0]) != "" then normalize(addresses[0])
    else FirstEndpoint(addresses[1..], normalize)
  }

  /** `bmcEndpointFromSMD`: for each tracked BMC, its first interface with a usable address. */
  function FromSMD(interfaces: seq<Interface>, bmcs: set<string>, normalize: string -> string): map<string, string> {
    if interfaces == [] then map[]
    else
      var before := FromSMD(interfaces[..|interfaces| - 1], bmcs, normalize);
      var i := interfaces[|interfaces| - 1];
      var id, endpoint := TrimSpace(i.componentID), FirstEndpoint(i.addresses, normalize);
      if id == "" || id !in bmcs || id in before || endpoint == "" then before else before[id := endpoint]
  }

  function ExistingByBMC(existing: seq<Endpoint>): map<string, Endpoint> {
    if existing == [] then map[]
    else
      var last := existing[|existing| - 1];
      ExistingByBMC(existing[..|existing| - 1])[TrimSpace(last.bmcID) := last]
  }

  const ZERO := Endpoint("", "", "", false, "", 0, 0, 0)

  function Lookup<T>(m: map<string, T>, k: string, zero: T): T {
    if k in m then m[k] else zero
  }

  function Preferred(a: string, b: string): string {
    if TrimSpace(a) == "" then TrimSpace(b) else TrimSpace(a)
  }

  /** The address SMD knows, else the one in the table; the credential in the table, else the default; the TLS flag of
      the table. */
  function DesiredEndpoint(bmcID: string, smd: map<string, string>, existing: map<string, Endpoint>,
                           defaultCredentialID: string): Endpoint {
    var e := Lookup(existing, bmcID, ZERO);
    Endpoint(bmcID, Preferred(Lookup(smd, bmcID, ""), e.endpoint), Preferred(e.credentialID, defaultCredentialID),
             e.insecureSkipVerify, "smd", 0, 0, 0)
  }

  ghost function DesiredEndpoints(components: seq<Component>, interfaces: seq<Interface>, existing: seq<Endpoint>,
                                  credential: string, normalize: string -> string):
    (r: seq<Endpoint>)
  {
    var seen := SeenIn(components);
    var smd, known, keys := FromSMD(interfaces, seen.bmcs, normalize), ExistingByBMC(existing), SortedKeys(seen.bmcs);
    seq(|keys|, i requires 0 <= i < |keys| => DesiredEndpoint(keys[i], smd, known, credential))
  }

  ghost function DesiredLinks(components: seq<Component>): (r: seq<Link>) {
    var nodes := SeenIn(components).nodeToBMC;
    var keys := SortedKeys(nodes.Keys);
    seq(|keys|, i requires 0 <= i < |keys| => Link(keys[i], Lookup(nodes, keys[i], ""), "smd", 0, 0, 0))
  }

  // ---------------------------------------------------------------- the merge

  method ReadComponents(components: seq<Component>) returns (bmcIDs: set<string>, nodeToBMC: map<string, string>)
    ensures Seen(bmcIDs, nodeToBMC) == SeenIn(components)
  {
    hide TrimSpace, EqualFold;
    bmcIDs, nodeToBMC := {}, map[];
    for i := 0 to |components|
      invariant Seen(bmcIDs, nodeToBMC) == SeenIn(components[..i])
    {
      assert components[..i + 1][..i] == components[..i];
      var componentID := TrimSpace(components[i].id);
      if componentID == "" {
        continue;
      }
      var parentID := "";
      if components[i].parentID.Some? {
        parentID := TrimSpace(components[i].parentID.value);
      }
      var componentType := TrimSpace(components[i].kind);
      if IsBMC(componentType) {
        bmcIDs := bmcIDs + {componentID};
      }
      if IsNode(componentType) && parentID != "" {
        nodeToBMC := nodeToBMC[componentID := parentID];
        bmcIDs := bmcIDs + {parentID};
      }
    }
    assert components[..|components|] == components;
  }

  method EndpointFromIPAddrs(addresses: seq<string>, normalize: string -> string) returns (endpoint: string)
    ensures endpoint == FirstEndpoint(addresses, normalize)
  {
    for i := 0 to |addresses|
      invariant FirstEndpoint(addresses, normalize) == FirstEndpoint(addresses[i..], normalize)
    {
      endpoint := normalize(addresses[i]);
      if endpoint != "" {
        return;
      }
    }
    return "";
  }

  method ReadInterfaces(interfaces: seq<Interface>, bmcIDs: set<string>,
                        normalize: string -> string) returns (smd: map<string, string>)
    ensures smd == FromSMD(interfaces, bmcIDs, normalize)
  {
    hide TrimSpace, FirstEndpoint;
    smd := map[];
    for i := 0 to |interfaces|
      invariant smd == FromSMD(interfaces[..i], bmcIDs, normalize)
    {
      assert interfaces[..i + 1][..i] == interfaces[..i];
      var componentID := TrimSpace(interfaces[i].componentID);
      if componentID == "" || componentID !in bmcIDs || componentID in smd {
        continue;
      }
      var endpoint := EndpointFromIPAddrs(interfaces[i].addresses, normalize);
      if endpoint != "" {
        smd := smd[componentID := endpoint];
      }
    }
    assert interfaces[..|interfaces|] == interfaces;
  }

  method IndexExisting(existing: seq<Endpoint>) returns (existingByBMC: map<string, Endpoint>)
    ensures existingByBMC == ExistingByBMC(existing)
  {
    hide TrimSpace;
    existingByBMC := map[];
    for i := 0 to |existing|
      invariant existingByBMC == ExistingByBMC(existing[..i])
    {
      assert existing[..i + 1][..i] == existing[..i];
      existingByBMC := existingByBMC[TrimSpace(existing[i].bmcID) := existing[i]];
    }
    assert existing[..|existing|] == existing;
  }

  method MergeEndpoints(bmcIDs: seq<string>, smd: map<string, string>, existing: map<string, Endpoint>,
                        defaultCredentialID: string) returns (endpoints: seq<Endpoint>)
    ensures |endpoints| == |bmcIDs|
    ensures forall i :: 0 <= i < |bmcIDs| ==>
             endpoints[i] == DesiredEndpoint(bmcIDs[i], smd, existing, defaultCredentialID)
  {
    hide TrimSpace;
    endpoints := [];
    for i := 0 to |bmcIDs|
      invariant |endpoints| == i
      invariant forall j :: 0 <= j < i ==>
                 endpoints[j] == DesiredEndpoint(bmcIDs[j], smd, existing, defaultCredentialID)
    {
      var bmcID := bmcIDs[i];
      var e := Lookup(existing, bmcID, ZERO);
      var endpoint := TrimSpace(Lookup(smd, bmcID, ""));
      if endpoint == "" {
        endpoint := TrimSpace(e.endpoint);
      }
      var credentialID := TrimSpace(e.credentialID);
      if credentialID == "" {
        credentialID := TrimSpace(defaultCredentialID);
      }
      endpoints := endpoints + [Endpoint(bmcID, endpoint, credentialID, e.insecureSkipVerify, "smd", 0, 0, 0)];
    }
  }

  method MergeLinks(nodeIDs: seq<string>, nodeToBMC: map<string, string>) returns (links: seq<Link>)
    ensures |links| == |nodeIDs|
    ensures forall i :: 0 <= i < |nodeIDs| ==>
             links[i] == Link(nodeIDs[i], Lookup(nodeToBMC, nodeIDs[i], ""), "smd", 0, 0, 0)
  {
    links := [];
    for i := 0 to |nodeIDs|
      invariant |links| == i
      invariant forall j :: 0 <= j < i ==>
                 links[j] == Link(nodeIDs[j], Lookup(nodeToBMC, nodeIDs[j], ""), "smd", 0, 0, 0)
    {
      links := links + [Link(nodeIDs[i], Lookup(nodeToBMC, nodeIDs[i], ""), "smd", 0, 0, 0)];
    }
  }

  method BuildDesiredMappings(components: seq<Component>, interfaces: seq<Interface>, existing: seq<Endpoint>,
                              defaultCredentialID: string, normalize: string -> string)
    returns (endpoints: seq<Endpoint>, links: seq<Link>)
    ensures endpoints == DesiredEndpoints(components, interfaces, existing, defaultCredentialID, normalize)
    ensures links == DesiredLinks(components)
    ensures IsMerge(components, interfaces, existing, defaultCredentialID, normalize, endpoints, links)
  {
    hide FromSMD, SeenIn, ExistingByBMC, DesiredEndpoint, SortedKeys, Lookup, IsMerge;
    MergeMeans(components, interfaces, existing, defaultCredentialID, normalize);
    var bmcIDs, nodeToBMC := ReadComponents(components);
    var smd := ReadInterfaces(interfaces, bmcIDs, normalize);
    var existingByBMC := IndexExisting(existing);
    var bmcIDList := CollectKeys(map k | k in bmcIDs :: true);
    assert (map k | k in bmcIDs :: true).Keys == bmcIDs;
    endpoints := MergeEndpoints(bmcIDList, smd, existingByBMC, defaultCredentialID);
    var nodeIDs := CollectKeys(nodeToBMC);
    links := MergeLinks(nodeIDs, nodeToBMC);
  }

  // ---------------------------------------------------------------- what the desired rows are

  /** The keys SMD gives are trimmed and not blank, and every node's BMC is one of the BMCs. */
  lemma {:induction false} SeenTidy(components: seq<Component>)
    ensures var seen := SeenIn(components);
            && (forall k :: k in seen.bmcs ==> Trimmed(k) && k != "")
            && (forall n :: n in seen.nodeToBMC ==> Trimmed(n) && n != "" && seen.nodeToBMC[n] in seen.bmcs)
  {
    hide TrimSpace, Trimmed, EqualFold;
    if components != [] {
      SeenTidy(components[..|components| - 1]);
    }
  }

  lemma {:induction false} ByBMCOf(endpoints: seq<Endpoint>, keys: seq<string>, f: string -> Endpoint)
    requires |endpoints| == |keys| && forall i :: 0 <= i < |keys| ==> endpoints[i] == f(keys[i])
    requires forall i :: 0 <= i < |keys| ==>
              f(keys[i]).bmcID == keys[i] && keys[i] != "" && CleanEndpoint(f(keys[i])) == f(keys[i])
    ensures ByBMC(endpoints).Keys == Elements(keys)
    ensures forall k :: k in ByBMC(endpoints) ==> ByBMC(endpoints)[k] == f(k)
  {
    hide CleanEndpoint;
    if endpoints != [] {
      var n := |keys| - 1;
      ByBMCOf(endpoints[..n], keys[..n], f);
      assert Elements(keys) == Elements(keys[..n]) + {keys[n]} by { assert keys == keys[..n] + [keys[n]]; }
    }
  }

  lemma {:induction false} ByNodeOf(links: seq<Link>, keys: seq<string>, f: string -> Link)
    requires |links| == |keys| && forall i :: 0 <= i < |keys| ==> links[i] == f(keys[i])
    requires forall i :: 0 <= i < |keys| ==>
              f(keys[i]).nodeID == keys[i] && keys[i] != "" && f(keys[i]).bmcID != "" &&
              CleanLink(f(keys[i])) == f(keys[i])
    ensures ByNode(links).Keys == Elements(keys)
    ensures forall k :: k in ByNode(links) ==> ByNode(links)[k] == f(k)
  {
    hide CleanLink;
    if links != [] {
      var n := |keys| - 1;
      ByNodeOf(links[..n], keys[..n], f);
      assert Elements(keys) == Elements(keys[..n]) + {keys[n]} by { assert keys == keys[..n] + [keys[n]]; }
    }
  }

  /** A merged endpoint is in the form the store would give it. */
  lemma DesiredClean(bmcID: string, smd: map<string, string>, existing: map<string, Endpoint>, credential: string)
    requires Trimmed(bmcID) && bmcID != ""
    ensures var e := DesiredEndpoint(bmcID, smd, existing, credential);
            CleanEndpoint(e) == e && e.bmcID == bmcID
  {
    hide TrimSpace, Trimmed;
    assert TrimSpace("smd") == "smd" by { SmdTrimmed(); }
  }

  lemma SmdTrimmed()
    ensures TrimSpace("smd") == "smd"
  {
    assert Trimmed("smd");
  }

  /** The store's normalisation keeps the merged endpoints as they are. */
  lemma DesiredByBMC(components: seq<Component>, interfaces: seq<Interface>, existing: seq<Endpoint>,
                     credential: string,
                     normalize: string -> string)
    ensures var seen := SeenIn(components);
            var smd := FromSMD(interfaces, seen.bmcs, normalize);
            var byBMC := ByBMC(DesiredEndpoints(components, interfaces, existing, credential, normalize));
            && byBMC.Keys == seen.bmcs
            && forall k :: k in byBMC ==> byBMC[k] == DesiredEndpoint(k, smd, ExistingByBMC(existing), credential)
  {
    hide FromSMD, SeenIn, ExistingByBMC, DesiredEndpoint, ByBMC, Trimmed;
    var seen := SeenIn(components);
    var smd := FromSMD(interfaces, seen.bmcs, normalize);
    var f := (k: string) => DesiredEndpoint(k, smd, ExistingByBMC(existing), credential);
    var keys := SortedKeys(seen.bmcs);
    SeenTidy(components);
    forall i | 0 <= i < |keys|
      ensures f(keys[i]).bmcID == keys[i] && keys[i] != "" && CleanEndpoint(f(keys[i])) == f(keys[i])
    {
      assert keys[i] in Elements(keys);
      DesiredClean(keys[i], smd, ExistingByBMC(existing), credential);
    }
    ByBMCOf(DesiredEndpoints(components, interfaces, existing, credential, normalize), keys, f);
  }

  lemma DesiredByNode(components: seq<Component>)
    ensures var nodes, byNode := SeenIn(components).nodeToBMC, ByNode(DesiredLinks(components));
            && byNode.Keys == nodes.Keys
            && forall n :: n in byNode ==> byNode[n] == Link(n, nodes[n], "smd", 0, 0, 0)
  {
    hide SeenIn, ByNode, Trimmed, CleanLink, SortedKeys;
    var nodes := SeenIn(components).nodeToBMC;
    var f := (n: string) => Link(n, Lookup(nodes, n, ""), "smd", 0, 0, 0);
    var keys := SortedKeys(nodes.Keys);
    SeenTidy(components);
    forall i | 0 <= i < |keys|
      ensures f(keys[i]).nodeID == keys[i] && keys[i] != "" && f(keys[i]).bmcID != ""
      ensures CleanLink(f(keys[i])) == f(keys[i])
    {
      assert keys[i] in Elements(keys);
      LinkClean(keys[i], nodes[keys[i]]);
    }
    ByNodeOf(DesiredLinks(components), keys, f);
  }

  lemma LinkClean(n: string, b: string)
    requires Trimmed(n) && Trimmed(b)
    ensures var l := Link(n, b, "smd", 0, 0, 0);
            CleanLink(l) == l
  {
    hide TrimSpace, Trimmed;
    SmdTrimmed();
    assert TrimSpace(n) == n && TrimSpace(b) == b;
  }

  // ---------------------------------------------------------------- what the merge means

  /** The component is BMC `b`. */
  ghost predicate ListsBMC(c: Component, b: string) {
    Reads(c.kind, "bmc", "BMC") && IsName(c.id, b)
  }

  /** The component is node `n`, and `b` is its parent. */
  ghost predicate ListsNode(c: Component, n: string, b: string) {
    Reads(c.kind, "node", "NODE") && IsName(c.id, n) && c.parentID.Some? && IsName(c.parentID.value, b)
  }

  /** SMD lists BMC `b`, itself or as the parent of a node. */
  ghost predicate Tracked(components: seq<Component>, b: string) {
    exists c :: c in components && (ListsBMC(c, b) || exists n :: ListsNode(c, n, b))
  }

  /** The last entry of node `n` that has a parent names `b`. */
  ghost predicate Parent(components: seq<Component>, n: string, b: string) {
    exists i :: 0 <= i < |components| && ListsNode(components[i], n, b) &&
      forall j, p :: i < j < |components| ==> !ListsNode(components[j], n, p)
  }

  lemma SpellsKind(m: string)
    ensures Spells(m, "bmc", "BMC") <==> ToLower(m) == "bmc"
    ensures Spells(m, "node", "NODE") <==> ToLower(m) == "node"
    ensures ToLower("BMC") == "bmc" && ToLower("Node") == "node"
    ensures Spells(m, "bmc", "BMC") || Spells(m, "node", "NODE") ==> Trimmed(m)
  {
    assert ToLower("BMC") == "bmc" && ToLower("Node") == "node";
    var low := ToLower(m);
    if Spells(m, "bmc", "BMC") {
      assert low == "bmc";
    }
    if Spells(m, "node", "NODE") {
      assert low == "node";
    }
    if low == "bmc" {
      assert low[0] == 'b' && low[1] == 'm' && low[2] == 'c';
    }
    if low == "node" {
      assert low[0] == 'n' && low[1] == 'o' && low[2] == 'd' && low[3] == 'e';
    }
  }

  lemma KindMeans(kind: string)
    ensures IsBMC(TrimSpace(kind)) <==> Reads(kind, "bmc", "BMC")
    ensures IsNode(TrimSpace(kind)) <==> Reads(kind, "node", "NODE")
  {
    hide TrimSpace, Trimmed, Spells, Padded, ToLower;
    var m := TrimSpace(kind);
    assert TrimSpace(m) == m;
    TrimSpaceMeans(kind, m);
    SpellsKind(m);
    if Reads(kind, "bmc", "BMC") {
      var n :| Padded(kind, n) && Spells(n, "bmc", "BMC");
      SpellsKind(n);
      TrimSpaceMeans(kind, n);
    }
    if Reads(kind, "node", "NODE") {
      var n :| Padded(kind, n) && Spells(n, "node", "NODE");
      SpellsKind(n);
      TrimSpaceMeans(kind, n);
    }
  }

  /** What one component adds. */
  lemma SeeMeans(before: Seen, c: Component, n: string, b: string)
    ensures var after := See(before, c);
            && (b in after.bmcs <==> b in before.bmcs || ListsBMC(c, b) || exists k :: ListsNode(c, k, b))
            && (ListsNode(c, n, b) ==> n in after.nodeToBMC && after.nodeToBMC[n] == b)
            && ((forall p :: !ListsNode(c, n, p)) ==>
                  (n in after.nodeToBMC <==> n in before.nodeToBMC) &&
                  (n in before.nodeToBMC ==> after.nodeToBMC[n] == before.nodeToBMC[n]))
  {
    hide TrimSpace, IsName, Reads, IsBMC, IsNode;
    KindMeans(c.kind);
    var id, parent := TrimSpace(c.id), ParentOf(c);
    forall k ensures IsName(c.id, k) <==> k != "" && k == id { IsNameMeans(c.id, k); }
    if c.parentID.Some? {
      forall k ensures IsName(c.parentID.value, k) <==> k != "" && k == parent { IsNameMeans(c.parentID.value, k); }
    }
    if id != "" && parent != "" && IsNode(TrimSpace(c.kind)) {
      assert ListsNode(c, id, parent);
    }
  }

  lemma {:induction false} SeenMeans(components: seq<Component>, n: string, b: string)
    ensures b in SeenIn(components).bmcs <==> Tracked(components, b)
    ensures n in SeenIn(components).nodeToBMC && SeenIn(components).nodeToBMC[n] == b <==> Parent(components, n, b)
  {
    hide ListsBMC, ListsNode, See;
    if components != [] {
      var k := |components| - 1;
      var front, c := components[..k], components[k];
      SeenMeans(front, n, b);
      SeeMeans(SeenIn(front), c, n, b);
      assert components == front + [c];
      assert Tracked(components, b) <==> Tracked(front, b) || ListsBMC(c, b) || exists p :: ListsNode(c, p, b) by {
        hide SeenIn;
      }
      ParentNext(front, c, n, b);
      if p :| ListsNode(c, n, p) {
        SeeMeans(SeenIn(front), c, n, p);
      }
    }
  }

  lemma ParentNext(front: seq<Component>, c: Component, n: string, b: string)
    ensures Parent(front + [c], n, b) <==>
            ListsNode(c, n, b) || (Parent(front, n, b) && forall p :: !ListsNode(c, n, p))
  {
    hide ListsNode;
    var all, k := front + [c], |front|;
    assert all[k] == c;
    assert forall j :: 0 <= j < k ==> all[j] == front[j];
    if ListsNode(c, n, b) {
      assert ListsNode(all[k], n, b);
    }
    if Parent(front, n, b) && forall p :: !ListsNode(c, n, p) {
      var i :| 0 <= i < k && ListsNode(front[i], n, b) &&
        forall j, p :: i < j < k ==> !ListsNode(front[j], n, p);
      assert ListsNode(all[i], n, b);
      forall j, p | i < j < |all| ensures !ListsNode(all[j], n, p) { }
    }
    if Parent(all, n, b) && !ListsNode(c, n, b) {
      var i :| 0 <= i < |all| && ListsNode(all[i], n, b) &&
        forall j, p :: i < j < |all| ==> !ListsNode(all[j], n, p);
      assert ListsNode(front[i], n, b);
      forall p ensures !ListsNode(c, n, p) { assert !ListsNode(all[k], n, p); }
      forall j, p | i < j < k ensures !ListsNode(front[j], n, p) { assert !ListsNode(all[j], n, p); }
    }
  }

  // ---------------------------------------------------------------- addresses and stored rows

  /** `a` is the first of the addresses that can be normalised, normalised; empty if there is none. */
  ghost predicate FirstUsable(addresses: seq<string>, normalize: string -> string, a: string) {
    if forall j :: 0 <= j < |addresses| ==> normalize(addresses[j]) == "" then a == ""
    else exists j :: 0 <= j < |addresses| && normalize(addresses[j]) == a != "" &&
           forall i :: 0 <= i < j ==> normalize(addresses[i]) == ""
  }

  lemma {:induction false} FirstFound(addresses: seq<string>, normalize: string -> string)
    ensures FirstUsable(addresses, normalize, FirstEndpoint(addresses, normalize))
  {
    if addresses != [] && normalize(addresses[0]) == "" {
      var rest, a := addresses[1..], FirstEndpoint(addresses, normalize);
      FirstFound(rest, normalize);
      assert forall i :: 0 < i < |addresses| ==> addresses[i] == rest[i - 1];
      if j :| 0 <= j < |rest| && normalize(rest[j]) == a != "" && forall i :: 0 <= i < j ==> normalize(rest[i]) == "" {
        assert normalize(addresses[j + 1]) == a;
      }
    }
  }

  lemma FirstMeans(addresses: seq<string>, normalize: string -> string, a: string)
    ensures FirstUsable(addresses, normalize, a) <==> a == FirstEndpoint(addresses, normalize)
  {
    hide FirstEndpoint;
    FirstFound(addresses, normalize);
  }

  /** The first interface of BMC `b` that has a usable address has `a` as the first one. */
  ghost predicate AddressOf(interfaces: seq<Interface>, normalize: string -> string, b: string, a: string) {
    exists k :: 0 <= k < |interfaces| && IsName(interfaces[k].componentID, b) && a != "" &&
      FirstUsable(interfaces[k].addresses, normalize, a) &&
      forall i :: 0 <= i < k && IsName(interfaces[i].componentID, b) ==>
        FirstUsable(interfaces[i].addresses, normalize, "")
  }

  /** `e` is the last of the rows given for BMC `b`. */
  ghost predicate StoredRow(existing: seq<Endpoint>, b: string, e: Endpoint) {
    exists k :: 0 <= k < |existing| && IsName(existing[k].bmcID, b) && existing[k] == e &&
      forall i :: k < i < |existing| ==> !IsName(existing[i].bmcID, b)
  }

  /** No interface of BMC `b` has a usable address. */
  ghost predicate NoAddress(interfaces: seq<Interface>, normalize: string -> string, b: string) {
    forall i :: 0 <= i < |interfaces| && IsName(interfaces[i].componentID, b) ==>
      FirstUsable(interfaces[i].addresses, normalize, "")
  }

  lemma {:induction false} SMDFinds(interfaces: seq<Interface>, bmcs: set<string>, normalize: string -> string,
                                    b: string)
    requires b in bmcs && b != ""
    ensures var smd := FromSMD(interfaces, bmcs, normalize);
            if b in smd then AddressOf(interfaces, normalize, b, smd[b]) else NoAddress(interfaces, normalize, b)
  {
    hide TrimSpace, FirstEndpoint, FirstUsable, IsName;
    if interfaces != [] {
      var k := |interfaces| - 1;
      var front := interfaces[..k];
      SMDFinds(front, bmcs, normalize, b);
      IsNameMeans(interfaces[k].componentID, b);
      FirstMeans(interfaces[k].addresses, normalize, FirstEndpoint(interfaces[k].addresses, normalize));
      assert forall i :: 0 <= i < k ==> front[i] == interfaces[i];
    }
  }

  lemma AddressUnique(interfaces: seq<Interface>, normalize: string -> string, b: string, a: string)
    requires AddressOf(interfaces, normalize, b, a)
    ensures !NoAddress(interfaces, normalize, b)
    ensures forall x :: AddressOf(interfaces, normalize, b, x) ==> x == a
  {
    hide FirstUsable, IsName;
    forall i, x | 0 <= i < |interfaces|
      ensures FirstUsable(interfaces[i].addresses, normalize, x) <==>
              x == FirstEndpoint(interfaces[i].addresses, normalize)
    {
      FirstMeans(interfaces[i].addresses, normalize, x);
    }
    hide FirstEndpoint;
  }

  /** The row given for BMC `b`, or the empty one if there is none. */
  ghost predicate RowBefore(existing: seq<Endpoint>, b: string, e: Endpoint) {
    if forall i :: 0 <= i < |existing| ==> !IsName(existing[i].bmcID, b) then e == ZERO
    else StoredRow(existing, b, e)
  }

  lemma RowNext(front: seq<Endpoint>, o: Endpoint, b: string, e: Endpoint)
    ensures IsName(o.bmcID, b) ==> RowBefore(front + [o], b, o)
    ensures !IsName(o.bmcID, b) && RowBefore(front, b, e) ==> RowBefore(front + [o], b, e)
  {
    hide IsName;
    var all, k := front + [o], |front|;
    assert all[k] == o;
    assert forall i :: 0 <= i < k ==> all[i] == front[i];
  }

  lemma {:induction false} KnownMeans(existing: seq<Endpoint>, b: string)
    requires b != ""
    ensures RowBefore(existing, b, Lookup(ExistingByBMC(existing), b, ZERO))
  {
    hide TrimSpace, IsName;
    if existing != [] {
      hide RowBefore;
      var k := |existing| - 1;
      var front := existing[..k];
      KnownMeans(front, b);
      IsNameMeans(existing[k].bmcID, b);
      RowNext(front, existing[k], b, Lookup(ExistingByBMC(front), b, ZERO));
      assert existing == front + [existing[k]];
    }
  }

  // ---------------------------------------------------------------- the merged rows

  /** Endpoint `e` is what SMD and row `o` make of BMC `e.bmcID`: the address is SMD's first usable one, and that of the
      row only if SMD has none; the credential is that of the row, and the default only if it has none; the TLS flag is
      that of the row. */
  ghost predicate MergedFrom(interfaces: seq<Interface>, normalize: string -> string, credential: string, o: Endpoint,
                             e: Endpoint)
  {
    && (forall a :: AddressOf(interfaces, normalize, e.bmcID, a) && !Blank(a) ==> IsName(a, e.endpoint))
    && ((forall a :: AddressOf(interfaces, normalize, e.bmcID, a) ==> Blank(a)) ==>
          Trimmed(e.endpoint) && Padded(o.endpoint, e.endpoint))
    && (if !Blank(o.credentialID) then IsName(o.credentialID, e.credentialID)
        else Trimmed(e.credentialID) && Padded(credential, e.credentialID))
    && e.insecureSkipVerify == o.insecureSkipVerify && e.source == "smd"
  }

  lemma BlankNothing()
    ensures TrimSpace("") == ""
  {
    BlankMeans("");
    hide TrimSpace;
  }

  lemma DesiredMeans(interfaces: seq<Interface>, bmcs: set<string>, existing: seq<Endpoint>, credential: string,
                     normalize: string -> string, b: string)
    requires b in bmcs && b != ""
    ensures var known := ExistingByBMC(existing);
            MergedFrom(interfaces, normalize, credential, Lookup(known, b, ZERO),
                       DesiredEndpoint(b, FromSMD(interfaces, bmcs, normalize), known, credential))
  {
    hide TrimSpace, Trimmed, Padded, FromSMD, ExistingByBMC, AddressOf, NoAddress, Blank;
    var smd, o := FromSMD(interfaces, bmcs, normalize), Lookup(ExistingByBMC(existing), b, ZERO);
    SMDFinds(interfaces, bmcs, normalize, b);
    if b in smd {
      AddressUnique(interfaces, normalize, b, smd[b]);
    }
    forall a | AddressOf(interfaces, normalize, b, a) ensures b in smd && a == smd[b] {
      AddressUnique(interfaces, normalize, b, a);
    }
    BlankMeans(Lookup(smd, b, ""));
    BlankMeans(o.credentialID);
    assert TrimSpace("") == "" by { BlankNothing(); }
    TrimSpaceMeans(Lookup(smd, b, ""), TrimSpace(Lookup(smd, b, "")));
    TrimSpaceMeans(o.endpoint, TrimSpace(o.endpoint));
    TrimSpaceMeans(o.credentialID, TrimSpace(o.credentialID));
    TrimSpaceMeans(credential, TrimSpace(credential));
  }

  predicate HasRow(endpoints: seq<Endpoint>, b: string) {
    exists e :: e in endpoints && e.bmcID == b
  }

  predicate HasLink(links: seq<Link>, n: string, b: string) {
    exists l :: l in links && l.nodeID == n && l.bmcID == b
  }

  /** The lists are what SMD's lists and the stored rows ask for: one row per BMC that SMD lists, in order, and one link
      per node, to the parent that its last entry names. */
  ghost predicate IsMerge(components: seq<Component>, interfaces: seq<Interface>, existing: seq<Endpoint>,
                          credential: string, normalize: string -> string, endpoints: seq<Endpoint>, links: seq<Link>)
  {
    && (forall i, j :: 0 <= i < j < |endpoints| ==> Less(endpoints[i].bmcID, endpoints[j].bmcID))
    && (forall b :: HasRow(endpoints, b) <==> Tracked(components, b))
    && (forall e :: e in endpoints ==> MergedRow(interfaces, existing, credential, normalize, e))
    && (forall i, j :: 0 <= i < j < |links| ==> Less(links[i].nodeID, links[j].nodeID))
    && (forall n, b :: HasLink(links, n, b) <==> Parent(components, n, b))
  }

  ghost predicate MergedRow(interfaces: seq<Interface>, existing: seq<Endpoint>, credential: string,
                            normalize: string -> string, e: Endpoint)
  {
    exists o :: RowBefore(existing, e.bmcID, o) && MergedFrom(interfaces, normalize, credential, o, e)
  }

  lemma KeyTidy(components: seq<Component>, b: string)
    requires b in SeenIn(components).bmcs
    ensures Trimmed(b) && b != ""
  {
    hide SeenIn, Trimmed;
    SeenTidy(components);
  }

  lemma RowsMeant(components: seq<Component>, interfaces: seq<Interface>, existing: seq<Endpoint>, credential: string,
                  normalize: string -> string, endpoints: seq<Endpoint>)
    requires endpoints == DesiredEndpoints(components, interfaces, existing, credential, normalize)
    ensures forall i, j :: 0 <= i < j < |endpoints| ==> Less(endpoints[i].bmcID, endpoints[j].bmcID)
    ensures forall b :: HasRow(endpoints, b) <==> Tracked(components, b)
    ensures forall e :: e in endpoints ==> MergedRow(interfaces, existing, credential, normalize, e)
  {
    hide FromSMD, SeenIn, ExistingByBMC, RowBefore, MergedFrom, Less, Tracked, Lookup, Preferred, SortedKeys, Trimmed;
    var seen := SeenIn(components);
    var keys := SortedKeys(seen.bmcs);
    assert forall i :: 0 <= i < |keys| ==> endpoints[i].bmcID == keys[i];
    forall b ensures HasRow(endpoints, b) <==> Tracked(components, b) {
      SeenMeans(components, "", b);
      if b in seen.bmcs {
        assert b in Elements(keys);
        var i :| 0 <= i < |keys| && keys[i] == b;
        assert endpoints[i] in endpoints;
      }
      if HasRow(endpoints, b) {
        var i :| 0 <= i < |endpoints| && endpoints[i].bmcID == b;
        assert keys[i] in Elements(keys);
      }
    }
    forall i | 0 <= i < |keys| ensures MergedRow(interfaces, existing, credential, normalize, endpoints[i]) {
      assert keys[i] in Elements(keys);
      KeyTidy(components, keys[i]);
      KnownMeans(existing, keys[i]);
      DesiredMeans(interfaces, seen.bmcs, existing, credential, normalize, keys[i]);
    }
  }

  lemma LinksMeant(components: seq<Component>, links: seq<Link>)
    requires links == DesiredLinks(components)
    ensures forall i, j :: 0 <= i < j < |links| ==> Less(links[i].nodeID, links[j].nodeID)
    ensures forall n, b :: HasLink(links, n, b) <==> Parent(components, n, b)
  {
    hide SeenIn, Less, Parent, SortedKeys;
    var nodes := SeenIn(components).nodeToBMC;
    var keys := SortedKeys(nodes.Keys);
    assert forall i :: 0 <= i < |keys| ==> links[i].nodeID == keys[i];
    forall n, b ensures HasLink(links, n, b) <==> Parent(components, n, b) {
      SeenMeans(components, n, b);
      if n in nodes && nodes[n] == b {
        assert n in Elements(keys);
        var i :| 0 <= i < |keys| && keys[i] == n;
        assert links[i] in links;
      }
      if HasLink(links, n, b) {
        var i :| 0 <= i < |links| && links[i].nodeID == n && links[i].bmcID == b;
        assert keys[i] in Elements(keys);
      }
    }
  }

  /** What the merge means, without naming how it is computed. */
  lemma MergeMeans(components: seq<Component>, interfaces: seq<Interface>, existing: seq<Endpoint>, credential: string,
                   normalize: string -> string)
    ensures IsMerge(components, interfaces, existing, credential, normalize,
                    DesiredEndpoints(components, interfaces, existing, credential, normalize),
                    DesiredLinks(components))
  {
    hide DesiredEndpoints, DesiredLinks, HasRow, HasLink, Tracked, Parent, MergedRow, Less;
    RowsMeant(components, interfaces, existing, credential, normalize,
              DesiredEndpoints(components, interfaces, existing, credential, normalize));
    LinksMeant(components, DesiredLinks(components));
  }
}
