/** The cached topology: rows for BMC endpoints and for node links, and the statements that reconcile them
    (store/postgres_mapping.go). */
module MappingTables {
  import opened Text
  import opened Records

  datatype Endpoint = Endpoint(
    bmcID: string,
    endpoint: string,
    credentialID: string,
    insecureSkipVerify: bool,
    source: string,
    lastSyncedAt: Time,
    createdAt: Time,
    updatedAt: Time)

  datatype Link = Link(
    nodeID: string,
    bmcID: string,
    source: string,
    lastSyncedAt: Time,
    createdAt: Time,
    updatedAt: Time)

  datatype Tables = Tables(endpoints: map<string, Endpoint>, links: map<string, Link>)

  /** `node_bmc_links.bmc_id REFERENCES bmc_endpoints(bmc_id)`. */
  ghost predicate Referential(t: Tables) {
    forall n :: n in t.links ==> t.links[n].bmcID in t.endpoints
  }

  // ---------------------------------------------------------------- keys in order

  /** The keys of a map, sorted. */
  ghost function SortedKeys(keys: set<string>): (r: seq<string>)
    ensures Ascending(r) && Elements(r) == keys && |r| == |keys|
  {
    if keys == {} then []
    else
      var k :| k in keys;
      var rest := SortedKeys(keys - {k});
      assert k !in rest by { assert k !in Elements(rest); }
      Insert(k, rest)
  }

  ghost function Rows<T>(byKey: map<string, T>): (r: seq<T>)
    ensures |r| == |byKey|
    ensures forall i :: 0 <= i < |r| ==> SortedKeys(byKey.Keys)[i] in byKey && r[i] == byKey[SortedKeys(byKey.Keys)[i]]
  {
    var keys := SortedKeys(byKey.Keys);
    assert forall i :: 0 <= i < |keys| ==> keys[i] in Elements(keys);
    assert |byKey| == |byKey.Keys|;
    seq(|byKey|, i requires 0 <= i < |byKey| => byKey[keys[i]])
  }

  lemma OneMoreKey(keys: seq<string>, k: string)
    requires Distinct(keys) && k !in Elements(keys)
    ensures Distinct(keys + [k]) && Elements(keys + [k]) == Elements(keys) + {k}
  {
    assert k !in keys;
  }

  /** The loop over a Go map, whatever its order, and the sort of the keys it found. */
  method CollectKeys<T>(byKey: map<string, T>) returns (keys: seq<string>)
    ensures keys == SortedKeys(byKey.Keys)
  {
    hide Elements, Distinct, SortedKeys, Ascending;
    keys := [];
    var rest := byKey.Keys;
    assert Elements(keys) == {} && Distinct(keys) by { NoKeys(); }
    while rest != {}
      invariant rest <= byKey.Keys && Elements(keys) == byKey.Keys - rest && Distinct(keys)
      decreases |rest|
    {
      var k :| k in rest;
      OneMoreKey(keys, k);
      keys := keys + [k];
      rest := rest - {k};
    }
    keys := SortStrings(keys);
    AscendingUnique(keys, SortedKeys(byKey.Keys));
  }

  lemma NoKeys()
    ensures Elements([]) == {} && Distinct([])
  {
  }

  lemma KeyAt<T>(byKey: map<string, T>, i: nat)
    requires i < |SortedKeys(byKey.Keys)|
    ensures SortedKeys(byKey.Keys)[i] in byKey && i < |Rows(byKey)|
    ensures Rows(byKey)[i] == byKey[SortedKeys(byKey.Keys)[i]]
  {
    assert SortedKeys(byKey.Keys)[i] in Elements(SortedKeys(byKey.Keys));
    assert |byKey| == |byKey.Keys|;
  }

  method CollectRows<T>(byKey: map<string, T>) returns (result: seq<T>)
    ensures result == Rows(byKey)
  {
    hide SortedKeys, Rows;
    var keys := CollectKeys(byKey);
    result := [];
    assert |Rows(byKey)| == |byKey| == |byKey.Keys| == |keys|;
    for i := 0 to |keys|
      invariant |result| == i && forall j :: 0 <= j < i ==> result[j] == Rows(byKey)[j]
    {
      KeyAt(byKey, i);
      result := result + [byKey[keys[i]]];
    }
  }

  // ---------------------------------------------------------------- normalisation

  function SourceOf(source: string): string {
    if TrimSpace(source) == "" then "smd" else TrimSpace(source)
  }

  function CleanEndpoint(e: Endpoint): Endpoint {
    e.(bmcID := TrimSpace(e.bmcID), endpoint := TrimSpace(e.endpoint), credentialID := TrimSpace(e.credentialID),
       source := SourceOf(e.source))
  }

  function CleanLink(l: Link): Link {
    l.(nodeID := TrimSpace(l.nodeID), bmcID := TrimSpace(l.bmcID), source := SourceOf(l.source))
  }

  /** `byBMC`: rows without a BMC id are skipped, the last row of an id wins. */
  function ByBMC(items: seq<Endpoint>): map<string, Endpoint> {
    if items == [] then map[]
    else
      var before, e := ByBMC(items[..|items| - 1]), CleanEndpoint(items[|items| - 1]);
      if e.bmcID == "" then before else before[e.bmcID := e]
  }

  /** `byNode`: links without a node or a BMC are skipped. */
  function ByNode(items: seq<Link>): map<string, Link> {
    if items == [] then map[]
    else
      var before, l := ByNode(items[..|items| - 1]), CleanLink(items[|items| - 1]);
      if l.nodeID == "" || l.bmcID == "" then before else before[l.nodeID := l]
  }

  method NormalizeEndpoints(items: seq<Endpoint>) returns (result: seq<Endpoint>)
    ensures result == Rows(ByBMC(items))
    ensures Normalized(items, result)
  {
    hide TrimSpace, Normalized, Rows, SortedKeys, Trimmed;
    RowsMean(items);
    var byBMC := map[];
    for i := 0 to |items|
      invariant byBMC == ByBMC(items[..i])
    {
      assert items[..i + 1][..i] == items[..i];
      var item := items[i];
      var bmcID := TrimSpace(item.bmcID);
      if bmcID == "" {
        continue;
      }
      item := item.(bmcID := bmcID, endpoint := TrimSpace(item.endpoint), credentialID := TrimSpace(item.credentialID),
                    source := TrimSpace(item.source));
      if item.source == "" {
        item := item.(source := "smd");
      }
      byBMC := byBMC[bmcID := item];
    }
    assert items[..|items|] == items;
    result := CollectRows(byBMC);
  }

  method NormalizeLinks(items: seq<Link>) returns (result: seq<Link>)
    ensures result == Rows(ByNode(items))
    ensures NormalizedLinks(items, result)
  {
    hide TrimSpace, NormalizedLinks, Rows, SortedKeys, Trimmed;
    LinkRowsMean(items);
    var byNode := map[];
    for i := 0 to |items|
      invariant byNode == ByNode(items[..i])
    {
      assert items[..i + 1][..i] == items[..i];
      var item := items[i];
      var nodeID, bmcID := TrimSpace(item.nodeID), TrimSpace(item.bmcID);
      if nodeID == "" || bmcID == "" {
        continue;
      }
      item := item.(nodeID := nodeID, bmcID := bmcID, source := TrimSpace(item.source));
      if item.source == "" {
        item := item.(source := "smd");
      }
      byNode := byNode[nodeID := item];
    }
    assert items[..|items|] == items;
    result := CollectRows(byNode);
  }

  lemma {:induction false} BMCKeyed(items: seq<Endpoint>, k: string)
    requires k in ByBMC(items)
    ensures ByBMC(items)[k].bmcID == k && k != "" && Trimmed(k)
  {
    hide TrimSpace, Trimmed;
    var e := CleanEndpoint(items[|items| - 1]);
    if e.bmcID == "" || k != e.bmcID {
      BMCKeyed(items[..|items| - 1], k);
    }
  }

  lemma {:induction false} NodeKeyed(items: seq<Link>, k: string)
    requires k in ByNode(items)
    ensures ByNode(items)[k].nodeID == k && k != "" && Trimmed(k)
  {
    hide TrimSpace, Trimmed;
    var l := CleanLink(items[|items| - 1]);
    if l.nodeID == "" || l.bmcID == "" || k != l.nodeID {
      NodeKeyed(items[..|items| - 1], k);
    }
  }

  // ---------------------------------------------------------------- what normalisation means

  /** `e` is row `o` without the space around its columns; a row without a source comes from SMD. */
  ghost predicate IsClean(o: Endpoint, e: Endpoint) {
    && Trimmed(e.bmcID) && Padded(o.bmcID, e.bmcID) && Trimmed(e.endpoint) && Padded(o.endpoint, e.endpoint)
    && Trimmed(e.credentialID) && Padded(o.credentialID, e.credentialID) && e.insecureSkipVerify == o.insecureSkipVerify
    && SourceFrom(o.source, e.source)
    && e.lastSyncedAt == o.lastSyncedAt && e.createdAt == o.createdAt && e.updatedAt == o.updatedAt
  }

  ghost predicate IsCleanLink(o: Link, l: Link) {
    && Trimmed(l.nodeID) && Padded(o.nodeID, l.nodeID) && Trimmed(l.bmcID) && Padded(o.bmcID, l.bmcID)
    && SourceFrom(o.source, l.source)
    && l.lastSyncedAt == o.lastSyncedAt && l.createdAt == o.createdAt && l.updatedAt == o.updatedAt
  }

  ghost predicate SourceFrom(given: string, source: string) {
    if Blank(given) then source == "smd" else IsName(given, source)
  }

  /** `e` is the last row given for BMC `b`, cleaned. */
  ghost predicate LastRow(items: seq<Endpoint>, b: string, e: Endpoint) {
    exists k :: 0 <= k < |items| && IsName(items[k].bmcID, b) && IsClean(items[k], e) &&
      forall i :: k < i < |items| ==> !IsName(items[i].bmcID, b)
  }

  /** A link that names both its ends. */
  ghost predicate IsLink(l: Link, n: string) {
    IsName(l.nodeID, n) && !Blank(l.bmcID)
  }

  ghost predicate LastLink(items: seq<Link>, n: string, l: Link) {
    exists k :: 0 <= k < |items| && IsLink(items[k], n) && IsCleanLink(items[k], l) &&
      forall i :: k < i < |items| ==> !IsLink(items[i], n)
  }

  /** The list holds the last row given for each key, cleaned, in key order. */
  ghost predicate Normalized(items: seq<Endpoint>, r: seq<Endpoint>) {
    && (forall e :: e in r <==> LastRow(items, e.bmcID, e))
    && forall i, j :: 0 <= i < j < |r| ==> Less(r[i].bmcID, r[j].bmcID)
  }

  ghost predicate NormalizedLinks(items: seq<Link>, r: seq<Link>) {
    && (forall l :: l in r <==> LastLink(items, l.nodeID, l))
    && forall i, j :: 0 <= i < j < |r| ==> Less(r[i].nodeID, r[j].nodeID)
  }

  lemma SourceMeans(given: string, source: string)
    ensures SourceFrom(given, source) <==> source == SourceOf(given)
  {
    hide TrimSpace, Blank, Padded, Trimmed;
    BlankMeans(given);
    IsNameMeans(given, source);
  }

  lemma CleanMeans(o: Endpoint, e: Endpoint)
    ensures IsClean(o, e) <==> e == CleanEndpoint(o)
  {
    hide TrimSpace, Trimmed, Padded, SourceFrom, SourceOf;
    TrimSpaceMeans(o.bmcID, e.bmcID);
    TrimSpaceMeans(o.endpoint, e.endpoint);
    TrimSpaceMeans(o.credentialID, e.credentialID);
    SourceMeans(o.source, e.source);
  }

  lemma CleanLinkMeans(o: Link, l: Link)
    ensures IsCleanLink(o, l) <==> l == CleanLink(o)
  {
    hide TrimSpace, Trimmed, Padded, SourceFrom, SourceOf;
    TrimSpaceMeans(o.nodeID, l.nodeID);
    TrimSpaceMeans(o.bmcID, l.bmcID);
    SourceMeans(o.source, l.source);
  }

  lemma {:induction false} ByBMCMeans(items: seq<Endpoint>, b: string, e: Endpoint)
    ensures b in ByBMC(items) && ByBMC(items)[b] == e <==> LastRow(items, b, e)
  {
    hide IsClean, IsName, CleanEndpoint;
    if items != [] {
      var k := |items| - 1;
      ByBMCMeans(items[..k], b, e);
      CleanMeans(items[k], e);
      CleanID(items[k], b);
      assert forall i :: 0 <= i < k ==> items[..k][i] == items[i];
    }
  }

  lemma CleanID(o: Endpoint, b: string)
    ensures IsName(o.bmcID, b) <==> b != "" && CleanEndpoint(o).bmcID == b
  {
    hide TrimSpace, IsName;
    IsNameMeans(o.bmcID, b);
  }

  lemma {:induction false} ByNodeMeans(items: seq<Link>, n: string, l: Link)
    ensures n in ByNode(items) && ByNode(items)[n] == l <==> LastLink(items, n, l)
  {
    hide IsCleanLink, IsLink, CleanLink;
    if items != [] {
      var k := |items| - 1;
      ByNodeMeans(items[..k], n, l);
      CleanLinkMeans(items[k], l);
      CleanEnds(items[k], n);
      assert forall i :: 0 <= i < k ==> items[..k][i] == items[i];
    }
  }

  lemma CleanEnds(o: Link, n: string)
    ensures IsLink(o, n) <==> n != "" && CleanLink(o).nodeID == n && CleanLink(o).bmcID != ""
  {
    hide TrimSpace, IsName, Blank;
    IsNameMeans(o.nodeID, n);
    BlankMeans(o.bmcID);
  }

  /** The rows a list gives, in key order. */
  lemma RowsMean(items: seq<Endpoint>)
    ensures Normalized(items, Rows(ByBMC(items)))
  {
    hide ByBMC, LastRow, Rows, SortedKeys, Less;
    var m := ByBMC(items);
    var keys := SortedKeys(m.Keys);
    assert |m| == |m.Keys|;
    forall i | 0 <= i < |keys| ensures keys[i] in m && Rows(m)[i] == m[keys[i]] && Rows(m)[i].bmcID == keys[i] {
      KeyAt(m, i);
      BMCKeyed(items, keys[i]);
    }
    forall e ensures e in Rows(m) <==> LastRow(items, e.bmcID, e) {
      ByBMCMeans(items, e.bmcID, e);
      if e.bmcID in m && m[e.bmcID] == e {
        assert e.bmcID in Elements(keys);
        var i :| 0 <= i < |keys| && keys[i] == e.bmcID;
        assert Rows(m)[i] == e;
      }
    }
  }

  lemma LinkRowsMean(items: seq<Link>)
    ensures NormalizedLinks(items, Rows(ByNode(items)))
  {
    hide ByNode, LastLink, Rows, SortedKeys, Less;
    var m := ByNode(items);
    var keys := SortedKeys(m.Keys);
    assert |m| == |m.Keys|;
    forall i | 0 <= i < |keys| ensures keys[i] in m && Rows(m)[i] == m[keys[i]] && Rows(m)[i].nodeID == keys[i] {
      KeyAt(m, i);
      NodeKeyed(items, keys[i]);
    }
    forall l ensures l in Rows(m) <==> LastLink(items, l.nodeID, l) {
      ByNodeMeans(items, l.nodeID, l);
      if l.nodeID in m && m[l.nodeID] == l {
        assert l.nodeID in Elements(keys);
        var i :| 0 <= i < |keys| && keys[i] == l.nodeID;
        assert Rows(m)[i] == l;
      }
    }
  }
}
