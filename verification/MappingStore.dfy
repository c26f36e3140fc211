/** The mapping part of the store: one transaction that reconciles both tables, and the lookup that routes the nodes of
    a request (store/postgres_mapping.go). */
module MappingStore {
  import opened Text
  import opened Records
  import opened Planning
  import opened MappingTables
  import opened Reconciliation

  datatype Counts = Counts(endpointsUpserted: nat, endpointsDeleted: nat, linksUpserted: nat, linksDeleted: nat)

  const NO_COUNTS := Counts(0, 0, 0, 0)

  /** What the environment does to the transaction; a commit that fails is a rollback. */
  datatype TxFault = NoTxFault | StatementFails(n: nat) | CommitFails

  datatype Apply = Applied(counts: Counts) | NotApplied

  ghost function CleanEndpoints(endpoints: seq<Endpoint>): seq<Endpoint> {
    Rows(ByBMC(endpoints))
  }

  ghost function CleanLinks(links: seq<Link>): seq<Link> {
    Rows(ByNode(links))
  }

  ghost function CountsOf(t: Tables, endpoints: seq<Endpoint>, links: seq<Link>): Counts {
    Counts(|endpoints|, |t.endpoints.Keys - BMCs(endpoints)|, |links|, |t.links.Keys - Nodes(links)|)
  }

  /** `ReplaceTopologyMappings`. */
  ghost function Replace(t: Tables, endpoints: seq<Endpoint>, links: seq<Link>, syncedAt: Time,
                         fault: TxFault): (Tables, Apply) {
    var e, l := CleanEndpoints(endpoints), CleanLinks(links);
    if fault.StatementFails? && fault.n < |Script(e, l)| then (t, NotApplied)
    else
      match ExecAll(t, Script(e, l), syncedAt)
      case None => (t, NotApplied)
      case Some(after) => if fault.CommitFails? then (t, NotApplied) else (after, Applied(CountsOf(t, e, l)))
  }

  // ---------------------------------------------------------------- the desired rows

  /** A listing whose `i`-th key is the `i`-th of the sorted keys has these keys, each once. */
  lemma Listed(keys: set<string>, listed: seq<string>)
    requires listed == SortedKeys(keys)
    ensures forall i, j :: 0 <= i < j < |listed| ==> listed[i] != listed[j]
    ensures forall k :: k in keys <==> exists i :: 0 <= i < |listed| && listed[i] == k
  {
    forall k ensures k in keys <==> k in Elements(listed) { }
    assert forall i, j :: 0 <= i < j < |listed| ==> Less(listed[i], listed[j]);
  }

  lemma CleanBMCs(endpoints: seq<Endpoint>)
    ensures Unique(CleanEndpoints(endpoints), []) && BMCs(CleanEndpoints(endpoints)) == ByBMC(endpoints).Keys
  {
    hide ByBMC, Rows, SortedKeys;
    var m, clean := ByBMC(endpoints), CleanEndpoints(endpoints);
    var listed := SortedKeys(m.Keys);
    assert |m| == |m.Keys|;
    forall i | 0 <= i < |listed| ensures i < |clean| && clean[i].bmcID == listed[i] {
      KeyAt(m, i);
      BMCKeyed(endpoints, listed[i]);
    }
    Listed(m.Keys, listed);
    forall k ensures k in BMCs(clean) <==> k in m.Keys {
      if k in m.Keys {
        var i :| 0 <= i < |listed| && listed[i] == k;
        assert clean[i].bmcID == k;
      }
    }
  }

  lemma CleanNodes(links: seq<Link>)
    ensures Unique([], CleanLinks(links)) && Nodes(CleanLinks(links)) == ByNode(links).Keys
  {
    hide ByNode, Rows, SortedKeys;
    var m, clean := ByNode(links), CleanLinks(links);
    var listed := SortedKeys(m.Keys);
    assert |m| == |m.Keys|;
    forall i | 0 <= i < |listed| ensures i < |clean| && clean[i].nodeID == listed[i] {
      KeyAt(m, i);
      NodeKeyed(links, listed[i]);
    }
    Listed(m.Keys, listed);
    forall k ensures k in Nodes(clean) <==> k in m.Keys {
      if k in m.Keys {
        var i :| 0 <= i < |listed| && listed[i] == k;
        assert clean[i].nodeID == k;
      }
    }
  }

  lemma CleanKeys(endpoints: seq<Endpoint>, links: seq<Link>)
    ensures Unique(CleanEndpoints(endpoints), CleanLinks(links))
    ensures BMCs(CleanEndpoints(endpoints)) == ByBMC(endpoints).Keys
    ensures Nodes(CleanLinks(links)) == ByNode(links).Keys
  {
    hide CleanEndpoints, CleanLinks, BMCs, Nodes, ByBMC, ByNode;
    CleanBMCs(endpoints);
    CleanNodes(links);
  }

  // ---------------------------------------------------------------- lookup

  /** One row of the join of links and endpoints. */
  function Joined(t: Tables, node: string): Option<Mapping> {
    if node in t.links && t.links[node].bmcID in t.endpoints then
      var e := t.endpoints[t.links[node].bmcID];
      Some(Mapping(node, t.links[node].bmcID, e.endpoint, e.credentialID, e.insecureSkipVerify))
    else None
  }

  predicate Routable(t: Tables, node: string) {
    && Joined(t, node).Some?
    && TrimSpace(Joined(t, node).value.endpoint) != "" && TrimSpace(Joined(t, node).value.credentialID) != ""
  }

  function ErrorOf(t: Tables, node: string): MappingError {
    match Joined(t, node)
    case None => MissingNode(node)
    case Some(m) =>
      if TrimSpace(m.endpoint) == "" then MissingEndpoint(node, m.bmcID) else MissingCredential(node, m.bmcID)
  }

  /** `normalizeNodeIDs` of the store: what is asked for, repetitions included. */
  function Requested(nodeIDs: seq<string>): seq<string> {
    if nodeIDs == [] then []
    else
      var n := TrimSpace(nodeIDs[|nodeIDs| - 1]);
      Requested(nodeIDs[..|nodeIDs| - 1]) + if n == "" then [] else [n]
  }

  function ResolvedOf(t: Tables, nodes: seq<string>): seq<Mapping> {
    if nodes == [] then []
    else
      var n := nodes[|nodes| - 1];
      ResolvedOf(t, nodes[..|nodes| - 1]) + if Routable(t, n) then [Joined(t, n).value] else []
  }

  function MissingOf(t: Tables, nodes: seq<string>): seq<MappingError> {
    if nodes == [] then []
    else
      var n := nodes[|nodes| - 1];
      MissingOf(t, nodes[..|nodes| - 1]) + if Routable(t, n) then [] else [ErrorOf(t, n)]
  }

  // ---------------------------------------------------------------- what the lookup means

  /** Node `n` has a link to a BMC that has an endpoint row. */
  predicate Linked(t: Tables, n: string) {
    n in t.links && t.links[n].bmcID in t.endpoints
  }

  /** That row has an address and a credential. */
  predicate Reachable(t: Tables, n: string) {
    Linked(t, n) && !Blank(t.endpoints[t.links[n].bmcID].endpoint) && !Blank(t.endpoints[t.links[n].bmcID].credentialID)
  }

  /** `m` is the link of its node and the endpoint row that the link points to. */
  predicate FromTables(t: Tables, m: Mapping) {
    && Reachable(t, m.nodeID)
    && var l := t.links[m.nodeID];
    var e := t.endpoints[l.bmcID];
    && m.bmcID == l.bmcID && m.endpoint == e.endpoint && m.credentialID == e.credentialID
    && m.insecureSkipVerify == e.insecureSkipVerify
  }

  /** Why node `n` cannot be routed. */
  function Reason(t: Tables, n: string): MappingCode {
    if !Linked(t, n) then MappingNotFound
    else if Blank(t.endpoints[t.links[n].bmcID].endpoint) then EndpointMissing
    else CredentialMissing
  }

  /** Node `n` is among the missing ones, with code `c`. */
  predicate Reported(missing: seq<MappingError>, n: string, c: MappingCode) {
    exists e :: e in missing && e.nodeID == n && e.code == c
  }

  lemma JoinedMeans(t: Tables, n: string)
    ensures Routable(t, n) <==> Reachable(t, n)
    ensures Routable(t, n) ==> Joined(t, n).Some? && FromTables(t, Joined(t, n).value) && Joined(t, n).value.nodeID == n
    ensures !Routable(t, n) ==> ErrorOf(t, n).code == Reason(t, n)
    ensures Trimmed(n) ==> ErrorOf(t, n).nodeID == n
  {
    hide Trimmed, MissingDetail, Quoted, TrimSpace, Blank;
    if Linked(t, n) {
      BlankMeans(t.endpoints[t.links[n].bmcID].endpoint);
      BlankMeans(t.endpoints[t.links[n].bmcID].credentialID);
    }
  }

  lemma FromTablesUnique(t: Tables, a: Mapping, b: Mapping)
    requires FromTables(t, a) && FromTables(t, b) && a.nodeID == b.nodeID
    ensures a == b
  {
    hide Blank;
  }

  lemma {:induction false} RequestedMeans(nodeIDs: seq<string>, n: string)
    ensures n in Requested(nodeIDs) <==> OneOf(nodeIDs, n)
  {
    hide TrimSpace, OneOf;
    if nodeIDs == [] {
      OneOfMeans(nodeIDs, n);
    } else {
      var k := |nodeIDs| - 1;
      RequestedMeans(nodeIDs[..k], n);
      OneOfNext(nodeIDs[..k], nodeIDs[k], n);
      assert nodeIDs == nodeIDs[..k] + [nodeIDs[k]];
    }
  }

  class Mappings {
    var endpoints: map<string, Endpoint>
    var links: map<string, Link>

    function Contents(): Tables
      reads this
    {
      Tables(endpoints, links)
    }

    constructor ()
      ensures Contents() == Tables(map[], map[])
    {
      endpoints, links := map[], map[];
    }

    /** One statement of the open transaction. */
    method Execute(tx: Tables, s: Statement, now: Time, fails: bool) returns (r: Option<Tables>)
      ensures r == if fails then None else Exec(tx, s, now)
    {
      if fails {
        return None;
      }
      match s {
        case UpsertLink(l) =>
          if l.bmcID !in tx.endpoints {
            return None;
          }
          return Some(Plain(tx, s, now));
        case DeleteEndpointsExcept(bmcs) =>
          var kept := KeepOnly(tx.endpoints, bmcs);
          return Some(Tables(kept, map n | n in tx.links && tx.links[n].bmcID in kept :: tx.links[n]));
        case _ =>
          return Some(Plain(tx, s, now));
      }
    }

    method UpsertEndpoints(before: Tables, clean: seq<Endpoint>, now: Time, fault: TxFault) returns (r: Option<Tables>,
                           count: nat)
      ensures r == if fault.StatementFails? && fault.n < |clean| then None else ExecAll(before, Upserts(clean), now)
      ensures r.Some? ==> count == |clean|
    {
      hide Exec, ExecAll;
      ghost var script := Upserts(clean);
      var tx := before;
      count := 0;
      NoStatements(before, script, now);
      for i := 0 to |clean|
        invariant ExecAll(before, script[..i], now) == Some(tx) && count == i && !(fault.StatementFails? && fault.n < i)
      {
        OneStatement(before, script, i, now);
        var after := Execute(tx, UpsertEndpoint(clean[i]), now, fault == StatementFails(i));
        if after.None? {
          return None, count;
        }
        tx, count := after.value, count + 1;
      }
      assert script[..|clean|] == script;
      return Some(tx), count;
    }

    method UpsertLinks(before: Tables, clean: seq<Link>, now: Time, fault: TxFault,
                       first: nat) returns (r: Option<Tables>, count: nat)
      ensures r == if fault.StatementFails? && first <= fault.n < first + |clean| then None
        else ExecAll(before, LinkUpserts(clean), now)
      ensures r.Some? ==> count == |clean|
    {
      hide Exec, ExecAll;
      ghost var script := LinkUpserts(clean);
      var tx := before;
      count := 0;
      NoStatements(before, script, now);
      for i := 0 to |clean|
        invariant ExecAll(before, script[..i], now) == Some(tx) && count == i
        invariant !(fault.StatementFails? && first <= fault.n < first + i)
      {
        OneStatement(before, script, i, now);
        var after := Execute(tx, UpsertLink(clean[i]), now, fault == StatementFails(first + i));
        if after.None? {
          return None, count;
        }
        tx, count := after.value, count + 1;
      }
      assert script[..|clean|] == script;
      return Some(tx), count;
    }

    method DeleteStaleLinks(tx: Tables, clean: seq<Link>, now: Time, fails: bool)
      returns (r: Option<Tables>, count: nat)
      ensures r == if fails then None else Exec(tx, DeleteLinksExcept(Nodes(clean)), now)
      ensures r.Some? ==> count == |tx.links.Keys - Nodes(clean)|
    {
      var nodeIDs := {};
      for i := 0 to |clean|
        invariant nodeIDs == Nodes(clean[..i])
      {
        LastNode(clean[..i + 1]);
        assert clean[..i + 1][..i] == clean[..i];
        nodeIDs := nodeIDs + {clean[i].nodeID};
      }
      assert clean[..|clean|] == clean;
      r := Execute(tx, DeleteLinksExcept(nodeIDs), now, fails);
      count := |tx.links.Keys - nodeIDs|;
    }

    method DeleteStaleEndpoints(tx: Tables, clean: seq<Endpoint>, now: Time, fails: bool)
      returns (r: Option<Tables>, count: nat)
      ensures r == if fails then None else Exec(tx, DeleteEndpointsExcept(BMCs(clean)), now)
      ensures r.Some? ==> count == |tx.endpoints.Keys - BMCs(clean)|
    {
      hide Exec;
      var bmcIDs := {};
      for i := 0 to |clean|
        invariant bmcIDs == BMCs(clean[..i])
      {
        LastBMC(clean[..i + 1]);
        assert clean[..i + 1][..i] == clean[..i];
        bmcIDs := bmcIDs + {clean[i].bmcID};
      }
      assert clean[..|clean|] == clean;
      r := Execute(tx, DeleteEndpointsExcept(bmcIDs), now, fails);
      count := |tx.endpoints.Keys - bmcIDs|;
    }

    method ReplaceTopologyMappings(desiredEndpoints: seq<Endpoint>, desiredLinks: seq<Link>, syncedAt: Time,
                                   fault: TxFault) returns (r: Apply)
      modifies this
      ensures (Contents(), r) == Replace(old(Contents()), desiredEndpoints, desiredLinks, syncedAt, fault)
    {
      hide ByBMC, ByNode, Rows, ExecAll, Exec, BMCs, Nodes, Upserts, LinkUpserts, PlainAll, Normalized,
           NormalizedLinks;
      var cleanEndpoints := NormalizeEndpoints(desiredEndpoints);
      var cleanLinks := NormalizeLinks(desiredLinks);
      var before := Contents();
      var n := |cleanEndpoints| + |cleanLinks|;
      ScriptRuns(before, cleanEndpoints, cleanLinks, syncedAt);
      var one, endpointsUpserted := UpsertEndpoints(before, cleanEndpoints, syncedAt, fault);
      if one.None? {
        return NotApplied;
      }
      var two, linksUpserted := UpsertLinks(one.value, cleanLinks, syncedAt, fault, |cleanEndpoints|);
      if two.None? {
        return NotApplied;
      }
      var three, linksDeleted := DeleteStaleLinks(two.value, cleanLinks, syncedAt, fault == StatementFails(n));
      if three.None? {
        return NotApplied;
      }
      var four, endpointsDeleted := DeleteStaleEndpoints(three.value, cleanEndpoints, syncedAt,
                                                         fault == StatementFails(n + 1));
      if four.None? || fault.CommitFails? {
        return NotApplied;
      }
      DeletedCounts(before, one.value, two.value, three.value, desiredEndpoints, desiredLinks, syncedAt);
      endpoints, links := four.value.endpoints, four.value.links;
      return Applied(Counts(endpointsUpserted, endpointsDeleted, linksUpserted, linksDeleted));
    }

    /** The trimmed ids that are not blank, and each of them once for the query. */
    method NormalizeNodeIDs(nodeIDs: seq<string>) returns (requested: seq<string>, unique: seq<string>)
      ensures requested == Requested(nodeIDs)
      ensures Elements(unique) == Elements(requested)
    {
      hide TrimSpace;
      requested, unique := [], [];
      var seen := {};
      for i := 0 to |nodeIDs|
        invariant requested == Requested(nodeIDs[..i])
        invariant seen == Elements(unique) == Elements(requested)
      {
        assert nodeIDs[..i + 1][..i] == nodeIDs[..i];
        var nodeID := TrimSpace(nodeIDs[i]);
        if nodeID == "" {
          continue;
        }
        AddedElement(requested, nodeID);
        requested := requested + [nodeID];
        if nodeID in seen {
          continue;
        }
        AddedElement(unique, nodeID);
        seen := seen + {nodeID};
        unique := unique + [nodeID];
      }
      assert nodeIDs[..|nodeIDs|] == nodeIDs;
    }

    /** The rows of the join whose node is asked for. */
    method QueryMappings(nodes: seq<string>) returns (byNode: map<string, Mapping>)
      ensures forall n :: n in byNode <==> n in Elements(nodes) && Joined(Contents(), n).Some?
      ensures forall n :: n in byNode ==> Some(byNode[n]) == Joined(Contents(), n)
    {
      byNode := map n | n in Elements(nodes) && Joined(Contents(), n).Some? :: Joined(Contents(), n).value;
    }

    method ResolveNodeMappings(nodeIDs: seq<string>) returns (resolved: seq<Mapping>, missing: seq<MappingError>)
      ensures resolved == ResolvedOf(Contents(), Requested(nodeIDs))
      ensures missing == MissingOf(Contents(), Requested(nodeIDs))
      ensures forall m :: m in resolved <==> OneOf(nodeIDs, m.nodeID) && FromTables(Contents(), m)
      ensures forall n, c :: Reported(missing, n, c) <==>
                OneOf(nodeIDs, n) && !Reachable(Contents(), n) && c == Reason(Contents(), n)
    {
      hide TrimSpace, MissingNode, MissingEndpoint, MissingCredential, Joined, OneOf, Reachable, Reason, FromTables;
      LookupMeans(Contents(), nodeIDs);
      var requested, queried := NormalizeNodeIDs(nodeIDs);
      resolved, missing := [], [];
      if requested == [] {
        return;
      }
      var byNode := QueryMappings(queried);
      for i := 0 to |requested|
        invariant resolved == ResolvedOf(Contents(), requested[..i])
        invariant missing == MissingOf(Contents(), requested[..i])
      {
        assert requested[..i + 1][..i] == requested[..i];
        var nodeID := requested[i];
        assert nodeID in Elements(requested);
        if nodeID !in byNode {
          missing := missing + [MissingNode(nodeID)];
          continue;
        }
        var row := byNode[nodeID];
        if TrimSpace(row.endpoint) == "" {
          missing := missing + [MissingEndpoint(nodeID, row.bmcID)];
          continue;
        }
        if TrimSpace(row.credentialID) == "" {
          missing := missing + [MissingCredential(nodeID, row.bmcID)];
          continue;
        }
        resolved := resolved + [row];
      }
      assert requested[..|requested|] == requested;
    }
  }

  lemma AddedElement(s: seq<string>, x: string)
    ensures Elements(s + [x]) == Elements(s) + {x}
  {
  }

  lemma {:induction false} ResolvedMeans(t: Tables, nodes: seq<string>, m: Mapping)
    ensures m in ResolvedOf(t, nodes) <==> m.nodeID in nodes && Routable(t, m.nodeID) && Joined(t, m.nodeID) == Some(m)
  {
    hide Routable, Joined;
    if nodes != [] {
      var k := |nodes| - 1;
      ResolvedMeans(t, nodes[..k], m);
      JoinedNode(t, nodes[k]);
      assert nodes == nodes[..k] + [nodes[k]];
    }
  }

  lemma {:induction false} MissingMeans(t: Tables, nodes: seq<string>, e: MappingError)
    ensures e in MissingOf(t, nodes) <==> exists n :: n in nodes && !Routable(t, n) && e == ErrorOf(t, n)
  {
    hide Routable, ErrorOf;
    if nodes != [] {
      var k := |nodes| - 1;
      MissingMeans(t, nodes[..k], e);
      assert nodes == nodes[..k] + [nodes[k]];
    }
  }

  lemma {:induction false} NoneForgotten(t: Tables, nodes: seq<string>)
    ensures |ResolvedOf(t, nodes)| + |MissingOf(t, nodes)| == |nodes|
  {
    hide Routable, ErrorOf, Joined;
    if nodes != [] {
      NoneForgotten(t, nodes[..|nodes| - 1]);
    }
  }

  /** Every requested node is in exactly one of the two lists: resolved, with its link and the row it points to, if that
      row has an address and a credential, and missing, with the reason, otherwise. */
  lemma ResolvePartitions(t: Tables, nodes: seq<string>)
    requires forall i :: 0 <= i < |nodes| ==> Trimmed(nodes[i])
    ensures |ResolvedOf(t, nodes)| + |MissingOf(t, nodes)| == |nodes|
    ensures forall m :: m in ResolvedOf(t, nodes) <==> m.nodeID in nodes && FromTables(t, m)
    ensures forall n, c :: Reported(MissingOf(t, nodes), n, c) <==>
              n in nodes && !Reachable(t, n) && c == Reason(t, n)
  {
    hide Routable, ErrorOf, Joined, ResolvedOf, MissingOf, FromTables, Reachable, Reason, Trimmed;
    NoneForgotten(t, nodes);
    forall m ensures m in ResolvedOf(t, nodes) <==> m.nodeID in nodes && FromTables(t, m) {
      ResolvedMeans(t, nodes, m);
      JoinedMeans(t, m.nodeID);
      RowReachable(t, m);
      if FromTables(t, m) {
        FromTablesUnique(t, m, Joined(t, m.nodeID).value);
      }
    }
    forall n, c
      ensures Reported(MissingOf(t, nodes), n, c) <==>
                n in nodes && !Reachable(t, n) && c == Reason(t, n)
    {
      MissingCode(t, nodes, n, c);
    }
  }

  lemma RowReachable(t: Tables, m: Mapping)
    ensures FromTables(t, m) ==> Reachable(t, m.nodeID)
  {
    hide Reachable;
  }

  lemma MissingCode(t: Tables, nodes: seq<string>, n: string, c: MappingCode)
    requires forall i :: 0 <= i < |nodes| ==> Trimmed(nodes[i])
    ensures Reported(MissingOf(t, nodes), n, c) <==>
              n in nodes && !Reachable(t, n) && c == Reason(t, n)
  {
    hide Routable, ErrorOf, MissingOf, Reachable, Reason, Trimmed;
    if Reported(MissingOf(t, nodes), n, c) {
      var e :| e in MissingOf(t, nodes) && e.nodeID == n && e.code == c;
      MissingMeans(t, nodes, e);
      var k :| k in nodes && !Routable(t, k) && e == ErrorOf(t, k);
      JoinedMeans(t, k);
    }
    if n in nodes && !Reachable(t, n) {
      JoinedMeans(t, n);
      MissingMeans(t, nodes, ErrorOf(t, n));
    }
  }

  lemma LookupMeans(t: Tables, nodeIDs: seq<string>)
    ensures forall m :: m in ResolvedOf(t, Requested(nodeIDs)) <==> OneOf(nodeIDs, m.nodeID) && FromTables(t, m)
    ensures forall n, c :: Reported(MissingOf(t, Requested(nodeIDs)), n, c) <==>
              OneOf(nodeIDs, n) && !Reachable(t, n) && c == Reason(t, n)
  {
    hide ResolvedOf, MissingOf, Requested, FromTables, Reachable, Reason, Trimmed, OneOf;
    var nodes := Requested(nodeIDs);
    forall n ensures n in nodes <==> OneOf(nodeIDs, n) { RequestedMeans(nodeIDs, n); }
    forall i | 0 <= i < |nodes| ensures Trimmed(nodes[i]) { AskedTrimmed(nodeIDs, nodes[i]); }
    ResolvePartitions(t, nodes);
  }

  lemma AskedTrimmed(nodeIDs: seq<string>, n: string)
    ensures OneOf(nodeIDs, n) ==> Trimmed(n) && n != ""
  {
    hide Trimmed, Padded;
  }

  lemma JoinedNode(t: Tables, n: string)
    ensures Routable(t, n) ==> Joined(t, n).Some? && Joined(t, n).value.nodeID == n
    ensures Trimmed(n) ==> ErrorOf(t, n).nodeID == n
  {
    hide Trimmed, MissingDetail, Quoted;
  }

  lemma NoStatements(t: Tables, script: seq<Statement>, now: Time)
    ensures ExecAll(t, script[..0], now) == Some(t)
  {
  }

  /** Statement `k` of a script, and the end of the script if it is refused. */
  lemma OneStatement(t: Tables, script: seq<Statement>, k: nat, now: Time)
    requires k < |script|
    ensures ExecAll(t, script[..k + 1], now) ==
      match ExecAll(t, script[..k], now) case None => None case Some(before) => Exec(before, script[k], now)
    ensures ExecAll(t, script[..k + 1], now).None? ==> ExecAll(t, script, now).None?
    ensures k + 1 == |script| ==> script[..k + 1] == script
  {
    hide Exec;
    PlainNext(t, script[..k], script[k], now);
    assert script[..k] + [script[k]] == script[..k + 1];
    InSequence(t, script[..k + 1], script[k + 1..], now);
    assert script[..k + 1] + script[k + 1..] == script;
  }

  /** The four phases one after the other are the script. */
  lemma ScriptRuns(t: Tables, endpoints: seq<Endpoint>, links: seq<Link>, now: Time)
    ensures |Script(endpoints, links)| == |endpoints| + |links| + 2
    ensures ExecAll(t, Script(endpoints, links), now) ==
            match ExecAll(t, Upserts(endpoints), now)
            case None => None
            case Some(one) =>
              match ExecAll(one, LinkUpserts(links), now)
              case None => None
              case Some(two) =>
                match Exec(two, DeleteLinksExcept(Nodes(links)), now)
                case None => None
                case Some(three) => Exec(three, DeleteEndpointsExcept(BMCs(endpoints)), now)
  {
    hide ExecAll, Upserts, LinkUpserts, BMCs, Nodes, PlainAll;
    InSequence(t, Upserts(endpoints), LinkUpserts(links), now);
    ScriptEnds(t, endpoints, links, now);
  }

  /** What the two deletes find is exactly the old keys that are not desired. */
  lemma DeletedCounts(t: Tables, one: Tables, two: Tables, three: Tables, desiredEndpoints: seq<Endpoint>,
                      desiredLinks: seq<Link>, now: Time)
    requires var e, l := CleanEndpoints(desiredEndpoints), CleanLinks(desiredLinks);
             && ExecAll(t, Upserts(e), now) == Some(one) && ExecAll(one, LinkUpserts(l), now) == Some(two)
             && Exec(two, DeleteLinksExcept(Nodes(l)), now) == Some(three)
    ensures two.links.Keys - Nodes(CleanLinks(desiredLinks)) == t.links.Keys - Nodes(CleanLinks(desiredLinks))
    ensures three.endpoints.Keys - BMCs(CleanEndpoints(desiredEndpoints)) ==
      t.endpoints.Keys - BMCs(CleanEndpoints(desiredEndpoints))
  {
    var e, l := CleanEndpoints(desiredEndpoints), CleanLinks(desiredLinks);
    CleanKeys(desiredEndpoints, desiredLinks);
    hide ExecAll, PlainAll, BMCs, Nodes, CleanEndpoints, CleanLinks, Upserts, LinkUpserts, StampEndpoint, StampLink;
    EndpointsUpserted(t, e, now);
    LinksUpserted(one, l, now);
    LinksAccepted(one, l, now);
  }

  // ---------------------------------------------------------------- what one call does

  lemma RowOf(endpoints: seq<Endpoint>, k: string) returns (i: nat)
    requires k in ByBMC(endpoints)
    ensures i < |CleanEndpoints(endpoints)| && CleanEndpoints(endpoints)[i] == ByBMC(endpoints)[k]
    ensures CleanEndpoints(endpoints)[i].bmcID == k
  {
    var m := ByBMC(endpoints);
    assert k in Elements(SortedKeys(m.Keys)) && |m| == |m.Keys|;
    i :| 0 <= i < |SortedKeys(m.Keys)| && SortedKeys(m.Keys)[i] == k;
    KeyAt(m, i);
    BMCKeyed(endpoints, k);
  }

  lemma LinkRowOf(links: seq<Link>, k: string) returns (i: nat)
    requires k in ByNode(links)
    ensures i < |CleanLinks(links)| && CleanLinks(links)[i] == ByNode(links)[k] && CleanLinks(links)[i].nodeID == k
  {
    var m := ByNode(links);
    assert k in Elements(SortedKeys(m.Keys)) && |m| == |m.Keys|;
    i :| 0 <= i < |SortedKeys(m.Keys)| && SortedKeys(m.Keys)[i] == k;
    KeyAt(m, i);
    NodeKeyed(links, k);
  }

  /** The desired lists only link nodes to listed BMCs. */
  ghost predicate Complete(endpoints: seq<Endpoint>, links: seq<Link>) {
    forall n :: n in ByNode(links) ==> ByNode(links)[n].bmcID in ByBMC(endpoints)
  }

  lemma CompleteCovers(endpoints: seq<Endpoint>, links: seq<Link>)
    requires Complete(endpoints, links)
    ensures Covered(CleanEndpoints(endpoints), CleanLinks(links))
  {
    hide ByBMC, ByNode;
    CleanKeys(endpoints, links);
    forall i | 0 <= i < |CleanLinks(links)| ensures CleanLinks(links)[i].bmcID in BMCs(CleanEndpoints(endpoints)) {
      KeyAt(ByNode(links), i) by { assert |ByNode(links)| == |ByNode(links).Keys|; }
    }
  }

  ghost predicate NowHolds(t: Tables, endpoints: seq<Endpoint>, links: seq<Link>, now: Time, after: Tables) {
    && after.endpoints.Keys == ByBMC(endpoints).Keys && after.links.Keys == ByNode(links).Keys
    && (forall k :: k in after.endpoints ==> after.endpoints[k] == StampEndpoint(ByBMC(endpoints)[k], t.endpoints, now))
    && (forall n :: n in after.links ==> after.links[n] == StampLink(ByNode(links)[n], t.links, now))
  }

  /** A successful call leaves exactly the normalised desired rows, the last of each key, with the creation time of the
      row it replaces if there was one; it reports as upserted all of them and as deleted the old keys that are not
      desired. */
  lemma ReplaceRefines(t: Tables, endpoints: seq<Endpoint>, links: seq<Link>, now: Time)
    requires Complete(endpoints, links)
    ensures var (after, r) := Replace(t, endpoints, links, now, NoTxFault);
            && NowHolds(t, endpoints, links, now, after) && Referential(after)
            && r == Applied(Counts(|ByBMC(endpoints)|, |t.endpoints.Keys - ByBMC(endpoints).Keys|, |ByNode(links)|,
                                   |t.links.Keys - ByNode(links).Keys|))
  {
    hide ByBMC, ByNode, ExecAll, Script, StampEndpoint, StampLink, BMCs, Nodes, SortedKeys;
    var e, l := CleanEndpoints(endpoints), CleanLinks(links);
    CleanKeys(endpoints, links);
    CompleteCovers(endpoints, links);
    ReplacesExactly(t, e, l, now);
    var after := Replace(t, endpoints, links, now, NoTxFault).0;
    forall k | k in after.endpoints ensures after.endpoints[k] == StampEndpoint(ByBMC(endpoints)[k], t.endpoints, now) {
      var i := RowOf(endpoints, k);
    }
    forall n | n in after.links
      ensures after.links[n] == StampLink(ByNode(links)[n], t.links, now) && after.links[n].bmcID in after.endpoints
    {
      var i := LinkRowOf(links, n);
      StampedLink(ByNode(links)[n], t.links, now);
    }
  }

  lemma StampedLink(l: Link, before: map<string, Link>, now: Time)
    ensures StampLink(l, before, now).bmcID == l.bmcID
  {
  }

  /** `row` is `e`, stamped with the time of the call; a row of that key keeps the time it was created. */
  predicate StampedFrom(before: map<string, Endpoint>, now: Time, e: Endpoint, row: Endpoint) {
    row == e.(lastSyncedAt := now, updatedAt := now,
              createdAt := if e.bmcID in before then before[e.bmcID].createdAt else now)
  }

  predicate StampedLinkFrom(before: map<string, Link>, now: Time, l: Link, row: Link) {
    row == l.(lastSyncedAt := now, updatedAt := now,
              createdAt := if l.nodeID in before then before[l.nodeID].createdAt else now)
  }

  /** Both tables hold the last row given for each key, and nothing else. */
  ghost predicate HoldsGiven(t: Tables, endpoints: seq<Endpoint>, links: seq<Link>, now: Time, after: Tables) {
    && (forall b :: b in after.endpoints <==> exists e :: LastRow(endpoints, b, e))
    && (forall b, e :: b in after.endpoints && LastRow(endpoints, b, e) ==>
          StampedFrom(t.endpoints, now, e, after.endpoints[b]))
    && (forall n :: n in after.links <==> exists l :: LastLink(links, n, l))
    && (forall n, l :: n in after.links && LastLink(links, n, l) ==> StampedLinkFrom(t.links, now, l, after.links[n]))
  }

  lemma HoldsMeans(t: Tables, endpoints: seq<Endpoint>, links: seq<Link>, now: Time, after: Tables)
    requires NowHolds(t, endpoints, links, now, after)
    ensures HoldsGiven(t, endpoints, links, now, after)
  {
    hide ByBMC, ByNode, LastRow, LastLink;
    forall b, e ensures b in ByBMC(endpoints) && ByBMC(endpoints)[b] == e <==> LastRow(endpoints, b, e) {
      ByBMCMeans(endpoints, b, e);
    }
    forall n, l ensures n in ByNode(links) && ByNode(links)[n] == l <==> LastLink(links, n, l) {
      ByNodeMeans(links, n, l);
    }
    forall b | b in ByBMC(endpoints) ensures exists e :: LastRow(endpoints, b, e) {
      assert LastRow(endpoints, b, ByBMC(endpoints)[b]);
    }
    forall n | n in ByNode(links) ensures exists l :: LastLink(links, n, l) {
      assert LastLink(links, n, ByNode(links)[n]);
    }
  }

  /** The same without naming how the rows are normalised and stamped: after a successful call with links that are
      covered, each key has the last row given for it, cleaned, stamped with the time of the call, and with its old
      creation time if it had a row. */
  lemma ReplaceMeans(t: Tables, endpoints: seq<Endpoint>, links: seq<Link>, now: Time)
    requires Complete(endpoints, links)
    ensures Replace(t, endpoints, links, now, NoTxFault).1.Applied?
    ensures HoldsGiven(t, endpoints, links, now, Replace(t, endpoints, links, now, NoTxFault).0)
  {
    hide Replace, NowHolds, HoldsGiven, Complete, ByBMC, ByNode;
    ReplaceRefines(t, endpoints, links, now);
    HoldsMeans(t, endpoints, links, now, Replace(t, endpoints, links, now, NoTxFault).0);
  }
}
