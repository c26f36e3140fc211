/** Upsert every desired row, then delete what is not desired: four phases of SQL statements in one transaction
    (ReplaceTopologyMappings in store/postgres_mapping.go), and what they amount to. */
module Reconciliation {
  import opened Records
  import opened MappingTables

  datatype Statement =
    | UpsertEndpoint(endpoint: Endpoint)
    | UpsertLink(link: Link)
    | DeleteLinksExcept(nodes: set<string>)
    | DeleteEndpointsExcept(bmcs: set<string>)

  /** `ON CONFLICT DO UPDATE` sets every column but `created_at`. */
  function StampEndpoint(e: Endpoint, before: map<string, Endpoint>, now: Time): Endpoint {
    e.(lastSyncedAt := now, updatedAt := now, createdAt := if e.bmcID in before then before[e.bmcID].createdAt else now)
  }

  function StampLink(l: Link, before: map<string, Link>, now: Time): Link {
    l.(lastSyncedAt := now, updatedAt := now,
       createdAt := if l.nodeID in before then before[l.nodeID].createdAt else now)
  }

  function KeepOnly<T>(m: map<string, T>, keys: set<string>): map<string, T> {
    map k | k in m && k in keys :: m[k]
  }

  /** A statement on tables that have no foreign key. */
  function Plain(t: Tables, s: Statement, now: Time): Tables {
    match s
    case UpsertEndpoint(e) => t.(endpoints := t.endpoints[e.bmcID := StampEndpoint(e, t.endpoints, now)])
    case UpsertLink(l) => t.(links := t.links[l.nodeID := StampLink(l, t.links, now)])
    case DeleteLinksExcept(nodes) => t.(links := KeepOnly(t.links, nodes))
    case DeleteEndpointsExcept(bmcs) => t.(endpoints := KeepOnly(t.endpoints, bmcs))
  }

  /** A statement on the real tables: a link to a BMC without a row is refused, and deleting an endpoint deletes the
      links to it. */
  function Exec(t: Tables, s: Statement, now: Time): Option<Tables> {
    match s
    case UpsertLink(l) => if l.bmcID in t.endpoints then Some(Plain(t, s, now)) else None
    case DeleteEndpointsExcept(_) =>
      var after := Plain(t, s, now);
      Some(after.(links := map n | n in after.links && after.links[n].bmcID in after.endpoints :: after.links[n]))
    case _ => Some(Plain(t, s, now))
  }

  function PlainAll(t: Tables, script: seq<Statement>, now: Time): Tables {
    if script == [] then t else Plain(PlainAll(t, script[..|script| - 1], now), script[|script| - 1], now)
  }

  function ExecAll(t: Tables, script: seq<Statement>, now: Time): Option<Tables> {
    if script == [] then Some(t)
    else
      match ExecAll(t, script[..|script| - 1], now)
      case None => None
      case Some(before) => Exec(before, script[|script| - 1], now)
  }

  function Upserts(endpoints: seq<Endpoint>): (r: seq<Statement>)
    ensures |r| == |endpoints|
  {
    seq(|endpoints|, i requires 0 <= i < |endpoints| => UpsertEndpoint(endpoints[i]))
  }

  function LinkUpserts(links: seq<Link>): (r: seq<Statement>)
    ensures |r| == |links|
  {
    seq(|links|, i requires 0 <= i < |links| => UpsertLink(links[i]))
  }

  function BMCs(endpoints: seq<Endpoint>): set<string> {
    set i | 0 <= i < |endpoints| :: endpoints[i].bmcID
  }

  function Nodes(links: seq<Link>): set<string> {
    set i | 0 <= i < |links| :: links[i].nodeID
  }

  /** The order matters: endpoints before the links to them, links before the endpoints they point to. */
  function Script(endpoints: seq<Endpoint>, links: seq<Link>): seq<Statement> {
    Upserts(endpoints) + LinkUpserts(links) + [DeleteLinksExcept(Nodes(links)), DeleteEndpointsExcept(BMCs(endpoints))]
  }

  /** Every desired link points to a desired endpoint. */
  ghost predicate Covered(endpoints: seq<Endpoint>, links: seq<Link>) {
    forall i :: 0 <= i < |links| ==> links[i].bmcID in BMCs(endpoints)
  }

  ghost predicate Unique(endpoints: seq<Endpoint>, links: seq<Link>) {
    && (forall i, j :: 0 <= i < j < |endpoints| ==> endpoints[i].bmcID != endpoints[j].bmcID)
    && (forall i, j :: 0 <= i < j < |links| ==> links[i].nodeID != links[j].nodeID)
  }

  // ---------------------------------------------------------------- the simple form: replace both tables

  ghost predicate IsReplacement(t: Tables, endpoints: seq<Endpoint>, links: seq<Link>, now: Time, after: Tables) {
    && after.endpoints.Keys == BMCs(endpoints)
    && (forall i :: 0 <= i < |endpoints| ==>
          after.endpoints[endpoints[i].bmcID] == StampEndpoint(endpoints[i], t.endpoints, now))
    && after.links.Keys == Nodes(links)
    && (forall i :: 0 <= i < |links| ==> after.links[links[i].nodeID] == StampLink(links[i], t.links, now))
  }

  lemma PlainNext(t: Tables, script: seq<Statement>, s: Statement, now: Time)
    ensures PlainAll(t, script + [s], now) == Plain(PlainAll(t, script, now), s, now)
    ensures ExecAll(t, script + [s], now) ==
      match ExecAll(t, script, now) case None => None case Some(before) => Exec(before, s, now)
  {
    assert (script + [s])[..|script|] == script;
  }

  /** After the endpoint upserts. */
  lemma {:induction false} EndpointsUpserted(t: Tables, endpoints: seq<Endpoint>, now: Time)
    requires Unique(endpoints, [])
    ensures var after := PlainAll(t, Upserts(endpoints), now);
            && after.links == t.links && after.endpoints.Keys == t.endpoints.Keys + BMCs(endpoints)
            && (forall i :: 0 <= i < |endpoints| ==>
                  after.endpoints[endpoints[i].bmcID] == StampEndpoint(endpoints[i], t.endpoints, now))
            && (forall k :: k in t.endpoints && k !in BMCs(endpoints) ==> after.endpoints[k] == t.endpoints[k])
            && ExecAll(t, Upserts(endpoints), now) == Some(after)
  {
    hide StampEndpoint, BMCs, Unique;
    if endpoints == [] {
      assert BMCs(endpoints) == {} by { NoBMCs(); }
    } else {
      var n := |endpoints| - 1;
      LastBMC(endpoints);
      EndpointsUpserted(t, endpoints[..n], now);
      assert Upserts(endpoints) == Upserts(endpoints[..n]) + [UpsertEndpoint(endpoints[n])];
      PlainNext(t, Upserts(endpoints[..n]), UpsertEndpoint(endpoints[n]), now);
      hide PlainAll, ExecAll, Upserts;
      StampSame(endpoints[n], PlainAll(t, Upserts(endpoints[..n]), now).endpoints, t.endpoints, now);
      assert forall i :: 0 <= i < n ==> endpoints[..n][i] == endpoints[i];
    }
  }

  lemma NoBMCs()
    ensures BMCs([]) == {}
  {
  }

  lemma LastBMC(endpoints: seq<Endpoint>)
    requires endpoints != []
    ensures var n := |endpoints| - 1;
            && BMCs(endpoints) == BMCs(endpoints[..n]) + {endpoints[n].bmcID}
            && (Unique(endpoints, []) ==> endpoints[n].bmcID !in BMCs(endpoints[..n]) && Unique(endpoints[..n], []))
            && (forall i :: 0 <= i < n ==> endpoints[i].bmcID in BMCs(endpoints[..n]))
  {
    var n := |endpoints| - 1;
    forall i | 0 <= i < n
      ensures endpoints[i].bmcID in BMCs(endpoints[..n])
    {
      assert endpoints[..n][i] == endpoints[i];
    }
    forall k ensures k in BMCs(endpoints) <==> k in BMCs(endpoints[..n]) || k == endpoints[n].bmcID {
      if k in BMCs(endpoints) {
        var i :| 0 <= i < |endpoints| && endpoints[i].bmcID == k;
      }
    }
  }

  lemma StampSame(e: Endpoint, a: map<string, Endpoint>, b: map<string, Endpoint>, now: Time)
    requires (e.bmcID in a <==> e.bmcID in b) && (e.bmcID in a ==> a[e.bmcID] == b[e.bmcID])
    ensures StampEndpoint(e, a, now) == StampEndpoint(e, b, now)
  {
  }

  lemma LastNode(links: seq<Link>)
    requires links != []
    ensures var n := |links| - 1;
            && Nodes(links) == Nodes(links[..n]) + {links[n].nodeID}
            && (Unique([], links) ==> links[n].nodeID !in Nodes(links[..n]) && Unique([], links[..n]))
            && (forall i :: 0 <= i < n ==> links[i].nodeID in Nodes(links[..n]))
  {
    var n := |links| - 1;
    forall i | 0 <= i < n ensures links[i].nodeID in Nodes(links[..n]) { assert links[..n][i] == links[i]; }
    forall k ensures k in Nodes(links) <==> k in Nodes(links[..n]) || k == links[n].nodeID {
      if k in Nodes(links) {
        var i :| 0 <= i < |links| && links[i].nodeID == k;
      }
    }
  }

  lemma StampLinkSame(l: Link, a: map<string, Link>, b: map<string, Link>, now: Time)
    requires (l.nodeID in a <==> l.nodeID in b) && (l.nodeID in a ==> a[l.nodeID] == b[l.nodeID])
    ensures StampLink(l, a, now) == StampLink(l, b, now)
  {
  }

  /** After the link upserts. */
  lemma {:induction false} LinksUpserted(t: Tables, links: seq<Link>, now: Time)
    requires Unique([], links)
    ensures var after := PlainAll(t, LinkUpserts(links), now);
            && after.endpoints == t.endpoints && after.links.Keys == t.links.Keys + Nodes(links)
            && (forall i :: 0 <= i < |links| ==> after.links[links[i].nodeID] == StampLink(links[i], t.links, now))
            && (forall k :: k in t.links && k !in Nodes(links) ==> after.links[k] == t.links[k])
  {
    hide StampLink, Nodes;
    if links == [] {
      assert Nodes(links) == {} by { NoNodes(); }
    } else {
      var n := |links| - 1;
      LinksUpserted(t, links[..n], now);
      assert LinkUpserts(links) == LinkUpserts(links[..n]) + [UpsertLink(links[n])];
      PlainNext(t, LinkUpserts(links[..n]), UpsertLink(links[n]), now);
      hide PlainAll, LinkUpserts;
      LastNode(links);
      StampLinkSame(links[n], PlainAll(t, LinkUpserts(links[..n]), now).links, t.links, now);
      assert forall i :: 0 <= i < n ==> links[..n][i] == links[i];
    }
  }

  lemma NoNodes()
    ensures Nodes([]) == {}
  {
  }

  lemma LinkUpsertsLast(links: seq<Link>)
    requires links != []
    ensures LinkUpserts(links) == LinkUpserts(links[..|links| - 1]) + [UpsertLink(links[|links| - 1])]
  {
  }

  ghost predicate Known(links: seq<Link>, endpoints: map<string, Endpoint>) {
    forall i :: 0 <= i < |links| ==> links[i].bmcID in endpoints
  }

  lemma KnownLast(links: seq<Link>, endpoints: map<string, Endpoint>)
    requires links != []
    ensures Known(links, endpoints) <==> Known(links[..|links| - 1], endpoints) && links[|links| - 1].bmcID in endpoints
  {
    assert forall i :: 0 <= i < |links| - 1 ==> links[..|links| - 1][i] == links[i];
  }

  /** The link upserts go through unless one of the links points to a BMC that has no row. */
  lemma {:induction false} LinksAccepted(t: Tables, links: seq<Link>, now: Time)
    requires Unique([], links)
    ensures ExecAll(t, LinkUpserts(links), now) == if Known(links, t.endpoints)
      then Some(PlainAll(t, LinkUpserts(links), now)) else None
  {
    hide Plain;
    if links != [] {
      var n := |links| - 1;
      assert Unique([], links[..n]);
      LinksAccepted(t, links[..n], now);
      LinksUpserted(t, links[..n], now);
      LinkUpsertsLast(links);
      PlainNext(t, LinkUpserts(links[..n]), UpsertLink(links[n]), now);
      KnownLast(links, t.endpoints);
      hide PlainAll, ExecAll, LinkUpserts, Known;
    }
  }

  lemma {:induction false} InSequence(t: Tables, a: seq<Statement>, b: seq<Statement>, now: Time)
    ensures PlainAll(t, a + b, now) == PlainAll(PlainAll(t, a, now), b, now)
    ensures ExecAll(t, a + b, now) ==
      match ExecAll(t, a, now) case None => None case Some(before) => ExecAll(before, b, now)
  {
    if b == [] {
      assert a + b == a;
    } else {
      var n := |b| - 1;
      InSequence(t, a, b[..n], now);
      assert a + b == (a + b[..n]) + [b[n]];
      PlainNext(t, a + b[..n], b[n], now);
    }
  }

  // ---------------------------------------------------------------- the script refines the replacement

  /** After the third phase the links are the desired ones; the endpoints still include the old ones. */
  ghost predicate ThirdPhase(t: Tables, endpoints: seq<Endpoint>, links: seq<Link>, now: Time, after: Tables) {
    && after.endpoints.Keys == t.endpoints.Keys + BMCs(endpoints)
    && (forall i :: 0 <= i < |endpoints| ==>
          after.endpoints[endpoints[i].bmcID] == StampEndpoint(endpoints[i], t.endpoints, now))
    && after.links.Keys == Nodes(links)
    && (forall i :: 0 <= i < |links| ==> after.links[links[i].nodeID] == StampLink(links[i], t.links, now))
  }

  ghost predicate Accepted(t: Tables, endpoints: seq<Endpoint>, links: seq<Link>) {
    forall i :: 0 <= i < |links| ==> links[i].bmcID in t.endpoints || links[i].bmcID in BMCs(endpoints)
  }

  lemma NodeIn(links: seq<Link>, i: nat)
    requires i < |links|
    ensures links[i].nodeID in Nodes(links)
  {
  }

  lemma BMCIn(endpoints: seq<Endpoint>, i: nat)
    requires i < |endpoints|
    ensures endpoints[i].bmcID in BMCs(endpoints)
  {
  }

  lemma UpsertPhases(t: Tables, endpoints: seq<Endpoint>, links: seq<Link>, now: Time)
    requires Unique(endpoints, links)
    ensures var script := Upserts(endpoints) + LinkUpserts(links);
            && ThirdPhase(t, endpoints, links, now,
                          Plain(PlainAll(t, script, now), DeleteLinksExcept(Nodes(links)), now))
            && ExecAll(t, script, now) == if Accepted(t, endpoints, links) then Some(PlainAll(t, script, now)) else None
  {
    hide PlainAll, ExecAll, Upserts, LinkUpserts, BMCs, Nodes, StampEndpoint, StampLink;
    var one := PlainAll(t, Upserts(endpoints), now);
    EndpointsUpserted(t, endpoints, now);
    LinksUpserted(one, links, now);
    LinksAccepted(one, links, now);
    InSequence(t, Upserts(endpoints), LinkUpserts(links), now);
    forall i | 0 <= i < |links| ensures links[i].nodeID in Nodes(links) { NodeIn(links, i); }
    forall i | 0 <= i < |endpoints| ensures endpoints[i].bmcID in BMCs(endpoints) { BMCIn(endpoints, i); }
  }

  lemma ScriptEnds(t: Tables, endpoints: seq<Endpoint>, links: seq<Link>, now: Time)
    ensures var script := Upserts(endpoints) + LinkUpserts(links);
            var d, e := DeleteLinksExcept(Nodes(links)), DeleteEndpointsExcept(BMCs(endpoints));
            && PlainAll(t, script + [d], now) == Plain(PlainAll(t, script, now), d, now)
            && PlainAll(t, Script(endpoints, links), now) == Plain(PlainAll(t, script + [d], now), e, now)
            && ExecAll(t, Script(endpoints, links), now) ==
               match ExecAll(t, script, now)
               case None => None
               case Some(before) => Exec(Plain(before, d, now), e, now)
  {
    hide PlainAll, ExecAll, Upserts, LinkUpserts, BMCs, Nodes;
    var script := Upserts(endpoints) + LinkUpserts(links);
    var d, e := DeleteLinksExcept(Nodes(links)), DeleteEndpointsExcept(BMCs(endpoints));
    PlainNext(t, script, d, now);
    PlainNext(t, script + [d], e, now);
    assert Script(endpoints, links) == script + [d] + [e];
  }

  /** What the transaction leaves: it is refused exactly if a desired link points to a BMC that has neither an old nor a
      desired row; else exactly the desired endpoints, and the desired links that point to one of them. */
  lemma Outcome(t: Tables, endpoints: seq<Endpoint>, links: seq<Link>, now: Time)
    requires Unique(endpoints, links)
    ensures var r := ExecAll(t, Script(endpoints, links), now);
            && (r.Some? <==> Accepted(t, endpoints, links))
            && (r.Some? ==>
                  && r.value.endpoints.Keys == BMCs(endpoints)
                  && (forall i :: 0 <= i < |endpoints| ==>
                        endpoints[i].bmcID in BMCs(endpoints) &&
                        r.value.endpoints[endpoints[i].bmcID] == StampEndpoint(endpoints[i], t.endpoints, now))
                  && r.value.links.Keys <= Nodes(links)
                  && (forall i :: 0 <= i < |links| ==>
                        (links[i].nodeID in r.value.links <==> links[i].bmcID in BMCs(endpoints)))
                  && (forall i :: 0 <= i < |links| && links[i].nodeID in r.value.links ==>
                        r.value.links[links[i].nodeID] == StampLink(links[i], t.links, now)))
  {
    hide PlainAll, ExecAll, Upserts, LinkUpserts, Script, BMCs, Nodes, StampEndpoint;
    UpsertPhases(t, endpoints, links, now);
    ScriptEnds(t, endpoints, links, now);
    var script := Upserts(endpoints) + LinkUpserts(links);
    if Accepted(t, endpoints, links) {
      var three := Plain(PlainAll(t, script, now), DeleteLinksExcept(Nodes(links)), now);
      hide Accepted;
      forall i | 0 <= i < |links|
        ensures links[i].nodeID in Nodes(links) && three.links[links[i].nodeID].bmcID == links[i].bmcID
      {
        NodeIn(links, i);
      }
      forall i | 0 <= i < |endpoints| ensures endpoints[i].bmcID in BMCs(endpoints) { BMCIn(endpoints, i); }
    }
  }

  /** Upsert-then-delete-stale is "replace both tables" if and only if the desired links point to desired endpoints. */
  lemma ReplacesExactly(t: Tables, endpoints: seq<Endpoint>, links: seq<Link>, now: Time)
    requires Unique(endpoints, links)
    ensures var r := ExecAll(t, Script(endpoints, links), now);
            Covered(endpoints, links) <==> r.Some? && IsReplacement(t, endpoints, links, now, r.value)
  {
    hide ExecAll, Script, BMCs, Nodes, StampEndpoint, StampLink;
    Outcome(t, endpoints, links, now);
    var r := ExecAll(t, Script(endpoints, links), now);
    forall i | 0 <= i < |links| ensures links[i].nodeID in Nodes(links) { NodeIn(links, i); }
    if Covered(endpoints, links) {
      forall n | n in Nodes(links) ensures n in r.value.links {
        var i := NodeAt(links, n);
      }
    }
  }

  lemma NodeAt(links: seq<Link>, n: string) returns (i: nat)
    requires n in Nodes(links)
    ensures i < |links| && links[i].nodeID == n
  {
    i :| 0 <= i < |links| && links[i].nodeID == n;
  }

  // ---------------------------------------------------------------- after every statement

  lemma LinksIntact(t: Tables, endpoints: seq<Endpoint>, links: seq<Link>, k: nat, now: Time)
    requires Unique(endpoints, links) && Covered(endpoints, links) && Referential(t) && k <= |links|
    ensures Referential(PlainAll(t, Upserts(endpoints) + LinkUpserts(links[..k]), now))
  {
    hide PlainAll, ExecAll, Upserts, LinkUpserts, BMCs, Nodes, StampEndpoint;
    var one := PlainAll(t, Upserts(endpoints), now);
    EndpointsUpserted(t, endpoints, now);
    assert Unique([], links[..k]);
    LinksUpserted(one, links[..k], now);
    InSequence(t, Upserts(endpoints), LinkUpserts(links[..k]), now);
    var two := PlainAll(one, LinkUpserts(links[..k]), now);
    forall n | n in two.links ensures two.links[n].bmcID in two.endpoints {
      if n in Nodes(links[..k]) {
        var i := NodeAt(links[..k], n);
        assert links[..k][i] == links[i] && links[i].bmcID in BMCs(endpoints);
      }
    }
  }

  /** Referential integrity holds after every single statement, on tables without a foreign key as well: it is the order
      of the four phases, not the database, that keeps it. */
  lemma IntactThroughout(t: Tables, endpoints: seq<Endpoint>, links: seq<Link>, k: nat, now: Time)
    requires Unique(endpoints, links) && Covered(endpoints, links) && Referential(t) && k <= |Script(endpoints, links)|
    ensures Referential(PlainAll(t, Script(endpoints, links)[..k], now))
  {
    hide PlainAll, ExecAll;
    var e, l := |endpoints|, |links|;
    var script := Script(endpoints, links);
    if k <= e {
      EndpointsUpserted(t, endpoints[..k], now);
      assert script[..k] == Upserts(endpoints[..k]);
    } else if k <= e + l {
      LinksIntact(t, endpoints, links, k - e, now);
      assert script[..k] == Upserts(endpoints) + LinkUpserts(links[..k - e]);
    } else {
      LastTwoIntact(t, endpoints, links, k, now);
    }
  }

  lemma LastTwoIntact(t: Tables, endpoints: seq<Endpoint>, links: seq<Link>, k: nat, now: Time)
    requires Unique(endpoints, links) && Covered(endpoints, links) && Referential(t)
    requires |endpoints| + |links| < k <= |Script(endpoints, links)|
    ensures Referential(PlainAll(t, Script(endpoints, links)[..k], now))
  {
    var script := Upserts(endpoints) + LinkUpserts(links);
    var d := DeleteLinksExcept(Nodes(links));
    if k == |endpoints| + |links| + 1 {
      assert Script(endpoints, links)[..k] == script + [d];
    } else {
      assert Script(endpoints, links)[..k] == Script(endpoints, links);
    }
    hide PlainAll, ExecAll, Upserts, LinkUpserts, Script, BMCs, Nodes, StampEndpoint;
    UpsertPhases(t, endpoints, links, now);
    ScriptEnds(t, endpoints, links, now);
    var three := PlainAll(t, script + [d], now);
    forall n | n in three.links
      ensures three.links[n].bmcID in BMCs(endpoints) && three.links[n].bmcID in three.endpoints
    {
      var i := NodeAt(links, n);
      assert links[i].bmcID in BMCs(endpoints);
    }
  }

  lemma CascadeIdle(t: Tables, bmcs: set<string>, now: Time)
    requires Referential(Plain(t, DeleteEndpointsExcept(bmcs), now))
    ensures Exec(t, DeleteEndpointsExcept(bmcs), now) == Some(Plain(t, DeleteEndpointsExcept(bmcs), now))
  {
    var after := Plain(t, DeleteEndpointsExcept(bmcs), now);
    assert (map n | n in after.links && after.links[n].bmcID in after.endpoints :: after.links[n]) == after.links;
  }

  lemma CoveredAccepted(t: Tables, endpoints: seq<Endpoint>, links: seq<Link>)
    requires Covered(endpoints, links)
    ensures Accepted(t, endpoints, links)
  {
    hide BMCs;
  }

  /** So the foreign key never refuses a statement and the cascade never deletes a link. */
  lemma ForeignKeyIdle(t: Tables, endpoints: seq<Endpoint>, links: seq<Link>, now: Time)
    requires Unique(endpoints, links) && Covered(endpoints, links) && Referential(t)
    ensures ExecAll(t, Script(endpoints, links), now) == Some(PlainAll(t, Script(endpoints, links), now))
  {
    hide PlainAll, ExecAll, Script, BMCs, Nodes, Plain, Exec, Covered, Accepted, Referential, Upserts, LinkUpserts,
         Unique;
    IntactThroughout(t, endpoints, links, |Script(endpoints, links)|, now);
    assert Script(endpoints, links)[..|Script(endpoints, links)|] == Script(endpoints, links);
    CoveredAccepted(t, endpoints, links);
    UpsertPhases(t, endpoints, links, now);
    ScriptEnds(t, endpoints, links, now);
    var three := PlainAll(t, Upserts(endpoints) + LinkUpserts(links) + [DeleteLinksExcept(Nodes(links))], now);
    CascadeIdle(three, BMCs(endpoints), now);
  }

  /** With a link upserted before its endpoint, or an endpoint deleted before the links to it, integrity is lost on the
      way. */
  lemma OrderMatters(t: Tables, link: Link, n: string, now: Time)
    requires link.bmcID !in t.endpoints && n in t.links && t.links[n].bmcID in t.endpoints
    ensures !Referential(Plain(t, UpsertLink(link), now)) && Exec(t, UpsertLink(link), now).None?
    ensures !Referential(Plain(t, DeleteEndpointsExcept({}), now))
    ensures Exec(t, DeleteEndpointsExcept({}), now).value.links == map[]
  {
    var linked := Plain(t, UpsertLink(link), now);
    assert link.nodeID in linked.links && linked.links[link.nodeID].bmcID == link.bmcID;
    var deleted := Plain(t, DeleteEndpointsExcept({}), now);
    assert n in deleted.links && deleted.links[n].bmcID !in deleted.endpoints;
  }
}
