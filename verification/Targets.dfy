/** From the targets of a request to one task per node (server/handlers_transitions.go, then the mapping lookup and the
    planning of the runner). */
module Targets {
  import opened Text
  import opened Records
  import opened PowerStates
  import opened Planning
  import opened MappingTables
  import opened MappingStore

  // ---------------------------------------------------------------- parseTargetList

  /** `strings.Split(s, ",")`. */
  function Split(s: string): (r: seq<string>)
    ensures |r| >= 1
  {
    if s == [] then [""]
    else
      var rest := Split(s[1..]);
      if s[0] == ',' then [""] + rest else [[s[0]] + rest[0]] + rest[1..]
  }

  function Join(pieces: seq<string>): string
    requires pieces != []
  {
    if |pieces| == 1 then pieces[0] else pieces[0] + "," + Join(pieces[1..])
  }

  /** The pieces have no comma and give the string back. */
  lemma {:induction false} SplitJoins(s: string)
    ensures Join(Split(s)) == s
    ensures forall i :: 0 <= i < |Split(s)| ==> ',' !in Split(s)[i]
  {
    if s != [] {
      SplitJoins(s[1..]);
      var rest := Split(s[1..]);
      if s[0] == ',' {
        assert ([""] + rest)[1..] == rest;
        assert "" + "," + Join(rest) == s;
      } else {
        var first := [s[0]] + rest[0];
        assert ([first] + rest[1..])[1..] == rest[1..];
        assert [s[0]] + s[1..] == s;
        if |rest| > 1 {
          assert first + "," + Join(rest[1..]) == [s[0]] + (rest[0] + "," + Join(rest[1..]));
        }
      }
    }
  }

  /** `p` stands in `s` from place `i` on, between two commas or an end and a comma. */
  predicate PieceAt(s: string, p: string, i: nat) {
    && i + |p| <= |s| && s[i..i + |p|] == p && ',' !in p
    && (i == 0 || s[i - 1] == ',') && (i + |p| == |s| || s[i + |p|] == ',')
  }

  ghost predicate Piece(s: string, p: string) {
    exists i :: PieceAt(s, p, i)
  }

  lemma PieceShifts(s: string, p: string, i: nat)
    requires s != [] && i > 0
    ensures PieceAt(s, p, i) <==> PieceAt(s[1..], p, i - 1) && (i == 1 ==> s[0] == ',')
  {
    if i + |p| <= |s| {
      assert s[i..i + |p|] == s[1..][i - 1..i - 1 + |p|];
    }
  }

  lemma FirstShifts(s: string, p: string)
    requires s != [] && s[0] != ','
    ensures PieceAt(s, p, 0) <==> p != "" && p[0] == s[0] && PieceAt(s[1..], p[1..], 0)
  {
    if p != "" && p[0] == s[0] && |p| <= |s| {
      assert p == [p[0]] + p[1..];
      assert s[0..0 + |p|] == [s[0]] + s[1..][0..|p[1..]|];
      assert s[1..][0..|p[1..]|] == s[0..0 + |p|][1..];
    }
  }

  lemma LaterShifts(s: string, p: string)
    requires s != []
    ensures (exists i :: i > 0 && PieceAt(s, p, i)) <==>
            (s[0] == ',' && PieceAt(s[1..], p, 0)) || exists i :: i > 0 && PieceAt(s[1..], p, i)
  {
    hide PieceAt;
    if i :| i > 0 && PieceAt(s, p, i) {
      PieceShifts(s, p, i);
      assert PieceAt(s[1..], p, i - 1);
    }
    if s[0] == ',' && PieceAt(s[1..], p, 0) {
      PieceShifts(s, p, 1);
    }
    if i :| i > 0 && PieceAt(s[1..], p, i) {
      PieceShifts(s, p, i + 1);
      assert PieceAt(s, p, i + 1);
    }
  }

  lemma {:induction false} SplitFirst(s: string, p: string)
    ensures p == Split(s)[0] <==> PieceAt(s, p, 0)
  {
    if s != [] {
      hide PieceAt;
      if s[0] == ',' {
        CommaFirst(s, p);
      } else {
        FirstShifts(s, p);
        if p != "" {
          SplitFirst(s[1..], p[1..]);
          assert p == [p[0]] + p[1..];
        }
      }
    }
  }

  /** The pieces are the stretches between commas. */
  lemma {:induction false} SplitMeans(s: string, p: string)
    ensures p == Split(s)[0] <==> PieceAt(s, p, 0)
    ensures p in Split(s)[1..] <==> exists i :: i > 0 && PieceAt(s, p, i)
  {
    SplitFirst(s, p);
    if s != [] {
      hide PieceAt;
      var rest := Split(s[1..]);
      SplitMeans(s[1..], p);
      LaterShifts(s, p);
      assert rest == [rest[0]] + rest[1..];
      assert Split(s)[1..] == if s[0] == ',' then rest else rest[1..];
      hide Split;
    }
  }

  lemma CommaFirst(s: string, p: string)
    requires s != [] && s[0] == ','
    ensures PieceAt(s, p, 0) <==> p == ""
  {
    if p != "" && |p| <= |s| {
      assert s[0..|p|][0] == s[0];
    }
  }

  /** The trimmed pieces that are not blank, in order. */
  function Pieces(pieces: seq<string>): seq<string> {
    if pieces == [] then []
    else
      var p := TrimSpace(pieces[|pieces| - 1]);
      Pieces(pieces[..|pieces| - 1]) + if p == "" then [] else [p]
  }

  function TargetList(items: seq<string>): seq<string> {
    if items == [] then [] else TargetList(items[..|items| - 1]) + Pieces(Split(items[|items| - 1]))
  }

  method ParseTargetList(items: seq<string>) returns (result: seq<string>)
    ensures result == TargetList(items)
  {
    hide TrimSpace;
    result := [];
    for i := 0 to |items|
      invariant result == TargetList(items[..i])
    {
      assert items[..i + 1][..i] == items[..i];
      var before, pieces := result, Split(items[i]);
      for j := 0 to |pieces|
        invariant result == before + Pieces(pieces[..j])
      {
        assert pieces[..j + 1][..j] == pieces[..j];
        var normalized := TrimSpace(pieces[j]);
        if normalized == "" {
          continue;
        }
        result := result + [normalized];
      }
      assert pieces[..|pieces|] == pieces;
    }
    assert items[..|items|] == items;
  }

  /** What a list names: whatever stands between commas, without the space around it, unless it is blank. */
  ghost predicate Names(items: seq<string>, n: string) {
    n != "" && Trimmed(n) && exists i, p :: 0 <= i < |items| && Piece(items[i], p) && Padded(p, n)
  }

  lemma {:induction false} PiecesMean(pieces: seq<string>, n: string)
    ensures n in Pieces(pieces) <==> OneOf(pieces, n)
  {
    hide TrimSpace, OneOf;
    if pieces == [] {
      OneOfMeans(pieces, n);
    } else {
      var k := |pieces| - 1;
      PiecesMean(pieces[..k], n);
      OneOfNext(pieces[..k], pieces[k], n);
      assert pieces == pieces[..k] + [pieces[k]];
    }
  }

  /** One item of the list. */
  lemma ItemMeans(item: string, n: string)
    ensures n in Pieces(Split(item)) <==> n != "" && Trimmed(n) && exists p :: Piece(item, p) && Padded(p, n)
  {
    hide Pieces, Split, Piece, Padded, Trimmed;
    PiecesMean(Split(item), n);
    forall p ensures p in Split(item) <==> Piece(item, p) { PieceMeans(item, p); }
    if OneOf(Split(item), n) {
      var j :| 0 <= j < |Split(item)| && Padded(Split(item)[j], n);
      assert Piece(item, Split(item)[j]);
    }
  }

  lemma PieceMeans(item: string, p: string)
    ensures p in Split(item) <==> Piece(item, p)
  {
    hide Split, PieceAt;
    SplitMeans(item, p);
    assert Split(item) == [Split(item)[0]] + Split(item)[1..];
  }

  lemma {:induction false} TargetListMeans(items: seq<string>, n: string)
    ensures n in TargetList(items) <==> Names(items, n)
  {
    hide TrimSpace, Split, Pieces, Piece, Padded, Trimmed;
    if items != [] {
      var k := |items| - 1;
      TargetListMeans(items[..k], n);
      ItemMeans(items[k], n);
      if Names(items[..k], n) {
        var i, p :| 0 <= i < k && Piece(items[..k][i], p) && Padded(p, n);
        assert Piece(items[i], p);
      }
      if Names(items, n) {
        var i, p :| 0 <= i < |items| && Piece(items[i], p) && Padded(p, n);
        if i < k {
          assert Piece(items[..k][i], p);
        }
      }
    }
  }

  // ---------------------------------------------------------------- resolveTargets

  datatype Members = GroupMembers(names: seq<string>) | GroupError

  datatype Resolution = Resolved(nodes: seq<string>) | GroupsUnavailable | GroupFailed(group: string) | NoTargets

  /** What the request asks for: its nodes, and the members of its groups. */
  ghost predicate Wanted(nodes: seq<string>, groups: seq<string>, members: string -> Members, n: string) {
    Names(nodes, n) || exists g :: Names(groups, g) && members(g).GroupMembers? && Names(members(g).names, n)
  }

  method AddNew(found: seq<string>, unique: set<string>, names: seq<string>)
    returns (found': seq<string>, unique': set<string>)
    requires Distinct(found) && Elements(found) == unique
    ensures Distinct(found') && Elements(found') == unique' == unique + Elements(names)
  {
    hide Elements, Distinct;
    found', unique' := found, unique;
    assert Elements(names[..0]) == {} by { NoKeys(); }
    for i := 0 to |names|
      invariant Distinct(found') && Elements(found') == unique' == unique + Elements(names[..i])
    {
      AddedElement(names[..i], names[i]);
      assert names[..i + 1] == names[..i] + [names[i]];
      if names[i] in unique' {
        continue;
      }
      OneMoreKey(found', names[i]);
      unique' := unique' + {names[i]};
      found' := found' + [names[i]];
    }
    assert names[..|names|] == names;
  }

  /** The members of the first `k` groups. */
  ghost function MembersOf(groups: seq<string>, members: string -> Members): set<string> {
    if groups == [] then {}
    else
      var g := groups[|groups| - 1];
      MembersOf(groups[..|groups| - 1], members) + if members(g).GroupMembers?
        then Elements(TargetList(members(g).names)) else {}
  }

  lemma {:induction false} MembersMean(groups: seq<string>, members: string -> Members, n: string)
    ensures n in MembersOf(groups, members) <==>
             exists g :: g in groups && members(g).GroupMembers? && n in TargetList(members(g).names)
  {
    hide TargetList;
    if groups != [] {
      var k := |groups| - 1;
      MembersMean(groups[..k], members, n);
      assert groups == groups[..k] + [groups[k]];
    }
  }

  lemma WantedMeans(nodes: seq<string>, groups: seq<string>, members: string -> Members, n: string)
    ensures Wanted(nodes, groups, members, n) <==>
            n in Elements(TargetList(nodes)) + MembersOf(TargetList(groups), members)
  {
    hide TargetList, Names, MembersOf;
    TargetListMeans(nodes, n);
    ElementOf(TargetList(nodes), n);
    MembersMean(TargetList(groups), members, n);
    forall g ensures g in TargetList(groups) <==> Names(groups, g) { TargetListMeans(groups, g); }
    forall g | members(g).GroupMembers? ensures n in TargetList(members(g).names) <==> Names(members(g).names, n) {
      TargetListMeans(members(g).names, n);
    }
  }

  method ResolveTargets(nodes: seq<string>, groups: seq<string>, available: bool,
                        members: string -> Members) returns (r: Resolution)
    ensures r.GroupsUnavailable? <==> TargetList(groups) != [] && !available
    ensures r.GroupFailed? ==>
              exists k :: 0 <= k < |TargetList(groups)| && TargetList(groups)[k] == r.group &&
                members(r.group).GroupError?
                          && forall j :: 0 <= j < k ==> members(TargetList(groups)[j]).GroupMembers?
    ensures r.Resolved? || r.NoTargets? ==> forall g :: g in TargetList(groups) ==> members(g).GroupMembers?
    ensures r.Resolved? ==> r.nodes != [] && Ascending(r.nodes) && forall n :: n in r.nodes <==>
             Wanted(nodes, groups, members, n)
    ensures r.NoTargets? ==> forall n :: !Wanted(nodes, groups, members, n)
  {
    hide TargetList, Elements, Distinct, Ascending;
    var names := ParseTargetList(nodes);
    NoKeys();
    var resolved, unique := AddNew([], {}, names);
    var groupNames := ParseTargetList(groups);
    if |groupNames| > 0 && !available {
      return GroupsUnavailable;
    }
    for i := 0 to |groupNames|
      invariant Distinct(resolved)
      invariant Elements(resolved) == unique == Elements(names) + MembersOf(groupNames[..i], members)
      invariant forall j :: 0 <= j < i ==> members(groupNames[j]).GroupMembers?
    {
      assert groupNames[..i + 1][..i] == groupNames[..i];
      var answer := members(groupNames[i]);
      if answer.GroupError? {
        return GroupFailed(groupNames[i]);
      }
      var expanded := ParseTargetList(answer.names);
      resolved, unique := AddNew(resolved, unique, expanded);
    }
    assert groupNames[..|groupNames|] == groupNames;
    resolved := SortStrings(resolved);
    forall n ensures n in resolved <==> Wanted(nodes, groups, members, n) {
      WantedMeans(nodes, groups, members, n);
      ElementOf(resolved, n);
    }
    if |resolved| == 0 {
      return NoTargets;
    }
    return Resolved(resolved);
  }

  lemma ElementOf(s: seq<string>, n: string)
    ensures n in Elements(s) <==> n in s
  {
  }

  // ---------------------------------------------------------------- from targets to tasks

  /** Whatever is asked for is trimmed and not blank. */
  lemma WantedTidy(nodes: seq<string>, groups: seq<string>, members: string -> Members, n: string)
    requires Wanted(nodes, groups, members, n)
    ensures Trimmed(n) && n != ""
  {
    hide Trimmed, Piece, Padded;
  }

  /** The runner normalises the resolved targets once more; that changes nothing. */
  lemma NothingToNormalize(targets: seq<string>, ordered: seq<string>)
    requires Ascending(targets) && Tidied(targets)
    requires Ascending(ordered)
    requires forall n :: n in ordered <==> OneOf(targets, n)
    ensures ordered == targets
  {
    hide TrimSpace, Trimmed, Ascending, OneOf;
    forall n ensures n in ordered <==> n in targets {
      OneOfMeans(targets, n);
      if n in targets {
        var i :| 0 <= i < |targets| && targets[i] == n;
        assert TrimSpace(targets[i]) == n;
      }
    }
    forall n ensures n in Elements(ordered) <==> n in Elements(targets) { }
    AscendingUnique(ordered, targets);
  }

  lemma {:induction false} RequestedAsTheyAre(nodes: seq<string>)
    requires Tidied(nodes)
    ensures Requested(nodes) == nodes
  {
    hide TrimSpace, Trimmed;
    if nodes != [] {
      RequestedAsTheyAre(nodes[..|nodes| - 1]);
      assert nodes == nodes[..|nodes| - 1] + [nodes[|nodes| - 1]];
    }
  }

  lemma MappingNext(items: seq<Mapping>, m: Mapping)
    ensures MappingByNode(items + [m]) == MappingByNode(items)[TrimSpace(m.nodeID) := m]
  {
    assert (items + [m])[..|items|] == items;
  }

  lemma MissingNext(items: seq<MappingError>, e: MappingError)
    ensures MissingByNode(items + [e]) == MissingByNode(items)[TrimSpace(e.nodeID) := e]
  {
    assert (items + [e])[..|items|] == items;
  }

  lemma ResolvedNext(t: Tables, nodes: seq<string>, n: string)
    requires Trimmed(n)
    ensures MappingByNode(ResolvedOf(t, nodes + [n])) ==
            if Routable(t, n) then MappingByNode(ResolvedOf(t, nodes))[n := Joined(t, n).value]
              else MappingByNode(ResolvedOf(t, nodes))
  {
    hide TrimSpace, Routable, Joined, MappingByNode;
    assert (nodes + [n])[..|nodes|] == nodes;
    JoinedNode(t, n);
    assert ResolvedOf(t, nodes + [n]) == ResolvedOf(t, nodes) + if Routable(t, n) then [Joined(t, n).value] else [];
    hide ResolvedOf;
    if Routable(t, n) {
      MappingNext(ResolvedOf(t, nodes), Joined(t, n).value);
      assert TrimSpace(n) == n;
    } else {
      assert ResolvedOf(t, nodes) + [] == ResolvedOf(t, nodes);
    }
  }

  lemma MissedNext(t: Tables, nodes: seq<string>, n: string)
    requires Trimmed(n)
    ensures MissingByNode(MissingOf(t, nodes + [n])) ==
            if Routable(t, n) then MissingByNode(MissingOf(t, nodes))
              else MissingByNode(MissingOf(t, nodes))[n := ErrorOf(t, n)]
  {
    hide TrimSpace, Routable, ErrorOf, MissingByNode;
    assert (nodes + [n])[..|nodes|] == nodes;
    JoinedNode(t, n);
    if Routable(t, n) {
      assert MissingOf(t, nodes) + [] == MissingOf(t, nodes);
    } else {
      MissingNext(MissingOf(t, nodes), ErrorOf(t, n));
      assert TrimSpace(n) == n;
    }
  }

  /** The two lookup tables of the runner cover the targets, and do not overlap. */
  lemma {:induction false} ResolvedTable(t: Tables, nodes: seq<string>, n: string)
    requires Tidied(nodes)
    ensures var mappings := MappingByNode(ResolvedOf(t, nodes));
            (n in mappings <==> n in nodes && Routable(t, n)) && (n in mappings ==> Joined(t, n) == Some(mappings[n]))
  {
    hide Trimmed, Routable, Joined;
    if nodes != [] {
      var k := |nodes| - 1;
      ResolvedTable(t, nodes[..k], n);
      ResolvedNext(t, nodes[..k], nodes[k]);
      hide MappingByNode, ResolvedOf;
      assert nodes == nodes[..k] + [nodes[k]];
      JoinedNode(t, nodes[k]);
    }
  }

  lemma {:induction false} MissingTable(t: Tables, nodes: seq<string>, n: string)
    requires Tidied(nodes)
    ensures var missing := MissingByNode(MissingOf(t, nodes));
            (n in missing <==> n in nodes && !Routable(t, n)) && (n in missing ==> missing[n] == ErrorOf(t, n))
  {
    hide Trimmed, Routable, ErrorOf;
    if nodes != [] {
      var k := |nodes| - 1;
      MissingTable(t, nodes[..k], n);
      MissedNext(t, nodes[..k], nodes[k]);
      hide MissingByNode, MissingOf;
      assert nodes == nodes[..k] + [nodes[k]];
    }
  }

  /** The routing the runner plans with, for targets looked up in tables `t`. */
  function RoutingOf(t: Tables, targets: seq<string>): Routing {
    Routing(MappingByNode(ResolvedOf(t, Requested(targets))), MissingByNode(MissingOf(t, Requested(targets))))
  }

  lemma PlannedFor(r: Routing, n: string, op: Operation, dryRun: bool, now: Time)
    ensures var task := PlanTask(r, n, op, dryRun, now);
            && task.nodeID == n
            && (n in r.missing ==> task.state == Failed && task.errorDetail == TrimSpace(r.missing[n].detail))
            && (n !in r.missing && n in r.mappings ==>
                  && task.state == (if dryRun then Planned else Pending) && task.bmcID == TrimSpace(r.mappings[n].bmcID)
                  && task.bmcEndpoint == TrimSpace(r.mappings[n].endpoint)
                  && task.credentialID == TrimSpace(r.mappings[n].credentialID)
                  && task.insecureSkipVerify == r.mappings[n].insecureSkipVerify)
  {
    hide TrimSpace, MissingNode;
  }

  /** Each target gets exactly one task: one that can be executed, or is planned in a dry run, with the address,
      credential and TLS flag of the endpoint row that the node's link points to, if and only if that row has an address
      and a credential; and one that has failed, with the reason, otherwise. */
  lemma OneTaskPerTarget(t: Tables, targets: seq<string>, op: Operation, dryRun: bool, now: Time, i: nat)
    requires Ascending(targets) && Tidied(targets) && i < |targets|
    ensures |PlanTasks(RoutingOf(t, targets), targets, op, dryRun, now)| == |targets|
    ensures TaskFor(t, targets[i], dryRun, PlanTasks(RoutingOf(t, targets), targets, op, dryRun, now)[i])
  {
    hide TrimSpace, Trimmed, ErrorOf, Joined, PlanTask, ResolvedOf, MissingOf, MappingByNode, MissingByNode, Routable,
         Reachable, Reason, FromTables;
    RequestedAsTheyAre(targets);
    ResolvedTable(t, targets, targets[i]);
    MissingTable(t, targets, targets[i]);
    PlannedFor(RoutingOf(t, targets), targets[i], op, dryRun, now);
    JoinedMeans(t, targets[i]);
    TaskMeans(t, targets[i], RoutingOf(t, targets), dryRun,
              PlanTask(RoutingOf(t, targets), targets[i], op, dryRun, now));
  }

  /** Task `task` is the one that node `n` of the tables gets. */
  ghost predicate TaskFor(t: Tables, n: string, dryRun: bool, task: Task) {
    && task.nodeID == n
    && (task.state == (if dryRun then Planned else Pending) <==> Reachable(t, n))
    && (task.state == Failed <==> !Reachable(t, n))
    && (Reachable(t, n) ==>
          var e := t.endpoints[t.links[n].bmcID];
          && task.bmcID == TrimSpace(t.links[n].bmcID)
          && task.bmcEndpoint == TrimSpace(e.endpoint) != "" && task.credentialID == TrimSpace(e.credentialID) != ""
          && task.insecureSkipVerify == e.insecureSkipVerify)
    && (!Reachable(t, n) ==> task.errorDetail == TrimSpace(DetailOf(t, n)))
  }

  /** The reason in words. */
  function DetailOf(t: Tables, n: string): string {
    match Reason(t, n)
    case MappingNotFound => MissingNode(n).detail
    case EndpointMissing => MissingEndpoint(n, if n in t.links then t.links[n].bmcID else "").detail
    case CredentialMissing => MissingCredential(n, if n in t.links then t.links[n].bmcID else "").detail
  }

  lemma TaskMeans(t: Tables, n: string, r: Routing, dryRun: bool, task: Task)
    requires task.nodeID == n
    requires (n in r.missing <==> !Routable(t, n)) && (n in r.missing ==> r.missing[n] == ErrorOf(t, n))
    requires (n in r.mappings <==> Routable(t, n)) && (n in r.mappings ==> Joined(t, n) == Some(r.mappings[n]))
    requires n in r.missing ==> task.state == Failed && task.errorDetail == TrimSpace(r.missing[n].detail)
    requires n !in r.missing && n in r.mappings ==>
               && task.state == (if dryRun then Planned else Pending) && task.bmcID == TrimSpace(r.mappings[n].bmcID)
               && task.bmcEndpoint == TrimSpace(r.mappings[n].endpoint)
               && task.credentialID == TrimSpace(r.mappings[n].credentialID)
               && task.insecureSkipVerify == r.mappings[n].insecureSkipVerify
    ensures TaskFor(t, n, dryRun, task)
  {
    hide TrimSpace, Blank, MissingDetail, Quoted;
    if Linked(t, n) {
      BlankMeans(t.endpoints[t.links[n].bmcID].endpoint);
      BlankMeans(t.endpoints[t.links[n].bmcID].credentialID);
    }
  }
}
