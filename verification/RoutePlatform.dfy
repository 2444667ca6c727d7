/**
 * The platform side of route reconciliation: the merge loop over two route
 * tables, and runs of configure requests that save on success and restore on
 * failure.
 */
module RoutePlatform {
  import opened Options
  import opened RouteTables
  import opened RouteApply

  class Platform {
    var router: RouteTable            // the cached table
    var routes: map<Key, Leaves>      // the device

    constructor (t: RouteTable, r: map<Key, Leaves>)
      ensures router == t && routes == r
    {
      router, routes := t, r;
    }

    method CallRemove(k: Key, fault: bool) returns (c: Call)
      modifies this`routes
      ensures routes == AfterRemove(old(routes), k, fault)
      ensures c == Remove(k, !fault, k in old(routes))
    {
      c := Remove(k, !fault, k in routes);
      if !fault {
        routes := routes - {k};
      }
    }

    method ConvertAndCreate(k: Key, i: Info, fault: bool) returns (cs: seq<Call>, ok: bool)
      modifies this`routes
      ensures Outcome(routes, cs, {}, ok) == Install(k, i, old(routes), fault)
    {
      if !Supported(i) {
        return [], false;
      }
      cs := [Create(k, i, !fault, k in routes)];
      if fault {
        return cs, false;
      }
      routes := AfterCreate(routes, k, i);
      return cs, true;
    }

    // The body of the loop for prefix k.
    method ReconcileCalls(k: Key, was: Option<Info>, now: Option<Info>, at: nat, faults: Faults)
      returns (cs: seq<Call>, refused: set<Key>, ok: bool)
      modifies this`routes
      ensures Outcome(routes, cs, refused, ok) == Reconcile(k, was, now, old(routes), at, faults)
    {
      cs, refused, ok := [], {}, true;
      if was.Some? && now.Some? {
        if InfoCmp(now.value, was.value) == 0 {
          return;
        }
        var c := CallRemove(k, at in faults);
        refused := if c.ok then {} else {k};
        cs, ok := ConvertAndCreate(k, now.value, at + 1 in faults);
        cs := [c] + cs;
      } else if was.Some? {
        var c := CallRemove(k, at in faults);
        refused := if c.ok then {} else {k};
        cs := [c];
      } else if now.Some? {
        cs, ok := ConvertAndCreate(k, now.value, at in faults);
      }
    }

    // The calls for the plan's next item, added to those already made.
    method NextCalls(k: Key, was: Option<Info>, now: Option<Info>, calls: seq<Call>, refused: set<Key>, faults: Faults,
                     ghost p: Plan, ghost goal: Outcome)
      returns (calls': seq<Call>, refused': set<Key>, ok: bool)
      requires p.Item? && p.key == k && p.was == was && p.now == now && Leads(p, routes, calls, refused, faults, goal)
      modifies this`routes
      ensures ok ==> Leads(p.rest, routes, calls', refused', faults, goal)
      ensures !ok ==> goal == Outcome(routes, calls', refused', false)
    {
      LeadsOn(p, routes, calls, refused, faults, goal, Reconcile(k, was, now, routes, |calls|, faults));
      var cs, rs;
      cs, rs, ok := ReconcileCalls(k, was, now, |calls|, faults);
      calls', refused' := calls + cs, refused + rs;
    }

    // One comparison of the two tables: what to reconcile next, and where the indices go after it.
    method Compare(newr: RouteTable, oldr: RouteTable, ni: nat, oi: nat, ghost p: Plan)
      returns (k: Key, was: Option<Info>, now: Option<Info>, ni': nat, oi': nat)
      requires newr.Valid() && oldr.Valid() && oi <= oldr.len && ni <= newr.len && (oi != oldr.len || ni != newr.len)
      requires p == PlanOf(oldr.Nodes()[oi..], newr.Nodes()[ni..])
      ensures p.Item? && p.key == k && p.was == was && p.now == now
      ensures oi <= oi' <= oldr.len && ni <= ni' <= newr.len && oi + ni < oi' + ni'
      ensures p.rest == PlanOf(oldr.Nodes()[oi'..], newr.Nodes()[ni'..])
    {
      ghost var o, n := oldr.Nodes(), newr.Nodes();
      var diff := if oi == oldr.len then -1
                  else if ni == newr.len then 1
                  else KeyCmp(newr.arr[ni].key, oldr.arr[oi].key);
      was := if diff >= 0 then Some(oldr.arr[oi].info) else None;
      now := if diff <= 0 then Some(newr.arr[ni].info) else None;
      k := if diff > 0 then oldr.arr[oi].key else newr.arr[ni].key;
      ni', oi' := ni, oi;
      if diff >= 0 { oi' := oi + 1; }
      if diff <= 0 { ni' := ni + 1; }
      PlanItem(o, n, oi, ni, diff, p);
    }

    /** The two-index loop makes exactly the calls of the walk. */
    method MergeLoop(newr: RouteTable, oldr: RouteTable, faults: Faults) returns (ok: bool, calls: seq<Call>, refused: set<Key>)
      requires newr.Valid() && oldr.Valid()
      modifies this`routes
      ensures Outcome(routes, calls, refused, ok) == Walk(oldr.Nodes(), newr.Nodes(), old(routes), faults)
    {
      ghost var o, n := oldr.Nodes(), newr.Nodes();
      ghost var plan := PlanOf(o, n);
      ghost var goal := Walk(o, n, routes, faults);
      var ni, oi := 0, 0;
      calls, refused := [], {};
      assert o[0..] == o && n[0..] == n;
      LeadsStarts(plan, routes, faults, goal);
      while oi != oldr.len || ni != newr.len
        invariant oi <= oldr.len && ni <= newr.len
        invariant plan == PlanOf(o[oi..], n[ni..])
        invariant Leads(plan, routes, calls, refused, faults, goal)
        decreases (oldr.len - oi) + (newr.len - ni)
      {
        var k, was, now;
        k, was, now, ni, oi := Compare(newr, oldr, ni, oi, plan);
        calls, refused, ok := NextCalls(k, was, now, calls, refused, faults, plan, goal);
        if !ok {
          return;
        }
        plan := plan.rest;
      }
      ok := true;
      LeadsEnds(routes, calls, refused, faults, goal);
    }

    /**
     * On success the cache is the new table, sorted; on failure the cache
     * keeps its nodes. Either way the device and the calls are those of the
     * walk over the sorted tables.
     */
    method ConfigRouterApply(cfg: RouteTable, faults: Faults)
      returns (ok: bool, calls: seq<Call>, refused: set<Key>)
      requires router.Valid() && cfg.Valid() && router.arr != cfg.arr
      modifies this, router.arr
      ensures Outcome(routes, calls, refused, ok)
              == Walk(Sort(old(router.Nodes())), Sort(old(cfg.Nodes())), old(routes), faults)
      ensures ok ==> fresh(router) && fresh(router.arr) && router.Valid() && router.sorted
      ensures ok ==> router.Nodes() == Sort(old(cfg.Nodes()))
      ensures !ok ==> router == old(router) && router.Valid() && router.Nodes() == Sort(old(router.Nodes()))
    {
      var oldr := new RouteTable.Alias(router);
      var newr := new RouteTable.Copy(cfg);
      newr.EnsureSorted();
      oldr.EnsureSorted();
      SortOrders(old(router.Nodes()));
      assert router.arr[..router.len] == oldr.Nodes();
      ok, calls, refused := MergeLoop(newr, oldr, faults);
      if ok {
        router := newr;
      }
    }
  }

  // Executing what is left of the plan, after `calls`, ends in goal.
  ghost predicate Leads(p: Plan, routes: map<Key, Leaves>, calls: seq<Call>, refused: set<Key>, faults: Faults,
                        goal: Outcome)
  {
    var w := Execute(p, routes, |calls|, faults);
    goal == Outcome(w.routes, calls + w.calls, refused + w.refused, w.ok)
  }

  lemma LeadsStarts(p: Plan, routes: map<Key, Leaves>, faults: Faults, goal: Outcome)
    requires goal == Execute(p, routes, 0, faults)
    ensures Leads(p, routes, [], {}, faults, goal)
  {
    assert [] + goal.calls == goal.calls && {} + goal.refused == goal.refused;
  }

  lemma LeadsEnds(routes: map<Key, Leaves>, calls: seq<Call>, refused: set<Key>, faults: Faults, goal: Outcome)
    requires Leads(End, routes, calls, refused, faults, goal)
    ensures goal == Outcome(routes, calls, refused, true)
  {
    assert calls + [] == calls && refused + {} == refused;
  }

  lemma LeadsOn(p: Plan, routes: map<Key, Leaves>, calls: seq<Call>, refused: set<Key>, faults: Faults, goal: Outcome, h: Outcome)
    requires p.Item? && Leads(p, routes, calls, refused, faults, goal)
    requires h == Reconcile(p.key, p.was, p.now, routes, |calls|, faults)
    ensures if !h.ok then goal == Outcome(h.routes, calls + h.calls, refused + h.refused, false)
            else Leads(p.rest, h.routes, calls + h.calls, refused + h.refused, faults, goal)
  {
    var w := Execute(p, routes, |calls|, faults);
    assert Follows(p, faults, h, |calls| + |h.calls|, w);
    LeadsAfter(p, calls, refused, faults, goal, h, w);
  }

  lemma LeadsAfter(p: Plan, calls: seq<Call>, refused: set<Key>, faults: Faults, goal: Outcome, h: Outcome, w: Outcome)
    requires p.Item? && Follows(p, faults, h, |calls| + |h.calls|, w)
    requires goal == Outcome(w.routes, calls + w.calls, refused + w.refused, w.ok)
    ensures if !h.ok then goal == Outcome(h.routes, calls + h.calls, refused + h.refused, false)
            else Leads(p.rest, h.routes, calls + h.calls, refused + h.refused, faults, goal)
  {
    if h.ok {
      JoinMore(calls, h, Execute(p.rest, h.routes, |calls| + |h.calls|, faults), refused);
    }
  }

  lemma JoinMore(calls: seq<Call>, h: Outcome, t: Outcome, refused: set<Key>)
    ensures calls + (h.calls + t.calls) == (calls + h.calls) + t.calls
    ensures refused + (h.refused + t.refused) == (refused + h.refused) + t.refused
  {
  }

  // The plan's next item, as the loop's comparison selects it.
  lemma PlanItem(o: seq<Node>, n: seq<Node>, oi: nat, ni: nat, diff: int, p: Plan)
    requires oi <= |o| && ni <= |n| && (oi < |o| || ni < |n|) && p == PlanOf(o[oi..], n[ni..])
    requires diff == if oi == |o| then -1 else if ni == |n| then 1 else KeyCmp(n[ni].key, o[oi].key)
    ensures p.Item? && p.key == (if diff > 0 then o[oi].key else n[ni].key)
    ensures p.was == (if diff >= 0 then Some(o[oi].info) else None)
    ensures p.now == (if diff <= 0 then Some(n[ni].info) else None)
    ensures p.rest == PlanOf(o[if diff >= 0 then oi + 1 else oi..], n[if diff <= 0 then ni + 1 else ni..])
  {
    assert oi < |o| ==> o[oi..][1..] == o[oi + 1..];
    assert ni < |n| ==> n[ni..][1..] == n[ni + 1..];
  }

  // The cache, the device and the saved configuration between requests.
  datatype Sys = Sys(routes: map<Key, Leaves>, cache: seq<Node>, startup: map<Key, Leaves>)

  // How the parts of the apply other than the routes fare.
  datatype Elsewhere = Fine | FailsBefore | FailsAfter

  // `saved` and `restored` say whether the save or the restore that ends the request succeeds.
  datatype Request = Request(table: seq<Node>, faults: Faults, elsewhere: Elsewhere, saved: bool, restored: bool)

  // The walk, if the apply gets that far.
  ghost function Applied(s: Sys, r: Request): Outcome {
    Walk(Sort(s.cache), Sort(r.table), s.routes, r.faults)
  }

  ghost predicate Completes(s: Sys, r: Request) { r.elsewhere != FailsBefore && Applied(s, r).ok }

  ghost predicate Succeeds(s: Sys, r: Request) { r.elsewhere == Fine && Applied(s, r).ok }

  // Reading the routes back keeps only the entries with a blackhole leaf.
  ghost predicate Reread(routes: map<Key, Leaves>, nodes: seq<Node>) {
    Distinct(nodes) && AsMap(nodes) == map k | k in routes && routes[k].blackhole :: Blackhole
  }

  // What the apply leaves when nothing undoes it.
  ghost function Left(s: Sys, r: Request): Sys {
    var w := Applied(s, r);
    if r.elsewhere == FailsBefore then s
    else Sys(w.routes, if w.ok then Sort(r.table) else Sort(s.cache), s.startup)
  }

  /**
   * One configure request: apply, then save; or, when the walk or any other
   * part of the apply fails, restore and read back. A save or a restore that
   * fails is ignored.
   */
  ghost predicate Next(s: Sys, r: Request, s': Sys) {
    if Succeeds(s, r) then s' == if r.saved then Left(s, r).(startup := Applied(s, r).routes) else Left(s, r)
    else if r.restored then s'.routes == s.startup && s'.startup == s.startup && Reread(s.startup, s'.cache)
    else s' == Left(s, r)
  }

  // The tables that the device and cache, and the saved configuration, stand for.
  datatype Tables = Tables(live: map<Key, Info>, saved: map<Key, Info>)

  ghost predicate InSync(s: Sys, t: Tables) {
    && AllSupported(t.live) && Distinct(s.cache) && AsMap(s.cache) == t.live && s.routes == LeafMap(t.live)
    && AllSupported(t.saved) && s.startup == LeafMap(t.saved)
  }

  ghost predicate AllBlackhole(m: map<Key, Info>) { forall k :: k in m ==> m[k] == Blackhole }

  /** A restore keeps cache and device together exactly on blackhole tables. */
  lemma RestoreSyncs(s: Sys, r: Request, s': Sys, t: Tables)
    requires InSync(s, t) && Next(s, r, s') && !Succeeds(s, r) && r.restored
    ensures InSync(s', Tables(t.saved, t.saved)) <==> AllBlackhole(t.saved)
    ensures s'.routes == s'.startup == LeafMap(t.saved)
  {
    var m := t.saved;
    assert forall k :: k in m ==> (s.startup[k].blackhole <==> m[k] == Blackhole);
    var back := map k | k in s.startup && s.startup[k].blackhole :: Blackhole;
    assert AsMap(s'.cache) == back;
    if AllBlackhole(m) {
      assert back == m;
    }
    if back == m {
      assert forall k :: k in m ==> k in back;
    }
  }

  // The tables after a request.
  ghost function Wanted(s: Sys, r: Request, t: Tables): Tables {
    var n := AsMap(r.table);
    if Succeeds(s, r) then Tables(n, if r.saved then n else t.saved)
    else if r.restored then Tables(t.saved, t.saved)
    else if Completes(s, r) then Tables(n, t.saved)
    else t
  }

  // What a request needs: a walk that stays must have every refused removal
  // cured or, if it failed, have moved nothing; a restored table must read back.
  ghost predicate Orderly(s: Sys, r: Request, t: Tables) {
    var w := Applied(s, r);
    if !Succeeds(s, r) && r.restored then AllBlackhole(t.saved)
    else if r.elsewhere == FailsBefore then true
    else if w.ok then forall k :: k in w.refused ==> Cured(At(t.live, k), At(AsMap(r.table), k))
    else forall c :: c in w.calls ==> !Moves(c, At(t.live, c.key))
  }

  lemma LeftSyncs(s: Sys, r: Request, t: Tables, n: map<Key, Info>)
    requires InSync(s, t) && Distinct(r.table) && Completes(s, r) && n == AsMap(r.table)
    ensures AllSupported(n) && Distinct(Left(s, r).cache) && AsMap(Left(s, r).cache) == n
    ensures Left(s, r).routes == Applied(s, r).routes && Left(s, r).startup == s.startup
    ensures Left(s, r).routes == LeafMap(n) <==> forall k :: k in Applied(s, r).refused ==> Cured(At(t.live, k), At(n, k))
  {
    ApplyLands(s.cache, r.table, s.routes, r.faults);
    SortKeepsMap(r.table);
  }

  lemma StuckSyncs(s: Sys, r: Request, t: Tables)
    requires InSync(s, t) && Distinct(r.table) && r.elsewhere != FailsBefore && !Applied(s, r).ok
    ensures InSync(Left(s, r), t) <==> forall c :: c in Applied(s, r).calls ==> !Moves(c, At(t.live, c.key))
  {
    ApplyMoves(s.cache, r.table, s.routes, r.faults, Applied(s, r));
    SortKeepsMap(s.cache);
  }

  /** Exactly when one request with distinct prefixes keeps everything together, whatever fails. */
  lemma StepSyncs(s: Sys, r: Request, s': Sys, t: Tables)
    requires InSync(s, t) && Distinct(r.table) && Next(s, r, s')
    ensures InSync(s', Wanted(s, r, t)) <==> Orderly(s, r, t)
  {
    if !Succeeds(s, r) && r.restored {
      RestoreSyncs(s, r, s', t);
    } else if Completes(s, r) {
      LeftSyncs(s, r, t, AsMap(r.table));
    } else if r.elsewhere != FailsBefore {
      StuckSyncs(s, r, t);
    }
  }

  // A run whose every request is orderly; t holds the tables at its start.
  ghost predicate Run(ss: seq<Sys>, rs: seq<Request>, t: Tables) {
    && |ss| == |rs| + 1
    && (rs != [] ==>
          && Distinct(rs[0].table) && Orderly(ss[0], rs[0], t) && Next(ss[0], rs[0], ss[1])
          && Run(ss[1..], rs[1..], Wanted(ss[0], rs[0], t)))
  }

  // The tables after a run: the one last applied or restored, and the one last saved.
  ghost function Final(ss: seq<Sys>, rs: seq<Request>, t: Tables): Tables
    requires |ss| == |rs| + 1
  {
    if rs == [] then t else Final(ss[1..], rs[1..], Wanted(ss[0], rs[0], t))
  }

  /**
   * After every run, device and cache hold the table last applied or restored,
   * and the saved configuration the one last saved.
   */
  lemma {:induction false} RunSyncs(ss: seq<Sys>, rs: seq<Request>, t: Tables)
    requires Run(ss, rs, t) && InSync(ss[0], t)
    ensures InSync(ss[|rs|], Final(ss, rs, t))
    decreases |rs|
  {
    if rs != [] {
      StepSyncs(ss[0], rs[0], ss[1], t);
      RunSyncs(ss[1..], rs[1..], Wanted(ss[0], rs[0], t));
    }
  }

  /** A saved table with anything but blackholes does not come back into the cache. */
  lemma RestoreForgets(k: Key, v: int, r: Request, s': Sys)
    requires r.elsewhere == FailsBefore && r.restored
    requires var n := Node(k, Connected(v)); Next(Sys(map[k := ToLeaves(n.info)], [n], map[k := ToLeaves(n.info)]), r, s')
    ensures k in s'.routes && AsMap(s'.cache) == map[]
  {
  }

  /**
   * Two accepted requests lose a configured prefix: one that lists it twice,
   * then one that lists it once.
   */
  lemma RepeatedPrefixIsLost(k: Key, v: int) returns (s1: Sys, s2: Sys)
    ensures var n := Node(k, Connected(v));
            var start, twice, once := Sys(map[], [], map[]), Request([n, n], {}, Fine, true, true), Request([n], {}, Fine, true, true);
            && Next(start, twice, s1) && Succeeds(start, twice) && k in s1.routes
            && Next(s1, once, s2) && Succeeds(s1, once) && k !in s2.routes
  {
    var n := Node(k, Connected(v));
    var twice, once := Request([n, n], {}, Fine, true, true), Request([n], {}, Fine, true, true);
    assert [n, n][1..] == [n] && [n][1..] == [];
    assert Sort([]) == [];
    assert Sort([n]) == [n];
    assert Sort([n, n]) == [n, n];
    var start := Sys(map[], [], map[]);
    TwiceApplied(n);
    var w1 := Applied(start, twice);
    s1 := Sys(w1.routes, [n, n], w1.routes);
    SortFixes(s1.cache);
    OnceApplied(n, w1.routes);
    var w2 := Applied(s1, once);
    s2 := Sys(w2.routes, [n], w2.routes);
  }

  lemma TwiceApplied(n: Node)
    requires n.info.Connected?
    ensures Walk([], [n, n], map[], {}).ok && n.key in Walk([], [n, n], map[], {}).routes
  {
    assert [n, n][1..] == [n] && [n][1..] == [];
    assert PlanOf([], []) == End;
    assert PlanOf([], [n]) == Item(n.key, None, Some(n.info), End);
    var p := Item(n.key, None, Some(n.info), Item(n.key, None, Some(n.info), End));
    assert PlanOf([], [n, n]) == p;
    var h := Reconcile(n.key, None, Some(n.info), map[], 0, {});
    var h2 := Reconcile(n.key, None, Some(n.info), h.routes, 1, {});
    assert Execute(p.rest.rest, h2.routes, 2, {}) == Outcome(h2.routes, [], {}, true);
    assert Execute(p.rest, h.routes, 1, {}).routes == h2.routes;
  }

  lemma OnceApplied(n: Node, routes: map<Key, Leaves>)
    requires n.info.Connected? && n.key in routes
    ensures Walk([n, n], [n], routes, {}).ok && n.key !in Walk([n, n], [n], routes, {}).routes
  {
    assert [n, n][1..] == [n] && [n][1..] == [];
    assert PlanOf([], []) == End;
    assert PlanOf([n], []) == Item(n.key, Some(n.info), None, End);
    var p := Item(n.key, Some(n.info), Some(n.info), Item(n.key, Some(n.info), None, End));
    assert PlanOf([n, n], [n]) == p;
    var h := Reconcile(n.key, Some(n.info), None, routes, 0, {});
    assert Execute(p.rest.rest, h.routes, 1, {}) == Outcome(h.routes, [], {}, true);
    assert Execute(p.rest, routes, 0, {}).routes == h.routes;
  }
}
