/**
 * Reconciling the device's static routes with a configured table: the merge
 * walk over the cached and the new table, the remove and create calls it
 * issues, and whole runs of configure requests.
 *
 * `faults` holds the numbers of the calls the device refuses. The walk ignores
 * a refused remove and stops at a refused create.
 */
module RouteApply {
  import opened Options
  import opened RouteTables

  // The leaves a device holds for one prefix.
  datatype Leaves = Leaves(blackhole: bool, ifname: Option<int>, nexthop: Option<int>)

  type Faults = set<nat>

  datatype Call =
    | Remove(key: Key, ok: bool, present: bool)
    | Create(key: Key, info: Info, ok: bool, present: bool)

  // What one walk leaves: the device, the calls it made, the prefixes whose
  // removal was refused, and the return code.
  datatype Outcome = Outcome(routes: map<Key, Leaves>, calls: seq<Call>, refused: set<Key>, ok: bool)

  // The destinations that convert to a device route.
  predicate Supported(i: Info) { i.Blackhole? || i.Connected? || i.NextHop? }

  function ToLeaves(i: Info): Leaves
    requires Supported(i)
  {
    match i
    case Blackhole => Leaves(true, None, None)
    case Connected(v) => Leaves(false, Some(v), None)
    case NextHop(v, g) => Leaves(false, Some(v), Some(g))
  }

  // A gNMI update writes its own leaves and keeps the others.
  function Merge(was: Leaves, upd: Leaves): Leaves {
    Leaves(was.blackhole || upd.blackhole,
           if upd.ifname.Some? then upd.ifname else was.ifname,
           if upd.nexthop.Some? then upd.nexthop else was.nexthop)
  }

  ghost predicate AllSupported(m: map<Key, Info>) {
    forall k :: k in m ==> Supported(m[k])
  }

  /** The device routes a table stands for. */
  ghost function LeafMap(m: map<Key, Info>): map<Key, Leaves>
    requires AllSupported(m)
  {
    map k | k in m :: ToLeaves(m[k])
  }

  function At<V>(m: map<Key, V>, k: Key): Option<V> {
    if k in m then Some(m[k]) else None
  }

  /**
   * The merge of two tables: every prefix once, with its cached and its
   * configured destination.
   */
  datatype Plan = End | Item(key: Key, was: Option<Info>, now: Option<Info>, rest: Plan)

  function Diff(new_: seq<Node>, old_: seq<Node>): int
    requires old_ != [] || new_ != []
  {
    if old_ == [] then -1
    else if new_ == [] then 1
    else KeyCmp(new_[0].key, old_[0].key)
  }

  function PlanOf(old_: seq<Node>, new_: seq<Node>): Plan
    decreases |old_| + |new_|
  {
    if old_ == [] && new_ == [] then End
    else
      var diff := Diff(new_, old_);
      if diff == 0 then Item(new_[0].key, Some(old_[0].info), Some(new_[0].info), PlanOf(old_[1..], new_[1..]))
      else if diff > 0 then Item(old_[0].key, Some(old_[0].info), None, PlanOf(old_[1..], new_))
      else Item(new_[0].key, None, Some(new_[0].info), PlanOf(old_, new_[1..]))
  }

  function AfterRemove(routes: map<Key, Leaves>, k: Key, fault: bool): map<Key, Leaves> {
    if fault then routes else routes - {k}
  }

  function AfterCreate(routes: map<Key, Leaves>, k: Key, i: Info): map<Key, Leaves>
    requires Supported(i)
  {
    routes[k := if k in routes then Merge(routes[k], ToLeaves(i)) else ToLeaves(i)]
  }

  // Convert and create: a destination that does not convert makes no call.
  function Install(k: Key, i: Info, routes: map<Key, Leaves>, fault: bool): Outcome {
    if !Supported(i) then Outcome(routes, [], {}, false)
    else if fault then Outcome(routes, [Create(k, i, false, k in routes)], {}, false)
    else Outcome(AfterCreate(routes, k, i), [Create(k, i, true, k in routes)], {}, true)
  }

  // The calls for one prefix, from call number `at`.
  function Reconcile(k: Key, was: Option<Info>, now: Option<Info>,
                     routes: map<Key, Leaves>, at: nat, faults: Faults): Outcome
  {
    if was.Some? && now.Some? then
      if InfoCmp(now.value, was.value) == 0 then Outcome(routes, [], {}, true)
      else
        var i := Install(k, now.value, AfterRemove(routes, k, at in faults), at + 1 in faults);
        Outcome(i.routes, [Remove(k, at !in faults, k in routes)] + i.calls, if at in faults then {k} else {}, i.ok)
    else if was.Some? then
      Outcome(AfterRemove(routes, k, at in faults), [Remove(k, at !in faults, k in routes)],
              if at in faults then {k} else {}, true)
    else if now.Some? then
      Install(k, now.value, routes, at in faults)
    else
      Outcome(routes, [], {}, true)
  }

  /** The calls for a whole plan, up to the first failure. */
  function Execute(p: Plan, routes: map<Key, Leaves>, at: nat, faults: Faults): Outcome {
    match p
    case End => Outcome(routes, [], {}, true)
    case Item(k, was, now, rest) =>
      var h := Reconcile(k, was, now, routes, at, faults);
      if !h.ok then h
      else
        var t := Execute(rest, h.routes, at + |h.calls|, faults);
        Outcome(t.routes, h.calls + t.calls, h.refused + t.refused, t.ok)
  }

  /** The walk over two sorted tables. */
  function Walk(old_: seq<Node>, new_: seq<Node>, routes: map<Key, Leaves>, faults: Faults): Outcome {
    Execute(PlanOf(old_, new_), routes, 0, faults)
  }

  // ----- the merge lists every prefix once

  function Was(p: Plan, k: Key): Option<Info> {
    if p.End? then None else if p.key == k then p.was else Was(p.rest, k)
  }

  function Now(p: Plan, k: Key): Option<Info> {
    if p.End? then None else if p.key == k then p.now else Now(p.rest, k)
  }

  ghost predicate Lists(p: Plan, k: Key) { p.Item? && (p.key == k || Lists(p.rest, k)) }

  ghost predicate NoRepeats(p: Plan) { p.Item? ==> !Lists(p.rest, p.key) && NoRepeats(p.rest) }

  // A table's map loses its first prefix, and only that, with its first node.
  lemma TailMap(s: seq<Node>, k: Key)
    requires Ascending(s) && s != []
    ensures Ascending(s[1..])
    ensures At(AsMap(s), k) == if k == s[0].key then Some(s[0].info) else At(AsMap(s[1..]), k)
    ensures k == s[0].key || Less(k, s[0].key) ==> At(AsMap(s[1..]), k) == None
    ensures Less(k, s[0].key) ==> At(AsMap(s), k) == None
  {
    AsMapKeys(s[1..], k);
  }

  lemma {:induction false} PlanFinds(old_: seq<Node>, new_: seq<Node>, k: Key)
    requires Ascending(old_) && Ascending(new_)
    ensures var p := PlanOf(old_, new_);
            && Was(p, k) == At(AsMap(old_), k) && Now(p, k) == At(AsMap(new_), k)
            && (Lists(p, k) <==> k in AsMap(old_) || k in AsMap(new_))
    decreases |old_| + |new_|
  {
    if old_ != [] || new_ != [] {
      var diff := Diff(new_, old_);
      if old_ != [] { TailMap(old_, k); }
      if new_ != [] { TailMap(new_, k); }
      if diff == 0 {
        PlanFinds(old_[1..], new_[1..], k);
      } else if diff > 0 {
        PlanFinds(old_[1..], new_, k);
      } else {
        PlanFinds(old_, new_[1..], k);
      }
    }
  }

  lemma {:induction false} PlanNoRepeats(old_: seq<Node>, new_: seq<Node>)
    requires Ascending(old_) && Ascending(new_)
    ensures NoRepeats(PlanOf(old_, new_))
    decreases |old_| + |new_|
  {
    if old_ != [] || new_ != [] {
      var diff := Diff(new_, old_);
      var k := PlanOf(old_, new_).key;
      if old_ != [] { TailMap(old_, k); }
      if new_ != [] { TailMap(new_, k); }
      if diff == 0 {
        PlanNoRepeats(old_[1..], new_[1..]);
        PlanFinds(old_[1..], new_[1..], k);
      } else if diff > 0 {
        PlanNoRepeats(old_[1..], new_);
        PlanFinds(old_[1..], new_, k);
      } else {
        PlanNoRepeats(old_, new_[1..]);
        PlanFinds(old_, new_[1..], k);
      }
    }
  }

  // ----- what executing a plan does to one prefix

  // The device agrees with the cached destination, and holds nothing the cache lacks.
  ghost predicate Agrees(was: Option<Info>, now: Option<Info>, dev: Option<Leaves>) {
    && (was.Some? ==> Supported(was.value) && dev == Some(ToLeaves(was.value)))
    && (was.None? && now.Some? ==> dev == None)
  }

  /** Where a prefix must end up, given whether its removal was refused. */
  ghost predicate Settled(was: Option<Info>, now: Option<Info>, refused: bool,
                          before: Option<Leaves>, after: Option<Leaves>)
  {
    match now
    case None => after == if was.Some? && !refused then None else before
    case Some(b) =>
      && Supported(b)
      && after == Some(if refused && before.Some? then Merge(before.value, ToLeaves(b)) else ToLeaves(b))
  }

  lemma ReconcileSettles(k: Key, was: Option<Info>, now: Option<Info>, routes: map<Key, Leaves>, at: nat, faults: Faults,
                         h: Outcome, j: Key)
    requires h == Reconcile(k, was, now, routes, at, faults)
    ensures j != k ==> At(h.routes, j) == At(routes, j) && j !in h.refused
    ensures k in h.refused ==> was.Some?
    ensures h.ok && Agrees(was, now, At(routes, k)) ==>
              Settled(was, now, k in h.refused, At(routes, k), At(h.routes, k))
  {
  }

  lemma {:induction false} UnlistedIsNone(p: Plan, k: Key)
    requires !Lists(p, k)
    ensures Was(p, k) == None && Now(p, k) == None
  {
    if p.Item? { UnlistedIsNone(p.rest, k); }
  }

  // A plan with no repeats asks of its rest no more than it was given.
  lemma RestAgrees(p: Plan, k: Key, before: Option<Leaves>, after: Option<Leaves>)
    requires p.Item? && NoRepeats(p) && Agrees(Was(p, k), Now(p, k), before) && (k != p.key ==> after == before)
    ensures Agrees(Was(p.rest, k), Now(p.rest, k), after)
  {
    if k == p.key { UnlistedIsNone(p.rest, k); }
  }

  // What the first item and the rest of a plan do to a prefix, put together.
  lemma SettledChain(p: Plan, k: Key, before: Option<Leaves>, mid: Option<Leaves>, after: Option<Leaves>,
                     first: bool, later: bool)
    requires p.Item? && NoRepeats(p)
    requires if k == p.key then Settled(p.was, p.now, first, before, mid) else mid == before && !first
    requires (later ==> Was(p.rest, k).Some?) && Settled(Was(p.rest, k), Now(p.rest, k), later, mid, after)
    ensures Settled(Was(p, k), Now(p, k), first || later, before, after)
    ensures later ==> Was(p, k).Some?
  {
    if k == p.key { UnlistedIsNone(p.rest, k); }
  }

  /** Every prefix is settled by an execution that returns success. */
  lemma {:induction false} ExecuteSettles(p: Plan, routes: map<Key, Leaves>, at: nat, faults: Faults, k: Key, w: Outcome)
    requires NoRepeats(p) && Agrees(Was(p, k), Now(p, k), At(routes, k))
    requires w == Execute(p, routes, at, faults) && w.ok
    ensures k in w.refused ==> Was(p, k).Some?
    ensures Settled(Was(p, k), Now(p, k), k in w.refused, At(routes, k), At(w.routes, k))
    decreases p
  {
    if p.Item? {
      var h := Reconcile(p.key, p.was, p.now, routes, at, faults);
      ReconcileSettles(p.key, p.was, p.now, routes, at, faults, h, k);
      var t := Execute(p.rest, h.routes, at + |h.calls|, faults);
      assert t.ok && w.routes == t.routes && w.refused == h.refused + t.refused;
      RestAgrees(p, k, At(routes, k), At(h.routes, k));
      ExecuteSettles(p.rest, h.routes, at + |h.calls|, faults, k, t);
      SettledChain(p, k, At(routes, k), At(h.routes, k), At(t.routes, k), k in h.refused, k in t.refused);
    }
  }

  // ----- which calls are made

  // A call on a prefix with these destinations.
  ghost predicate Disciplined(c: Call, was: Option<Info>, now: Option<Info>, refused: set<Key>) {
    && was != now
    && (c.Remove? ==> was.Some? && c.present)
    && (c.Create? ==> now == Some(c.info) && (c.present ==> c.key in refused))
  }

  lemma DisciplinedGrows(c: Call, was: Option<Info>, now: Option<Info>, some: set<Key>, all: set<Key>)
    requires Disciplined(c, was, now, some) && some <= all
    ensures Disciplined(c, was, now, all)
  {
  }

  lemma TailDisciplined(p: Plan, c: Call, some: set<Key>, all: set<Key>)
    requires p.Item? && NoRepeats(p) && some <= all
    requires Disciplined(c, Was(p.rest, c.key), Now(p.rest, c.key), some)
    ensures Disciplined(c, Was(p, c.key), Now(p, c.key), all)
  {
    if c.key == p.key { UnlistedIsNone(p.rest, c.key); }
    DisciplinedGrows(c, Was(p.rest, c.key), Now(p.rest, c.key), some, all);
  }

  // Every call on a prefix the device agreed about is disciplined.
  ghost predicate AllDisciplined(p: Plan, routes: map<Key, Leaves>, w: Outcome) {
    forall c :: c in w.calls && Agrees(Was(p, c.key), Now(p, c.key), At(routes, c.key)) ==>
                  Disciplined(c, Was(p, c.key), Now(p, c.key), w.refused)
  }

  // What is known of the first item's calls.
  ghost predicate HeadDisciplined(p: Plan, routes: map<Key, Leaves>, h: Outcome)
    requires p.Item?
  {
    && (forall j :: j != p.key ==> At(h.routes, j) == At(routes, j))
    && (forall c :: c in h.calls ==> c.key == p.key)
    && (Agrees(p.was, p.now, At(routes, p.key)) ==> forall c :: c in h.calls ==> Disciplined(c, p.was, p.now, h.refused))
  }

  lemma ReconcileDisciplined(p: Plan, routes: map<Key, Leaves>, at: nat, faults: Faults, h: Outcome)
    requires p.Item? && h == Reconcile(p.key, p.was, p.now, routes, at, faults)
    ensures HeadDisciplined(p, routes, h)
  {
  }

  lemma DisciplinedJoin(p: Plan, routes: map<Key, Leaves>, h: Outcome, t: Outcome, w: Outcome)
    requires p.Item? && NoRepeats(p) && HeadDisciplined(p, routes, h) && AllDisciplined(p.rest, h.routes, t)
    requires w.calls == h.calls + t.calls && w.refused == h.refused + t.refused
    ensures AllDisciplined(p, routes, w)
  {
    forall c | c in w.calls && Agrees(Was(p, c.key), Now(p, c.key), At(routes, c.key))
      ensures Disciplined(c, Was(p, c.key), Now(p, c.key), w.refused)
    {
      if c in h.calls {
        DisciplinedGrows(c, p.was, p.now, h.refused, w.refused);
      } else {
        RestAgrees(p, c.key, At(routes, c.key), At(h.routes, c.key));
        TailDisciplined(p, c, t.refused, w.refused);
      }
    }
  }

  // An execution is that of the first item followed by that of the rest, if the first succeeds.
  ghost predicate Follows(p: Plan, faults: Faults, h: Outcome, at: nat, w: Outcome)
    requires p.Item?
  {
    if !h.ok then w == h
    else
      var t := Execute(p.rest, h.routes, at, faults);
      w == Outcome(t.routes, h.calls + t.calls, h.refused + t.refused, t.ok)
  }

  lemma ExecuteFollows(p: Plan, routes: map<Key, Leaves>, at: nat, faults: Faults, w: Outcome, h: Outcome)
    requires p.Item? && w == Execute(p, routes, at, faults) && h == Reconcile(p.key, p.was, p.now, routes, at, faults)
    ensures Follows(p, faults, h, at + |h.calls|, w)
  {
  }

  lemma FirstOf(p: Plan, routes: map<Key, Leaves>, at: nat, faults: Faults, w: Outcome) returns (h: Outcome, next: nat)
    requires p.Item? && w == Execute(p, routes, at, faults)
    ensures h == Reconcile(p.key, p.was, p.now, routes, at, faults) && Follows(p, faults, h, next, w)
  {
    h := Reconcile(p.key, p.was, p.now, routes, at, faults);
    next := at + |h.calls|;
    ExecuteFollows(p, routes, at, faults, w, h);
  }

  lemma DisciplinedHead(p: Plan, routes: map<Key, Leaves>, at: nat, faults: Faults, w: Outcome)
    returns (h: Outcome, next: nat)
    requires p.Item? && w == Execute(p, routes, at, faults)
    ensures HeadDisciplined(p, routes, h) && Follows(p, faults, h, next, w)
  {
    h, next := FirstOf(p, routes, at, faults, w);
    ReconcileDisciplined(p, routes, at, faults, h);
  }

  lemma {:induction false} CallsDisciplined(p: Plan, routes: map<Key, Leaves>, at: nat, faults: Faults, w: Outcome)
    requires NoRepeats(p) && w == Execute(p, routes, at, faults)
    ensures AllDisciplined(p, routes, w)
    decreases p
  {
    if p.Item? {
      var h, next := DisciplinedHead(p, routes, at, faults, w);
      if h.ok {
        var t := Execute(p.rest, h.routes, next, faults);
        CallsDisciplined(p.rest, h.routes, next, faults, t);
        DisciplinedJoin(p, routes, h, t, w);
      } else {
        DisciplinedAlone(p, routes, h);
      }
    }
  }

  lemma DisciplinedAlone(p: Plan, routes: map<Key, Leaves>, h: Outcome)
    requires p.Item? && HeadDisciplined(p, routes, h)
    ensures AllDisciplined(p, routes, h)
  {
  }

  /**
   * Successful or not, an execution touches only prefixes whose destination
   * changes, removes only what is on the device, and creates over an existing
   * entry only when the removal of that very prefix was refused.
   */
  lemma ExecuteDisciplined(p: Plan, routes: map<Key, Leaves>, at: nat, faults: Faults, c: Call, w: Outcome)
    requires NoRepeats(p) && Agrees(Was(p, c.key), Now(p, c.key), At(routes, c.key))
    requires w == Execute(p, routes, at, faults) && c in w.calls
    ensures Disciplined(c, Was(p, c.key), Now(p, c.key), w.refused)
  {
    CallsDisciplined(p, routes, at, faults, w);
  }

  /** The same for an apply on a device that matches the cache. */
  lemma ApplyDisciplined(old_: seq<Node>, new_: seq<Node>, routes: map<Key, Leaves>, faults: Faults, c: Call, w: Outcome)
    requires Distinct(old_) && Distinct(new_) && AllSupported(AsMap(old_)) && routes == LeafMap(AsMap(old_))
    requires w == Walk(Sort(old_), Sort(new_), routes, faults) && c in w.calls
    ensures Disciplined(c, At(AsMap(old_), c.key), At(AsMap(new_), c.key), w.refused)
  {
    SortKeepsMap(old_);
    SortKeepsMap(new_);
    PlanFinds(Sort(old_), Sort(new_), c.key);
    PlanNoRepeats(Sort(old_), Sort(new_));
    ExecuteDisciplined(PlanOf(Sort(old_), Sort(new_)), routes, 0, faults, c, w);
  }

  // ----- when it succeeds

  /** Which destinations the device has a form for. */
  lemma SupportedMeans(i: Info)
    ensures !Supported(i) <==> i.Unreachable? || i.Broadcast?
  {
  }

  ghost predicate NoCreateRefused(calls: seq<Call>) {
    forall i :: 0 <= i < |calls| && calls[i].Create? ==> calls[i].ok
  }

  // Every prefix that changes has a destination the device supports.
  ghost predicate Convertible(p: Plan) {
    p.Item? ==> (p.now.None? || p.was == p.now || Supported(p.now.value)) && Convertible(p.rest)
  }

  lemma ReconcileSucceeds(k: Key, was: Option<Info>, now: Option<Info>, routes: map<Key, Leaves>, at: nat, faults: Faults,
                          h: Outcome)
    requires h == Reconcile(k, was, now, routes, at, faults) && NoCreateRefused(h.calls)
    ensures h.ok <==> now.None? || was == now || Supported(now.value)
  {
    if h.calls != [] {
      var last := h.calls[|h.calls| - 1];
    }
  }

  lemma SucceedsHead(p: Plan, routes: map<Key, Leaves>, at: nat, faults: Faults, w: Outcome)
    returns (h: Outcome, next: nat)
    requires p.Item? && w == Execute(p, routes, at, faults) && NoCreateRefused(w.calls)
    ensures Follows(p, faults, h, next, w)
    ensures h.ok <==> p.now.None? || p.was == p.now || Supported(p.now.value)
    ensures h.ok ==> NoCreateRefused(Execute(p.rest, h.routes, next, faults).calls)
  {
    h, next := FirstOf(p, routes, at, faults, w);
    if h.ok {
      NoCreateRefusedParts(h.calls, Execute(p.rest, h.routes, next, faults).calls);
    }
    ReconcileSucceeds(p.key, p.was, p.now, routes, at, faults, h);
  }

  /** With no create refused, an execution succeeds exactly when the plan converts. */
  lemma {:induction false} ExecuteSucceeds(p: Plan, routes: map<Key, Leaves>, at: nat, faults: Faults, w: Outcome)
    requires w == Execute(p, routes, at, faults) && NoCreateRefused(w.calls)
    ensures w.ok <==> Convertible(p)
    decreases p
  {
    if p.Item? {
      var h, next := SucceedsHead(p, routes, at, faults, w);
      if h.ok {
        ExecuteSucceeds(p.rest, h.routes, next, faults, Execute(p.rest, h.routes, next, faults));
      }
    }
  }

  lemma NoCreateRefusedParts(a: seq<Call>, b: seq<Call>)
    requires NoCreateRefused(a + b)
    ensures NoCreateRefused(a) && NoCreateRefused(b)
  {
    assert forall i :: 0 <= i < |a| ==> (a + b)[i] == a[i];
    assert forall i :: 0 <= i < |b| ==> (a + b)[|a| + i] == b[i];
  }

  // ----- the apply

  // The refused removal of k does no harm: the update overwrites every leaf.
  ghost predicate Cured(was: Option<Info>, now: Option<Info>) {
    && was.Some? && now.Some? && Supported(was.value) && Supported(now.value)
    && Merge(ToLeaves(was.value), ToLeaves(now.value)) == ToLeaves(now.value)
  }

  // One prefix: it lands on the configured leaves exactly when a refusal is cured.
  lemma LandsAt(was: Option<Info>, now: Option<Info>, refused: bool, before: Option<Leaves>, after: Option<Leaves>)
    requires Settled(was, now, refused, before, after) && Agrees(was, now, before)
    requires refused ==> was.Some?
    requires was.None? && now.None? ==> before.None?
    ensures after == (if now.Some? then Some(ToLeaves(now.value)) else None) <==> (refused ==> Cured(was, now))
  {
  }

  lemma ApplySettles(old_: seq<Node>, new_: seq<Node>, routes: map<Key, Leaves>, faults: Faults, k: Key)
    requires Distinct(old_) && Distinct(new_)
    requires AllSupported(AsMap(old_)) && routes == LeafMap(AsMap(old_))
    requires Walk(Sort(old_), Sort(new_), routes, faults).ok
    ensures var w := Walk(Sort(old_), Sort(new_), routes, faults);
            var was, now := At(AsMap(old_), k), At(AsMap(new_), k);
            && (now.Some? ==> Supported(now.value))
            && (At(w.routes, k) == (if now.Some? then Some(ToLeaves(now.value)) else None)
                <==> (k in w.refused ==> Cured(was, now)))
  {
    SortKeepsMap(old_);
    SortKeepsMap(new_);
    var p := PlanOf(Sort(old_), Sort(new_));
    PlanFinds(Sort(old_), Sort(new_), k);
    PlanNoRepeats(Sort(old_), Sort(new_));
    var w := Execute(p, routes, 0, faults);
    ExecuteSettles(p, routes, 0, faults, k, w);
    LandsAt(Was(p, k), Now(p, k), k in w.refused, At(routes, k), At(w.routes, k));
  }

  /**
   * A successful apply on a device that matches the cache lands on the
   * configured table if and only if every refused removal was cured.
   */
  lemma ApplyLands(old_: seq<Node>, new_: seq<Node>, routes: map<Key, Leaves>, faults: Faults)
    requires Distinct(old_) && Distinct(new_)
    requires AllSupported(AsMap(old_)) && routes == LeafMap(AsMap(old_))
    requires Walk(Sort(old_), Sort(new_), routes, faults).ok
    ensures var w := Walk(Sort(old_), Sort(new_), routes, faults);
            && AllSupported(AsMap(new_))
            && (w.routes == LeafMap(AsMap(new_)) <==>
                forall k :: k in w.refused ==> Cured(At(AsMap(old_), k), At(AsMap(new_), k)))
  {
    var w := Walk(Sort(old_), Sort(new_), routes, faults);
    var o, m, f := AsMap(old_), AsMap(new_), w.refused;
    forall k ensures k in m ==> Supported(m[k]) {
      ApplySettles(old_, new_, routes, faults, k);
    }
    var target := LeafMap(m);
    forall k ensures At(w.routes, k) == At(target, k) <==> (k in f ==> Cured(At(o, k), At(m, k))) {
      ApplySettles(old_, new_, routes, faults, k);
    }
    SameMaps(w.routes, target);
  }

  /** A blackhole is its one leaf; a connected route is its interface; a next hop is interface and gateway. */
  lemma LeafMapHolds(m: map<Key, Info>, k: Key)
    requires AllSupported(m)
    ensures k in LeafMap(m) <==> k in m
    ensures k in m ==>
              match m[k]
              case Blackhole => LeafMap(m)[k] == Leaves(true, None, None)
              case Connected(v) =>
                var l := LeafMap(m)[k]; !l.blackhole && l.ifname == Some(v) && l.nexthop == None
              case NextHop(v, g) =>
                var l := LeafMap(m)[k]; !l.blackhole && l.ifname == Some(v) && l.nexthop == Some(g)
              case _ => false
  {
  }

  // What a configured destination asks of the device, leaf by leaf.
  ghost predicate Obeyed(i: Info, l: Leaves) {
    && (l.blackhole <==> i.Blackhole?)
    && (forall v :: l.ifname == Some(v) <==> i == Connected(v) || (i.NextHop? && i.nhVid == v))
    && (forall g :: l.nexthop == Some(g) <==> i.NextHop? && i.gw == g)
  }

  /**
   * After a successful apply with no refused removal the device holds exactly
   * the configured prefixes, each with the leaves its destination asks for.
   */
  lemma ApplyHolds(old_: seq<Node>, new_: seq<Node>, routes: map<Key, Leaves>, faults: Faults, w: Outcome)
    requires Distinct(old_) && Distinct(new_)
    requires AllSupported(AsMap(old_)) && routes == LeafMap(AsMap(old_))
    requires w == Walk(Sort(old_), Sort(new_), routes, faults) && w.ok && w.refused == {}
    ensures forall i :: 0 <= i < |new_| ==> new_[i].key in w.routes && Obeyed(new_[i].info, w.routes[new_[i].key])
    ensures forall k :: k in w.routes ==> exists i :: 0 <= i < |new_| && new_[i].key == k
  {
    ApplyLands(old_, new_, routes, faults);
    var m := AsMap(new_);
    forall i | 0 <= i < |new_| ensures new_[i].key in w.routes && Obeyed(new_[i].info, w.routes[new_[i].key]) {
      AsMapHolds(new_, i);
      LeafMapHolds(m, new_[i].key);
    }
    forall k | k in w.routes ensures exists i :: 0 <= i < |new_| && new_[i].key == k {
      AsMapKeys(new_, k);
    }
  }

  /** Which refused removals do no harm: none into or out of a blackhole, and none that drops a gateway. */
  lemma CuredMeans(a: Info, b: Info)
    requires Supported(a) && Supported(b)
    ensures Cured(Some(a), Some(b)) <==> a == b || (a.Connected? && !b.Blackhole?) || (a.NextHop? && b.NextHop?)
  {
  }

  // The device refuses to remove exactly the prefixes in `stuck`.
  ghost predicate Refuses(calls: seq<Call>, stuck: set<Key>) {
    forall c :: c in calls && c.Remove? ==> (c.ok <==> c.key !in stuck)
  }

  lemma ReconcileRefuses(k: Key, was: Option<Info>, now: Option<Info>, routes: map<Key, Leaves>, at: nat, faults: Faults,
                         h: Outcome, stuck: set<Key>)
    requires h == Reconcile(k, was, now, routes, at, faults) && Refuses(h.calls, stuck)
    ensures h.refused == if k in stuck && was.Some? && was != now then {k} else {}
  {
    if was.Some? && was != now {
      assert h.calls[0] == Remove(k, at !in faults, k in routes);
      assert h.calls[0] in h.calls;
    }
  }

  lemma RefusedHead(p: Plan, routes: map<Key, Leaves>, at: nat, faults: Faults, w: Outcome, stuck: set<Key>)
    returns (h: Outcome, next: nat)
    requires p.Item? && w == Execute(p, routes, at, faults) && w.ok && Refuses(w.calls, stuck)
    ensures h.ok && h.refused == (if p.key in stuck && p.was.Some? && p.was != p.now then {p.key} else {})
    ensures Follows(p, faults, h, next, w) && Refuses(Execute(p.rest, h.routes, next, faults).calls, stuck)
  {
    h := Reconcile(p.key, p.was, p.now, routes, at, faults);
    next := at + |h.calls|;
    var t := Execute(p.rest, h.routes, next, faults);
    RefusesParts(h.calls, t.calls, stuck);
    ReconcileRefuses(p.key, p.was, p.now, routes, at, faults, h, stuck);
  }

  lemma RefusesParts(a: seq<Call>, b: seq<Call>, stuck: set<Key>)
    requires Refuses(a + b, stuck)
    ensures Refuses(a, stuck) && Refuses(b, stuck)
  {
  }

  // With the stuck prefixes known, so are the refused removals.
  lemma {:induction false} ExecuteRefuses(p: Plan, routes: map<Key, Leaves>, at: nat, faults: Faults, k: Key,
                                          w: Outcome, stuck: set<Key>)
    requires NoRepeats(p) && w == Execute(p, routes, at, faults) && w.ok && Refuses(w.calls, stuck)
    ensures k in w.refused <==> k in stuck && Was(p, k).Some? && Was(p, k) != Now(p, k)
    decreases p
  {
    if p.Item? {
      var h, next := RefusedHead(p, routes, at, faults, w, stuck);
      ExecuteRefuses(p.rest, h.routes, next, faults, k, Execute(p.rest, h.routes, next, faults), stuck);
      if k == p.key { UnlistedIsNone(p.rest, k); }
    }
  }

  /**
   * The landing condition in terms of what is known before the call: the two
   * tables and the prefixes the device will not remove.
   */
  lemma ApplyLandsIff(old_: seq<Node>, new_: seq<Node>, routes: map<Key, Leaves>, faults: Faults, stuck: set<Key>)
    requires Distinct(old_) && Distinct(new_)
    requires AllSupported(AsMap(old_)) && routes == LeafMap(AsMap(old_))
    requires Walk(Sort(old_), Sort(new_), routes, faults).ok
    requires Refuses(Walk(Sort(old_), Sort(new_), routes, faults).calls, stuck)
    ensures AllSupported(AsMap(new_))
    ensures Walk(Sort(old_), Sort(new_), routes, faults).routes == LeafMap(AsMap(new_)) <==>
            forall k :: k in stuck && k in AsMap(old_) && At(AsMap(old_), k) != At(AsMap(new_), k)
                        ==> Cured(At(AsMap(old_), k), At(AsMap(new_), k))
  {
    var w := Walk(Sort(old_), Sort(new_), routes, faults);
    ApplyLands(old_, new_, routes, faults);
    SortKeepsMap(old_);
    SortKeepsMap(new_);
    PlanNoRepeats(Sort(old_), Sort(new_));
    forall k ensures k in w.refused <==> k in stuck && k in AsMap(old_) && At(AsMap(old_), k) != At(AsMap(new_), k) {
      PlanFinds(Sort(old_), Sort(new_), k);
      ExecuteRefuses(PlanOf(Sort(old_), Sort(new_)), routes, 0, faults, k, w, stuck);
    }
  }

  /** A refused removal can leave a blackhole under a connected route, with success reported. */
  lemma RefusedRemovalMixes(k: Key, v: int)
    ensures var n, b := Node(k, Connected(v)), Node(k, Blackhole);
            var w := Walk([b], [n], map[k := ToLeaves(Blackhole)], {0});
            w.ok && At(w.routes, k) == Some(Leaves(true, Some(v), None)) != Some(ToLeaves(n.info))
  {
    var n, b := Node(k, Connected(v)), Node(k, Blackhole);
    assert [b][1..] == [] && [n][1..] == [];
    assert PlanOf([], []) == End;
    assert PlanOf([b], [n]) == Item(k, Some(Blackhole), Some(Connected(v)), End);
    var h := Reconcile(k, Some(Blackhole), Some(Connected(v)), map[k := ToLeaves(Blackhole)], 0, {0});
    assert Execute(End, h.routes, |h.calls|, {0}).routes == h.routes;
  }

  // ----- what an apply that fails has moved

  // An accepted call that changes what the device holds for its prefix.
  ghost predicate Moves(c: Call, was: Option<Info>) {
    c.ok && match c
            case Remove(_, _, _) => true
            case Create(_, i, _, _) =>
              was.Some? && Supported(was.value) && Supported(i) ==>
                Merge(ToLeaves(was.value), ToLeaves(i)) != ToLeaves(was.value)
  }

  ghost predicate Moved(calls: seq<Call>, k: Key, was: Option<Info>) {
    exists c :: c in calls && c.key == k && Moves(c, was)
  }

  lemma ReconcileMoves(k: Key, was: Option<Info>, now: Option<Info>, routes: map<Key, Leaves>, at: nat, faults: Faults,
                       h: Outcome)
    requires h == Reconcile(k, was, now, routes, at, faults) && Agrees(was, now, At(routes, k))
    ensures At(h.routes, k) != At(routes, k) <==> Moved(h.calls, k, was)
  {
    if h.calls != [] {
      var first, last := h.calls[0], h.calls[|h.calls| - 1];
      assert first in h.calls && last in h.calls;
    }
  }

  lemma ReconcileOwn(k: Key, was: Option<Info>, now: Option<Info>, routes: map<Key, Leaves>, at: nat, faults: Faults,
                     h: Outcome)
    requires h == Reconcile(k, was, now, routes, at, faults)
    ensures forall c :: c in h.calls ==> c.key == k
    ensures forall j :: j != k ==> At(h.routes, j) == At(routes, j)
  {
  }

  lemma MovedHead(p: Plan, routes: map<Key, Leaves>, at: nat, faults: Faults, k: Key, w: Outcome)
    returns (h: Outcome, next: nat)
    requires p.Item? && w == Execute(p, routes, at, faults)
    ensures Follows(p, faults, h, next, w) && forall c :: c in h.calls ==> c.key == p.key
    ensures k != p.key ==> At(h.routes, k) == At(routes, k)
    ensures k == p.key && Agrees(p.was, p.now, At(routes, k)) ==>
              (At(h.routes, k) != At(routes, k) <==> Moved(h.calls, k, p.was))
  {
    h, next := FirstOf(p, routes, at, faults, w);
    ReconcileOwn(p.key, p.was, p.now, routes, at, faults, h);
    if k == p.key && Agrees(p.was, p.now, At(routes, k)) {
      ReconcileMoves(k, p.was, p.now, routes, at, faults, h);
    }
  }

  lemma {:induction false} UnlistedIsLeft(p: Plan, routes: map<Key, Leaves>, at: nat, faults: Faults, k: Key, w: Outcome)
    requires !Lists(p, k) && w == Execute(p, routes, at, faults)
    ensures At(w.routes, k) == At(routes, k) && forall c :: c in w.calls ==> c.key != k
    decreases p
  {
    if p.Item? {
      var h, next := MovedHead(p, routes, at, faults, k, w);
      if h.ok {
        UnlistedIsLeft(p.rest, h.routes, next, faults, k, Execute(p.rest, h.routes, next, faults));
      }
    }
  }

  lemma MovedJoin(a: seq<Call>, b: seq<Call>, k: Key, was: Option<Info>)
    ensures Moved(a + b, k, was) <==> Moved(a, k, was) || Moved(b, k, was)
  {
    if Moved(a, k, was) {
      var c :| c in a && c.key == k && Moves(c, was);
      assert c in a + b;
    }
    if Moved(b, k, was) {
      var c :| c in b && c.key == k && Moves(c, was);
      assert c in a + b;
    }
  }

  /** Successful or not, exactly the prefixes with a moving call have changed. */
  lemma {:induction false} ExecuteMoves(p: Plan, routes: map<Key, Leaves>, at: nat, faults: Faults, k: Key, w: Outcome)
    requires NoRepeats(p) && Agrees(Was(p, k), Now(p, k), At(routes, k)) && w == Execute(p, routes, at, faults)
    ensures At(w.routes, k) != At(routes, k) <==> Moved(w.calls, k, Was(p, k))
    decreases p
  {
    if p.Item? {
      var h, next := MovedHead(p, routes, at, faults, k, w);
      if h.ok {
        var t := Execute(p.rest, h.routes, next, faults);
        MovedJoin(h.calls, t.calls, k, Was(p, k));
        if k == p.key {
          UnlistedIsLeft(p.rest, h.routes, next, faults, k, t);
        } else {
          ExecuteMoves(p.rest, h.routes, next, faults, k, t);
        }
      }
    }
  }

  /** An apply on a device that matches the cache leaves it as it was exactly when no call moved a prefix. */
  lemma ApplyMoves(old_: seq<Node>, new_: seq<Node>, routes: map<Key, Leaves>, faults: Faults, w: Outcome)
    requires Distinct(old_) && Distinct(new_)
    requires AllSupported(AsMap(old_)) && routes == LeafMap(AsMap(old_))
    requires w == Walk(Sort(old_), Sort(new_), routes, faults)
    ensures w.routes == routes <==> forall c :: c in w.calls ==> !Moves(c, At(AsMap(old_), c.key))
  {
    SortKeepsMap(old_);
    SortKeepsMap(new_);
    var p := PlanOf(Sort(old_), Sort(new_));
    PlanNoRepeats(Sort(old_), Sort(new_));
    forall k ensures At(w.routes, k) != At(routes, k) <==> Moved(w.calls, k, At(AsMap(old_), k)) {
      PlanFinds(Sort(old_), Sort(new_), k);
      ExecuteMoves(p, routes, 0, faults, k, w);
    }
    SameMaps(w.routes, routes);
    forall c | c in w.calls && Moves(c, At(AsMap(old_), c.key)) ensures w.routes != routes {
      assert Moved(w.calls, c.key, At(AsMap(old_), c.key));
    }
  }

  lemma SameMaps<V>(a: map<Key, V>, b: map<Key, V>)
    ensures a == b <==> forall k :: At(a, k) == At(b, k)
  {
    if forall k :: At(a, k) == At(b, k) {
      assert forall k :: k in a ==> At(a, k) == At(b, k);
      assert forall k :: k in b ==> At(a, k) == At(b, k);
    }
  }

  // ----- tables that list a prefix more than once

  function Copies(s: seq<Node>, k: Key): nat {
    if s == [] then 0 else Copies(s[1..], k) + if s[0].key == k then 1 else 0
  }

  lemma {:induction false} NoCopies(s: seq<Node>, k: Key)
    requires forall i :: 0 <= i < |s| ==> s[i].key != k
    ensures Copies(s, k) == 0
  {
    if s != [] { NoCopies(s[1..], k); }
  }

  // In a sorted table nothing below the first prefix is listed.
  lemma BelowFirst(s: seq<Node>, k: Key)
    requires Sorted(s) && (s != [] ==> Less(k, s[0].key))
    ensures Copies(s, k) == 0
  {
    NoCopies(s, k);
  }

  // Whether k is on the device after a plan, when nothing is refused.
  function Ends(p: Plan, k: Key, here: bool): bool {
    if p.End? then here
    else Ends(p.rest, k, if p.key != k || p.was == p.now then here else p.now.Some?)
  }

  lemma PresentHead(p: Plan, routes: map<Key, Leaves>, at: nat, faults: Faults, k: Key, w: Outcome)
    returns (h: Outcome, next: nat)
    requires p.Item? && w == Execute(p, routes, at, faults) && w.ok && w.refused == {}
    ensures h.ok && h.refused == {} && Follows(p, faults, h, next, w)
    ensures k in h.routes <==> if p.key != k || p.was == p.now then k in routes else p.now.Some?
  {
    h := Reconcile(p.key, p.was, p.now, routes, at, faults);
    next := at + |h.calls|;
  }

  lemma {:induction false} ExecutePresence(p: Plan, routes: map<Key, Leaves>, at: nat, faults: Faults, k: Key, w: Outcome)
    requires w == Execute(p, routes, at, faults) && w.ok && w.refused == {}
    ensures k in w.routes <==> Ends(p, k, k in routes)
    decreases p
  {
    if p.Item? {
      var h, next := PresentHead(p, routes, at, faults, k, w);
      ExecutePresence(p.rest, h.routes, next, faults, k, Execute(p.rest, h.routes, next, faults));
    }
  }

  /**
   * When a prefix survives the merge of two sorted tables: when the new one
   * lists it, and at least as often as the old one. A prefix neither table
   * lists is left as it was.
   */
  lemma {:induction false} SurvivesMerge(old_: seq<Node>, new_: seq<Node>, k: Key, here: bool)
    requires Sorted(old_) && Sorted(new_)
    requires Copies(old_, k) > 0 && Copies(new_, k) > 0 ==> here
    ensures Ends(PlanOf(old_, new_), k, here) <==>
            Copies(old_, k) <= Copies(new_, k) && (Copies(new_, k) > 0 || here)
    decreases |old_| + |new_|
  {
    if old_ != [] || new_ != [] {
      var p := PlanOf(old_, new_);
      var next := if p.key != k || p.was == p.now then here else p.now.Some?;
      var diff := Diff(new_, old_);
      if diff == 0 {
        SurvivesMerge(old_[1..], new_[1..], k, next);
      } else if diff > 0 {
        if k == p.key { BelowFirst(new_, k); }
        SurvivesMerge(old_[1..], new_, k, next);
      } else {
        if k == p.key { BelowFirst(old_, k); }
        SurvivesMerge(old_, new_[1..], k, next);
      }
    }
  }

  lemma {:induction false} CopiesJoin(a: seq<Node>, b: seq<Node>, k: Key)
    ensures Copies(a + b, k) == Copies(a, k) + Copies(b, k)
  {
    if a == [] {
      assert a + b == b;
    } else {
      assert (a + b)[1..] == a[1..] + b;
      CopiesJoin(a[1..], b, k);
    }
  }

  lemma CopiesCut(r: seq<Node>, i: nat, k: Key)
    requires i < |r|
    ensures Copies(r, k) == Copies(r[..i] + r[i + 1..], k) + if r[i].key == k then 1 else 0
    ensures multiset(r) == multiset(r[..i] + r[i + 1..]) + multiset{r[i]}
  {
    assert r == r[..i] + ([r[i]] + r[i + 1..]);
    CopiesJoin(r[..i], [r[i]] + r[i + 1..], k);
    CopiesJoin([r[i]], r[i + 1..], k);
    CopiesJoin(r[..i], r[i + 1..], k);
    assert [r[i]][1..] == [];
  }

  // Copies do not depend on the order of a table.
  lemma {:induction false} CopiesPermute(s: seq<Node>, r: seq<Node>, k: Key)
    requires multiset(s) == multiset(r)
    ensures Copies(s, k) == Copies(r, k)
  {
    if s == [] {
      assert r == [] by { assert |multiset(r)| == |r|; }
    } else {
      assert s[0] in multiset(r);
      var i :| 0 <= i < |r| && r[i] == s[0];
      CopiesCut(r, i, k);
      assert s == [s[0]] + s[1..];
      assert multiset(s[1..]) == multiset(s) - multiset{s[0]};
      assert multiset(r[..i] + r[i + 1..]) == multiset(r) - multiset{s[0]};
      CopiesPermute(s[1..], r[..i] + r[i + 1..], k);
    }
  }

  // The order a library sort may leave a table in: equal prefixes in any order.
  ghost predicate IsSortOf(s: seq<Node>, r: seq<Node>) { Sorted(r) && multiset(s) == multiset(r) }

  /**
   * Exactly when a successful apply with no refused removal leaves a
   * configured prefix on the device, repeated prefixes or not, and however
   * the sort orders equal ones: when the cached table does not list it more
   * often than the configured one.
   */
  lemma ApplyKeepsPrefix(old_: seq<Node>, new_: seq<Node>, o: seq<Node>, n: seq<Node>,
                         routes: map<Key, Leaves>, faults: Faults, k: Key, w: Outcome)
    requires IsSortOf(old_, o) && IsSortOf(new_, n)
    requires w == Walk(o, n, routes, faults) && w.ok && w.refused == {}
    requires k in routes <==> Copies(old_, k) > 0
    ensures k in w.routes <==> Copies(new_, k) > 0 && Copies(old_, k) <= Copies(new_, k)
  {
    CopiesPermute(old_, o, k);
    CopiesPermute(new_, n, k);
    SurvivesMerge(o, n, k, k in routes);
    ExecutePresence(PlanOf(o, n), routes, 0, faults, k, w);
  }
}
