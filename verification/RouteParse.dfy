/**
 * Routes of a configuration document, read in two passes of one procedure:
 * the first counts, the second fills a table of exactly that size.
 */
module RouteParse {
  import opened Options
  import opened RouteTables

  const MAX_VLANS: nat := 4096

  // A route object; absent means missing or unreadable text.
  datatype RouteObj = RouteObj(prefix: Option<Key>, nexthop: Option<int>)

  // The VLAN id is a floating-point number: its floor, and whether it has a
  // fraction. It is absent when there is no number. `cast` is what comes of
  // converting a negative number or none to 16 bits, which C leaves open.
  datatype Iface = Iface(vlanId: Option<int>, fraction: bool, cast: nat, gateway: seq<RouteObj>, broadcast: seq<RouteObj>)

  datatype Doc = Doc(blackhole: seq<RouteObj>, unreachable: seq<RouteObj>, ifaces: seq<Iface>)

  // MAX_VLANS stands for no usable VLAN. A missing number passes both tests.
  function InterfaceVid(f: Iface): nat {
    match f.vlanId
    case None => f.cast % 0x1_0000
    case Some(n) =>
      if (n == 0 && !f.fraction) || n >= MAX_VLANS then MAX_VLANS
      else if n >= 0 then n
      else f.cast % 0x1_0000
  }

  datatype Kind = Black | Unreach | Gate(vid: nat) | Broad(bvid: nat)

  datatype Row = Row(obj: RouteObj, kind: Kind)

  predicate Readable(r: Row) {
    r.obj.prefix.Some? && (r.kind.Gate? ==> r.obj.nexthop.Some?)
  }

  predicate AllReadable(rows: seq<Row>) {
    forall i :: 0 <= i < |rows| ==> Readable(rows[i])
  }

  function NodeOf(r: Row): Node
    requires Readable(r)
  {
    Node(r.obj.prefix.value,
         match r.kind
         case Black => Blackhole
         case Unreach => Unreachable
         case Gate(v) => NextHop(v, r.obj.nexthop.value)
         case Broad(v) => Broadcast(v))
  }

  function NodesOf(rows: seq<Row>): seq<Node>
    requires AllReadable(rows)
  {
    seq(|rows|, i requires 0 <= i < |rows| => NodeOf(rows[i]))
  }

  function RowsOf(objs: seq<RouteObj>, kind: Kind): seq<Row> {
    seq(|objs|, i requires 0 <= i < |objs| => Row(objs[i], kind))
  }

  // An interface without a usable VLAN contributes nothing.
  function IfaceRows(f: Iface): seq<Row> {
    var vid := InterfaceVid(f);
    if vid == MAX_VLANS then [] else RowsOf(f.gateway, Gate(vid)) + RowsOf(f.broadcast, Broad(vid))
  }

  // The rows of the first n interfaces.
  function IfacesRows(fs: seq<Iface>, n: nat): seq<Row>
    requires n <= |fs|
  {
    if n == 0 then [] else IfacesRows(fs, n - 1) + IfaceRows(fs[n - 1])
  }

  /** The routes of a document in the order the table lists them. */
  function Rows(d: Doc): seq<Row> {
    RowsOf(d.blackhole, Black) + RowsOf(d.unreachable, Unreach) + IfacesRows(d.ifaces, |d.ifaces|)
  }

  // How many they are.
  function Weight(fs: seq<Iface>, n: nat): nat
    requires n <= |fs|
  {
    if n == 0 then 0
    else
      var f := fs[n - 1];
      Weight(fs, n - 1) + if InterfaceVid(f) == MAX_VLANS then 0 else |f.gateway| + |f.broadcast|
  }

  lemma {:induction false} IfacesWeigh(fs: seq<Iface>, n: nat)
    requires n <= |fs|
    ensures |IfacesRows(fs, n)| == Weight(fs, n)
  {
    if n > 0 { IfacesWeigh(fs, n - 1); }
  }

  lemma PrefixGrows(p: seq<Row>, a: seq<Row>, b: seq<Row>)
    requires p <= a
    ensures p <= a + b
  {
  }

  // The rows of interface i follow those of the interfaces before it.
  lemma {:induction false} IfacesPlace(fs: seq<Iface>, i: nat, n: nat, before: seq<Row>, here: seq<Row>, all: seq<Row>)
    requires i < n <= |fs| && before == IfacesRows(fs, i) && here == IfaceRows(fs[i]) && all == IfacesRows(fs, n)
    ensures before + here <= all
    decreases n
  {
    if i < n - 1 {
      var rest, last := Parts(fs, n, all);
      IfacesPlace(fs, i, n - 1, before, here, rest);
      PrefixGrows(before + here, rest, last);
    }
  }

  lemma Parts(fs: seq<Iface>, n: nat, all: seq<Row>) returns (rest: seq<Row>, last: seq<Row>)
    requires 0 < n <= |fs| && all == IfacesRows(fs, n)
    ensures rest == IfacesRows(fs, n - 1) && all == rest + last
  {
    rest, last := IfacesRows(fs, n - 1), IfaceRows(fs[n - 1]);
  }

  lemma PlaceAfter(a: seq<Row>, before: seq<Row>, here: seq<Row>, all: seq<Row>, at: nat)
    requires before + here <= all && at == |a| + |before|
    ensures at + |here| <= |a + all| && (a + all)[at..at + |here|] == here
  {
    var rest := all[|before| + |here|..];
    assert all == before + here + rest;
    assert a + all == (a + before) + here + rest;
  }

  lemma Segments(b: seq<Row>, u: seq<Row>, f: seq<Row>)
    ensures (b + u + f)[..|b|] == b && (b + u + f)[|b|..|b| + |u|] == u
  {
  }

  /** Where the routes of no interface stand: blackholes first, then unreachables. */
  lemma GlobalRowsPlace(d: Doc)
    ensures |Rows(d)| == |d.blackhole| + |d.unreachable| + Weight(d.ifaces, |d.ifaces|)
    ensures Rows(d)[..|d.blackhole|] == RowsOf(d.blackhole, Black)
    ensures Rows(d)[|d.blackhole|..|d.blackhole| + |d.unreachable|] == RowsOf(d.unreachable, Unreach)
  {
    IfacesWeigh(d.ifaces, |d.ifaces|);
    Segments(RowsOf(d.blackhole, Black), RowsOf(d.unreachable, Unreach), IfacesRows(d.ifaces, |d.ifaces|));
  }

  /** Where the routes of an interface stand: after all of these and of the interfaces before it. */
  lemma RowsPlace(d: Doc, i: nat, at: nat, here: seq<Row>)
    requires i < |d.ifaces| && here == IfaceRows(d.ifaces[i])
    requires at == |d.blackhole| + |d.unreachable| + Weight(d.ifaces, i)
    ensures at + |here| <= |Rows(d)| && Rows(d)[at..at + |here|] == here
  {
    var n := |d.ifaces|;
    IfacesWeigh(d.ifaces, i);
    IfacesPlace(d.ifaces, i, n, IfacesRows(d.ifaces, i), here, IfacesRows(d.ifaces, n));
    PlaceAfter(RowsOf(d.blackhole, Black) + RowsOf(d.unreachable, Unreach),
               IfacesRows(d.ifaces, i), here, IfacesRows(d.ifaces, n), at);
  }

  /** Which interfaces count: a whole VLAN id from 1 to 4095 is taken as it is; 0 and 4096 or more are left out. */
  lemma VlanIdMeans(f: Iface, n: int)
    requires f.vlanId == Some(n) && !f.fraction && n >= 0
    ensures 1 <= n < 4096 ==> InterfaceVid(f) == n && |IfaceRows(f)| == |f.gateway| + |f.broadcast|
    ensures n == 0 || n >= 4096 ==> IfaceRows(f) == []
  {
  }

  /** A blackhole or unreachable route, as the table holds it. */
  lemma GlobalNodes(d: Doc, table: seq<Node>, j: nat)
    requires AllReadable(Rows(d)) && table == NodesOf(Rows(d))
    ensures j < |d.blackhole| ==>
              && j < |table| && d.blackhole[j].prefix == Some(table[j].key) && table[j].info.Blackhole?
    ensures j < |d.unreachable| ==>
              var at := |d.blackhole| + j;
              at < |table| && d.unreachable[j].prefix == Some(table[at].key) && table[at].info.Unreachable?
  {
    GlobalRowsPlace(d);
    var rows := Rows(d);
    var black, unreach := RowsOf(d.blackhole, Black), RowsOf(d.unreachable, Unreach);
    if j < |d.blackhole| {
      AtSegment(rows, 0, black, j);
      assert black[j] == Row(d.blackhole[j], Black);
    }
    if j < |d.unreachable| {
      AtSegment(rows, |d.blackhole|, unreach, j);
      assert unreach[j] == Row(d.unreachable[j], Unreach);
    }
  }

  lemma AtSegment(rows: seq<Row>, from: nat, part: seq<Row>, j: nat)
    requires from + |part| <= |rows| && rows[from..from + |part|] == part && j < |part|
    ensures rows[from + j] == part[j]
  {
    assert rows[from..from + |part|][j] == rows[from + j];
  }

  /** An interface's gateways and broadcasts, as the table holds them: its VLAN, the prefix, and the next hop. */
  lemma IfaceNodes(d: Doc, table: seq<Node>, i: nat, vid: nat, at: nat, j: nat)
    requires AllReadable(Rows(d)) && table == NodesOf(Rows(d))
    requires i < |d.ifaces| && d.ifaces[i].vlanId == Some(vid) && !d.ifaces[i].fraction && 1 <= vid < 4096
    requires at == |d.blackhole| + |d.unreachable| + Weight(d.ifaces, i)
    ensures var g := d.ifaces[i].gateway;
            j < |g| ==>
              && at + j < |table| && g[j].prefix == Some(table[at + j].key)
              && table[at + j].info.NextHop? && table[at + j].info.nhVid == vid && g[j].nexthop == Some(table[at + j].info.gw)
    ensures var f := d.ifaces[i];
            var k := at + |f.gateway| + j;
            j < |f.broadcast| ==>
              && k < |table| && f.broadcast[j].prefix == Some(table[k].key)
              && table[k].info.Broadcast? && table[k].info.bcVid == vid
  {
    var f := d.ifaces[i];
    var here := IfaceRows(f);
    VlanIdMeans(f, vid);
    RowsPlace(d, i, at, here);
    var rows := Rows(d);
    if j < |f.gateway| {
      assert here[j] == Row(f.gateway[j], Gate(vid));
      AtSegment(rows, at, here, j);
    }
    if j < |f.broadcast| {
      assert here[|f.gateway| + j] == Row(f.broadcast[j], Broad(vid));
      AtSegment(rows, at, here, |f.gateway| + j);
    }
  }

  /* ---- the two passes ---- */

  // The table after these rows: a full table drops what does not fit.
  function Filled(was: seq<Node>, rows: seq<Row>, max: nat): seq<Node>
    requires AllReadable(rows) && |was| <= max
  {
    was + NodesOf(rows)[..if |rows| <= max - |was| then |rows| else max - |was|]
  }

  lemma FilledStep(was: seq<Node>, rows: seq<Row>, r: Row, max: nat)
    requires AllReadable(rows) && Readable(r) && |was| <= max
    ensures AllReadable(rows + [r])
    ensures Filled(was, rows + [r], max) ==
            if |Filled(was, rows, max)| < max then Filled(was, rows, max) + [NodeOf(r)] else Filled(was, rows, max)
  {
    assert NodesOf(rows + [r]) == NodesOf(rows) + [NodeOf(r)];
  }

  // Where a pass stands: `done` rows seen, all of them in the table if there is one.
  ghost predicate At(router: RouteTable?, was: seq<Node>, done: seq<Row>)
    reads router, if router == null then {} else {router.arr}
  {
    router != null ==>
      && router.Valid() && AllReadable(done) && |was| <= router.arr.Length
      && router.Nodes() == Filled(was, done, router.arr.Length)
  }

  // One route; only with a table is it looked at.
  method ProcessOne(obj: RouteObj, kind: Kind, router: RouteTable?, ghost was: seq<Node>, ghost done: seq<Row>)
    returns (ok: bool)
    requires At(router, was, done)
    modifies if router == null then {} else {router, router.arr}
    ensures router != null ==> router.arr == old(router.arr)
    ensures ok == (router == null || Readable(Row(obj, kind)))
    ensures ok ==> At(router, was, done + [Row(obj, kind)])
  {
    if router == null {
      return true;
    }
    if obj.prefix.None? || (kind.Gate? && obj.nexthop.None?) {
      return false;
    }
    FilledStep(was, done, Row(obj, kind), router.arr.Length);
    var _ := router.Append(NodeOf(Row(obj, kind)));
    return true;
  }

  lemma RowsStep(objs: seq<RouteObj>, kind: Kind, k: nat, done: seq<Row>)
    requires k < |objs|
    ensures done + RowsOf(objs[..k + 1], kind) == done + RowsOf(objs[..k], kind) + [Row(objs[k], kind)]
    ensures AllReadable(RowsOf(objs[..k + 1], kind)) <==> AllReadable(RowsOf(objs[..k], kind)) && Readable(Row(objs[k], kind))
  {
    var front, one := RowsOf(objs[..k], kind), [Row(objs[k], kind)];
    assert RowsOf(objs[..k + 1], kind) == front + one;
    assert AllReadable(one) <==> Readable(one[0]);
    ReadableSplit(front, one);
  }

  lemma UnreadableRow(objs: seq<RouteObj>, kind: Kind, k: nat)
    requires k < |objs| && !Readable(Row(objs[k], kind))
    ensures !AllReadable(RowsOf(objs, kind))
  {
    assert RowsOf(objs, kind)[k] == Row(objs[k], kind);
  }

  /** One list of routes. Only the filling pass can fail, on an unreadable route. */
  method ProcessList(objs: seq<RouteObj>, kind: Kind, index: nat, router: RouteTable?,
                     ghost was: seq<Node>, ghost done: seq<Row>) returns (next: int)
    requires At(router, was, done) && index == |done|
    modifies if router == null then {} else {router, router.arr}
    ensures router != null ==> router.arr == old(router.arr)
    ensures next == if router == null || AllReadable(RowsOf(objs, kind)) then index + |objs| else -1
    ensures next != -1 ==> At(router, was, done + RowsOf(objs, kind))
  {
    next := index;
    assert done + RowsOf(objs[..0], kind) == done;
    for k := 0 to |objs|
      invariant next == index + k && (router != null ==> router.arr == old(router.arr))
      invariant router == null || AllReadable(RowsOf(objs[..k], kind))
      invariant At(router, was, done + RowsOf(objs[..k], kind))
    {
      RowsStep(objs, kind, k, done);
      next := next + 1;
      var ok := ProcessOne(objs[k], kind, router, was, done + RowsOf(objs[..k], kind));
      if !ok {
        UnreadableRow(objs, kind, k);
        return -1;
      }
    }
    assert objs[..|objs|] == objs;
  }

  method ProcessIface(f: Iface, index: nat, router: RouteTable?, ghost was: seq<Node>, ghost done: seq<Row>)
    returns (next: int)
    requires At(router, was, done) && index == |done|
    modifies if router == null then {} else {router, router.arr}
    ensures router != null ==> router.arr == old(router.arr)
    ensures next == if router == null || AllReadable(IfaceRows(f)) then index + |IfaceRows(f)| else -1
    ensures next != -1 ==> At(router, was, done + IfaceRows(f))
  {
    var vid := InterfaceVid(f);
    if vid == MAX_VLANS {
      assert done + [] == done;
      return index;
    }
    ghost var g, b := RowsOf(f.gateway, Gate(vid)), RowsOf(f.broadcast, Broad(vid));
    ReadableSplit(g, b);
    assert done + (g + b) == done + g + b;
    next := ProcessList(f.gateway, Gate(vid), index, router, was, done);
    if next == -1 {
      return;
    }
    next := ProcessList(f.broadcast, Broad(vid), next, router, was, done + g);
  }

  lemma ReadableSplit(a: seq<Row>, b: seq<Row>)
    ensures AllReadable(a + b) <==> AllReadable(a) && AllReadable(b)
  {
    if AllReadable(a + b) {
      assert forall i :: 0 <= i < |a| ==> a[i] == (a + b)[i];
      assert forall i :: 0 <= i < |b| ==> b[i] == (a + b)[|a| + i];
    }
  }

  lemma {:induction false} UnreadableIface(fs: seq<Iface>, k: nat, n: nat)
    requires k < n <= |fs| && !AllReadable(IfaceRows(fs[k]))
    ensures !AllReadable(IfacesRows(fs, n))
  {
    ReadableSplit(IfacesRows(fs, n - 1), IfaceRows(fs[n - 1]));
    if k < n - 1 { UnreadableIface(fs, k, n - 1); }
  }

  // Where the loop over the interfaces stands: the first k are done.
  ghost predicate Midway(fs: seq<Iface>, k: nat, index: nat, done: seq<Row>, seen: seq<Row>, next: int, filling: bool)
    requires k <= |fs|
  {
    && seen == done + IfacesRows(fs, k) && next == index + |IfacesRows(fs, k)|
    && (filling ==> AllReadable(IfacesRows(fs, k)))
  }

  lemma MidwayStep(fs: seq<Iface>, k: nat, index: nat, done: seq<Row>, seen: seq<Row>, here: seq<Row>, next: int, filling: bool)
    requires k < |fs| && here == IfaceRows(fs[k]) && Midway(fs, k, index, done, seen, next, filling)
    requires filling ==> AllReadable(here)
    ensures Midway(fs, k + 1, index, done, seen + here, next + |here|, filling)
  {
    var mine := IfacesRows(fs, k);
    ReadableSplit(mine, here);
    assert (done + mine) + here == done + (mine + here);
  }

  method ProcessIfaces(fs: seq<Iface>, index: nat, router: RouteTable?, ghost was: seq<Node>, ghost done: seq<Row>)
    returns (next: int)
    requires At(router, was, done) && index == |done|
    modifies if router == null then {} else {router, router.arr}
    ensures router != null ==> router.arr == old(router.arr)
    ensures next == if router == null || AllReadable(IfacesRows(fs, |fs|)) then index + |IfacesRows(fs, |fs|)| else -1
    ensures next != -1 ==> At(router, was, done + IfacesRows(fs, |fs|))
  {
    next := index;
    ghost var seen := done;
    assert done + [] == done;
    for k := 0 to |fs|
      invariant Midway(fs, k, index, done, seen, next, router != null) && next == |seen|
      invariant router != null ==> router.arr == old(router.arr)
      invariant At(router, was, seen)
    {
      ghost var here, before := IfaceRows(fs[k]), next;
      next := ProcessIface(fs[k], next, router, was, seen);
      if next == -1 {
        UnreadableIface(fs, k, |fs|);
        return;
      }
      MidwayStep(fs, k, index, done, seen, here, before, router != null);
      seen := seen + here;
    }
  }

  /**
   * The procedure. Without a table it counts the document's routes and cannot
   * fail. With one it fails exactly on an unreadable route, and else adds the
   * routes in order as far as the table has room.
   */
  method CfgProcessPrefixes(d: Doc, router: RouteTable?) returns (index: int)
    requires router != null ==> router.Valid()
    modifies if router == null then {} else {router, router.arr}
    ensures router != null ==> router.arr == old(router.arr)
    ensures index == if router == null || AllReadable(Rows(d)) then |Rows(d)| else -1
    ensures router != null && index != -1 ==>
              && router.Valid()
              && router.Nodes() == Filled(old(router.Nodes()), Rows(d), router.arr.Length)
  {
    ghost var was := if router == null then [] else router.Nodes();
    ghost var b, u, f := RowsOf(d.blackhole, Black), RowsOf(d.unreachable, Unreach), IfacesRows(d.ifaces, |d.ifaces|);
    ReadableSplit(b, u);
    ReadableSplit(b + u, f);
    index := ProcessList(d.blackhole, Black, 0, router, was, []);
    if index == -1 {
      return;
    }
    assert [] + b == b;
    index := ProcessList(d.unreachable, Unreach, index, router, was, b);
    if index == -1 {
      return;
    }
    index := ProcessIfaces(d.ifaces, index, router, was, b + u);
  }

  lemma ListReadable(objs: seq<RouteObj>, kind: Kind)
    ensures AllReadable(RowsOf(objs, kind)) <==>
            forall j :: 0 <= j < |objs| ==> objs[j].prefix.Some? && (kind.Gate? ==> objs[j].nexthop.Some?)
  {
    var rows := RowsOf(objs, kind);
    assert forall j :: 0 <= j < |objs| ==> rows[j] == Row(objs[j], kind);
    if AllReadable(rows) {
      forall j | 0 <= j < |objs| ensures objs[j].prefix.Some? && (kind.Gate? ==> objs[j].nexthop.Some?) {
        assert Readable(rows[j]);
      }
    }
  }

  // Every gateway has a prefix and a next hop, every broadcast a prefix.
  ghost predicate IfaceReadable(f: Iface) {
    && (forall j :: 0 <= j < |f.gateway| ==> f.gateway[j].prefix.Some? && f.gateway[j].nexthop.Some?)
    && (forall j :: 0 <= j < |f.broadcast| ==> f.broadcast[j].prefix.Some?)
  }

  // Nothing is asked of an interface that does not count.
  ghost predicate Acceptable(f: Iface) { InterfaceVid(f) == MAX_VLANS || IfaceReadable(f) }

  lemma IfaceRowsReadable(f: Iface, rows: seq<Row>)
    requires rows == IfaceRows(f)
    ensures AllReadable(rows) <==> Acceptable(f)
  {
    var vid := InterfaceVid(f);
    if vid != MAX_VLANS {
      ReadableSplit(RowsOf(f.gateway, Gate(vid)), RowsOf(f.broadcast, Broad(vid)));
      ListReadable(f.gateway, Gate(vid));
      ListReadable(f.broadcast, Broad(vid));
    }
  }

  lemma {:induction false} IfacesReadable(fs: seq<Iface>, n: nat, rows: seq<Row>)
    requires n <= |fs| && rows == IfacesRows(fs, n)
    ensures AllReadable(rows) <==> forall i :: 0 <= i < n ==> Acceptable(fs[i])
    decreases n
  {
    if n > 0 {
      var rest, last := LastIface(fs, n, rows);
      IfacesReadable(fs, n - 1, rest);
      ReadableSplit(rest, last);
    }
  }

  lemma LastIface(fs: seq<Iface>, n: nat, rows: seq<Row>) returns (rest: seq<Row>, last: seq<Row>)
    requires 0 < n <= |fs| && rows == IfacesRows(fs, n)
    ensures rest == IfacesRows(fs, n - 1) && rows == rest + last
    ensures AllReadable(last) <==> Acceptable(fs[n - 1])
  {
    rest, last := IfacesRows(fs, n - 1), IfaceRows(fs[n - 1]);
    IfaceRowsReadable(fs[n - 1], last);
  }

  /** Which documents parse, route by route: every one a prefix, gateways also a next hop, where the interface counts. */
  lemma ParsesMeans(d: Doc)
    ensures AllReadable(Rows(d)) <==>
            && (forall j :: 0 <= j < |d.blackhole| ==> d.blackhole[j].prefix.Some?)
            && (forall j :: 0 <= j < |d.unreachable| ==> d.unreachable[j].prefix.Some?)
            && (forall i :: 0 <= i < |d.ifaces| ==> Acceptable(d.ifaces[i]))
  {
    var b, u, f := RowsOf(d.blackhole, Black), RowsOf(d.unreachable, Unreach), IfacesRows(d.ifaces, |d.ifaces|);
    ReadableSplit(b, u);
    ReadableSplit(b + u, f);
    ListReadable(d.blackhole, Black);
    ListReadable(d.unreachable, Unreach);
    IfacesReadable(d.ifaces, |d.ifaces|, f);
  }

  /**
   * Both passes: success is exactly that every route is readable; then no
   * append was refused, the table is full, and it lists the document's routes
   * in order.
   */
  method CfgRouterParse(d: Doc) returns (ok: bool, router: RouteTable)
    ensures fresh(router) && fresh(router.arr)
    ensures ok == AllReadable(Rows(d))
    ensures ok ==> router.Valid() && router.len == router.arr.Length && router.Nodes() == NodesOf(Rows(d))
  {
    var num := CfgProcessPrefixes(d, null);
    router := new RouteTable.Alloc(num);
    num := CfgProcessPrefixes(d, router);
    ok := num != -1;
    if ok {
      assert NodesOf(Rows(d))[..|Rows(d)|] == NodesOf(Rows(d));
      assert |router.Nodes()| == router.len;
    }
  }
}
