/**
 * Route tables: keys, destinations, the two comparators, and the growable
 * array the parser fills and the platform sorts.
 */
module RouteTables {

  // A prefix; addresses and lengths are only ever compared.
  datatype Key = Key(prefixLen: int, addr: int)

  datatype Info =
    | Blackhole
    | Unreachable
    | Connected(vid: int)
    | NextHop(nhVid: int, gw: int)
    | Broadcast(bcVid: int)
  {
    // Position in the C enumeration.
    function Rank(): int {
      match this
      case Blackhole => 0
      case Unreachable => 1
      case Connected(_) => 2
      case NextHop(_, _) => 3
      case Broadcast(_) => 4
    }
  }

  datatype Node = Node(key: Key, info: Info)

  function Cmp(a: int, b: int): int {
    if a > b then 1 else if a < b then -1 else 0
  }

  /** Prefix length first, then address. Zero means the same prefix. */
  function KeyCmp(a: Key, b: Key): (r: int)
    ensures r == 0 <==> a == b
  {
    if a.prefixLen != b.prefixLen then Cmp(a.prefixLen, b.prefixLen)
    else Cmp(a.addr, b.addr)
  }

  predicate Less(a: Key, b: Key) { KeyCmp(a, b) < 0 }

  /** A strict total order, read the same from either side; shorter prefixes come first, then lower addresses. */
  lemma KeyCmpOrders(a: Key, b: Key, c: Key)
    ensures Less(a, b) <==> a.prefixLen < b.prefixLen || (a.prefixLen == b.prefixLen && a.addr < b.addr)
    ensures KeyCmp(a, b) < 0 <==> KeyCmp(b, a) > 0
    ensures Less(a, b) || a == b || Less(b, a)
    ensures Less(a, b) && Less(b, c) ==> Less(a, c)
  {
  }

  /** Zero means the same destination. */
  function InfoCmp(a: Info, b: Info): (r: int)
    ensures r == 0 <==> a == b
  {
    if a.Rank() != b.Rank() then Cmp(a.Rank(), b.Rank())
    else
      match a
      case Blackhole => 0
      case Unreachable => 0
      case Connected(v) => Cmp(v, b.vid)
      case Broadcast(v) => Cmp(v, b.bcVid)
      case NextHop(v, g) => if v != b.nhVid then Cmp(v, b.nhVid) else Cmp(g, b.gw)
  }

  ghost predicate Sorted(s: seq<Node>) {
    forall i, j :: 0 <= i < j < |s| ==> KeyCmp(s[i].key, s[j].key) <= 0
  }

  ghost predicate Distinct(s: seq<Node>) {
    forall i, j :: 0 <= i < j < |s| ==> s[i].key != s[j].key
  }

  // Sorted with no repeated prefix.
  ghost predicate Ascending(s: seq<Node>) {
    forall i, j :: 0 <= i < j < |s| ==> Less(s[i].key, s[j].key)
  }

  /** A table read as a map from prefix to destination. */
  function AsMap(s: seq<Node>): map<Key, Info> {
    if s == [] then map[] else AsMap(s[1..])[s[0].key := s[0].info]
  }

  function Insert(n: Node, s: seq<Node>): seq<Node> {
    if s == [] || KeyCmp(n.key, s[0].key) <= 0 then [n] + s
    else [s[0]] + Insert(n, s[1..])
  }

  /** The outcome of the library sort on a table. */
  function Sort(s: seq<Node>): seq<Node> {
    if s == [] then [] else Insert(s[0], Sort(s[1..]))
  }

  lemma {:induction false} InsertPermutes(n: Node, s: seq<Node>)
    ensures multiset(Insert(n, s)) == multiset(s) + multiset{n}
  {
    if s != [] && KeyCmp(n.key, s[0].key) > 0 {
      InsertPermutes(n, s[1..]);
      assert s == [s[0]] + s[1..];
    }
  }

  lemma {:induction false} InsertHolds(n: Node, s: seq<Node>, r: seq<Node>)
    requires r == Insert(n, s)
    ensures forall x :: x in r ==> x == n || x in s
  {
    if s != [] && KeyCmp(n.key, s[0].key) > 0 {
      InsertHolds(n, s[1..], Insert(n, s[1..]));
    }
  }

  lemma SortedCons(n: Node, s: seq<Node>)
    requires Sorted(s) && forall x :: x in s ==> KeyCmp(n.key, x.key) <= 0
    ensures Sorted([n] + s)
  {
    var r := [n] + s;
    forall i, j | 0 <= i < j < |r| ensures KeyCmp(r[i].key, r[j].key) <= 0 {
      assert r[j] == s[j - 1] && s[j - 1] in s;
      if i > 0 { assert r[i] == s[i - 1]; }
    }
  }

  lemma BelowAll(n: Node, s: seq<Node>)
    requires Sorted(s) && s != [] && KeyCmp(n.key, s[0].key) <= 0
    ensures forall x :: x in s ==> KeyCmp(n.key, x.key) <= 0
  {
    forall x | x in s ensures KeyCmp(n.key, x.key) <= 0 {
      var i :| 0 <= i < |s| && s[i] == x;
      assert i > 0 ==> KeyCmp(s[0].key, s[i].key) <= 0;
    }
  }

  lemma {:induction false} InsertSorts(n: Node, s: seq<Node>, r: seq<Node>)
    requires Sorted(s) && r == Insert(n, s)
    ensures Sorted(r)
  {
    if s == [] {
    } else if KeyCmp(n.key, s[0].key) <= 0 {
      BelowAll(n, s);
      SortedCons(n, s);
    } else {
      var rest := Insert(n, s[1..]);
      InsertSorts(n, s[1..], rest);
      InsertHolds(n, s[1..], rest);
      BelowAll(s[0], s);
      SortedCons(s[0], rest);
    }
  }

  /** Sorting orders the table and keeps every node, with its multiplicity. */
  lemma {:induction false} SortOrders(s: seq<Node>)
    ensures Sorted(Sort(s)) && multiset(Sort(s)) == multiset(s)
  {
    if s != [] {
      SortOrders(s[1..]);
      InsertSorts(s[0], Sort(s[1..]), Sort(s));
      InsertPermutes(s[0], Sort(s[1..]));
      assert s == [s[0]] + s[1..];
    }
  }

  lemma {:induction false} SortFixes(s: seq<Node>)
    requires Sorted(s)
    ensures Sort(s) == s
  {
    if s != [] {
      SortFixes(s[1..]);
    }
  }

  lemma {:induction false} AsMapKeys(s: seq<Node>, k: Key)
    ensures k in AsMap(s) <==> exists i :: 0 <= i < |s| && s[i].key == k
  {
    if s != [] {
      AsMapKeys(s[1..], k);
      if k in AsMap(s[1..]) {
        var i :| 0 <= i < |s[1..]| && s[1..][i].key == k;
        assert s[i + 1].key == k;
      }
      if i :| 0 < i < |s| && s[i].key == k {
        assert s[1..][i - 1].key == k;
      }
    }
  }

  lemma {:induction false} AsMapHolds(s: seq<Node>, i: nat)
    requires Distinct(s) && i < |s|
    ensures s[i].key in AsMap(s) && AsMap(s)[s[i].key] == s[i].info
  {
    if i > 0 {
      AsMapHolds(s[1..], i - 1);
    }
  }

  lemma AsMapCovers(s: seq<Node>, r: seq<Node>)
    requires Distinct(s) && Distinct(r)
    requires forall n :: n in s ==> n in r
    ensures forall k :: k in AsMap(s) ==> k in AsMap(r) && AsMap(r)[k] == AsMap(s)[k]
  {
    forall k | k in AsMap(s) ensures k in AsMap(r) && AsMap(r)[k] == AsMap(s)[k] {
      AsMapKeys(s, k);
      var i :| 0 <= i < |s| && s[i].key == k;
      assert s[i] in r;
      var j :| 0 <= j < |r| && r[j] == s[i];
      AsMapHolds(s, i);
      AsMapHolds(r, j);
    }
  }

  /** On distinct prefixes sorting is strict and leaves the table's map alone. */
  lemma SortKeepsMap(s: seq<Node>)
    requires Distinct(s)
    ensures Ascending(Sort(s)) && AsMap(Sort(s)) == AsMap(s)
  {
    var r := Sort(s);
    SortOrders(s);
    DistinctPermutes(s, r);
    assert forall n :: n in s <==> n in r by {
      assert forall n :: n in s <==> n in multiset(s);
      assert forall n :: n in r <==> n in multiset(r);
    }
    AsMapCovers(s, r);
    AsMapCovers(r, s);
  }

  lemma DistinctPermutes(s: seq<Node>, r: seq<Node>)
    requires Distinct(s) && multiset(r) == multiset(s)
    ensures Distinct(r)
  {
    forall i, j | 0 <= i < j < |r| ensures r[i].key != r[j].key {
      if r[i].key == r[j].key {
        assert r[i] in multiset(s) && r[j] in multiset(s);
        var a :| 0 <= a < |s| && s[a] == r[i];
        var b :| 0 <= b < |s| && s[b] == r[j];
        assert a == b;
        CountTwo(r, i, j);
        CountOne(s, a);
      }
    }
  }

  lemma CountTwo(r: seq<Node>, i: nat, j: nat)
    requires i < j < |r| && r[i] == r[j]
    ensures multiset(r)[r[i]] >= 2
  {
    assert r == r[..i] + [r[i]] + r[i + 1..j] + [r[j]] + r[j + 1..];
  }

  lemma CountOne(s: seq<Node>, a: nat)
    requires Distinct(s) && a < |s|
    ensures multiset(s)[s[a]] == 1
  {
    assert s == s[..a] + [s[a]] + s[a + 1..];
    assert s[a] !in s[..a] && s[a] !in s[a + 1..];
  }

  /** The table as the C code holds it: `arr` is the allocation, `len` the used part. */
  class RouteTable {
    var arr: array<Node>
    var len: nat
    var sorted: bool

    ghost predicate Valid()
      reads this, arr
    {
      len <= arr.Length && (sorted ==> Sorted(arr[..len]))
    }

    function Nodes(): seq<Node>
      requires len <= arr.Length
      reads this, arr
    {
      arr[..len]
    }

    constructor Alloc(max: nat)
      ensures Valid() && fresh(arr) && arr.Length == max && Nodes() == [] && sorted
    {
      arr := new Node[max](_ => Node(Key(0, 0), Blackhole));
      len := 0;
      sorted := true;
    }

    constructor Copy(src: RouteTable)
      requires src.Valid()
      ensures Valid() && fresh(arr) && arr.Length == src.arr.Length
      ensures Nodes() == src.Nodes() && sorted == src.sorted
    {
      var from := src;
      arr := new Node[from.arr.Length](i requires 0 <= i < from.arr.Length reads from, from.arr => from.arr[i]);
      len := from.len;
      sorted := from.sorted;
      new;
      assert arr[..len] == from.arr[..len];
    }

    // Struct assignment: a second descriptor over the same array.
    constructor Alias(src: RouteTable)
      requires src.Valid()
      ensures Valid() && arr == src.arr && len == src.len && sorted == src.sorted
    {
      arr := src.arr;
      len := src.len;
      sorted := src.sorted;
    }

    /** The array is sorted in place; entries past `len` stay. */
    method SortInPlace()
      requires Valid()
      modifies this`sorted, arr
      ensures Valid() && sorted && Nodes() == Sort(old(Nodes()))
    {
      ghost var was := Nodes();
      SortOrders(was);
      var s := Sort(Nodes());
      assert |s| == |multiset(s)| == |multiset(was)| == len;
      forall i | 0 <= i < len {
        arr[i] := s[i];
      }
      assert arr[..len] == s;
      sorted := true;
    }

    // Sort unless the flag says it is already done.
    method EnsureSorted()
      requires Valid()
      modifies this`sorted, arr
      ensures Valid() && sorted && Nodes() == Sort(old(Nodes()))
    {
      if sorted {
        SortFixes(Nodes());
      } else {
        SortInPlace();
      }
    }

    /** A full table refuses the node and does not change. */
    method Append(n: Node) returns (ok: bool)
      requires Valid()
      modifies this`len, this`sorted, arr
      ensures Valid()
      ensures ok == (old(len) < arr.Length)
      ensures Nodes() == if ok then old(Nodes()) + [n] else old(Nodes())
      ensures sorted == (!ok && old(sorted))
    {
      if len == arr.Length {
        return false;
      }
      arr[len] := n;
      len := len + 1;
      sorted := false;
      return true;
    }
  }
}
