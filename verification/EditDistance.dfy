/**
 * The schema validator's edit distance: the two-row loop computes the least
 * cost of any edit script, and the least cost is a metric.
 */
module EditDistance {

  datatype Edit = Copy(c: char) | Replace(c: char, d: char) | Insert(d: char) | Delete(c: char)
  {
    function Reads(): string { if Insert? then "" else [c] }

    function Writes(): string { if Delete? then "" else if Copy? then [c] else [d] }

    function Price(): nat { if Copy? then 0 else 1 }
  }

  // A sequence of edits, the last one outermost.
  datatype Script = Done | More(before: Script, last: Edit)

  // The characters a script reads and writes, in order, and what it costs.
  ghost function Source(s: Script): string {
    match s case Done => "" case More(p, e) => Source(p) + e.Reads()
  }

  ghost function Target(s: Script): string {
    match s case Done => "" case More(p, e) => Target(p) + e.Writes()
  }

  ghost function Cost(s: Script): nat {
    match s case Done => 0 case More(p, e) => Cost(p) + e.Price()
  }

  ghost predicate Rewrites(s: Script, a: string, b: string) {
    Source(s) == a && Target(s) == b
  }

  /** d is the least cost of a script that turns a into b. */
  ghost predicate IsDistance(a: string, b: string, d: int) {
    && (exists s :: Rewrites(s, a, b) && Cost(s) == d)
    && (forall s :: Rewrites(s, a, b) ==> d <= Cost(s))
  }

  function Min3(x: int, y: int, z: int): int {
    if x <= y && x <= z then x else if y <= z then y else z
  }

  lemma SnocInjective(p: string, x: char, q: string, y: char)
    requires p + [x] == q + [y]
    ensures p == q && x == y
  {
    assert p == (p + [x])[..|p|] && q == (q + [y])[..|q|];
    assert x == (p + [x])[|p|] && y == (q + [y])[|q|];
  }

  lemma ExtendBest(e: Edit, a: string, b: string, d: int, a': string, b': string)
    requires IsDistance(a, b, d) && a' == a + e.Reads() && b' == b + e.Writes()
    ensures exists s :: Rewrites(s, a', b') && Cost(s) == d + e.Price()
  {
    var s :| Rewrites(s, a, b) && Cost(s) == d;
    assert Rewrites(More(s, e), a', b');
  }

  // The last edit of a script for two non-empty strings is one of the three the loop compares.
  lemma LastEdit(s: Script, a: string, x: char, b: string, y: char, del: int, ins: int, sub: int)
    requires Rewrites(s, a + [x], b + [y])
    requires IsDistance(a, b + [y], del) && IsDistance(a + [x], b, ins) && IsDistance(a, b, sub)
    ensures del + 1 <= Cost(s) || ins + 1 <= Cost(s) || sub + (if x != y then 1 else 0) <= Cost(s)
  {
    var p, e := s.before, s.last;
    if !e.Insert? {
      SnocInjective(Source(p), e.c, a, x);
    }
    if !e.Delete? {
      SnocInjective(Target(p), e.Writes()[0], b, y);
    }
    if e.Insert? {
      assert Rewrites(p, a + [x], b);
    } else if e.Delete? {
      assert Rewrites(p, a, b + [y]);
    } else {
      assert Rewrites(p, a, b);
    }
  }

  /** One cell of the table from its three neighbours. */
  lemma Cell(a: string, x: char, b: string, y: char, del: int, ins: int, sub: int)
    requires IsDistance(a, b + [y], del) && IsDistance(a + [x], b, ins) && IsDistance(a, b, sub)
    ensures IsDistance(a + [x], b + [y], Min3(del + 1, ins + 1, sub + (if x != y then 1 else 0)))
  {
    ExtendBest(Delete(x), a, b + [y], del, a + [x], b + [y]);
    ExtendBest(Insert(y), a + [x], b, ins, a + [x], b + [y]);
    ExtendBest(if x == y then Copy(x) else Replace(x, y), a, b, sub, a + [x], b + [y]);
    forall s | Rewrites(s, a + [x], b + [y])
      ensures Min3(del + 1, ins + 1, sub + (if x != y then 1 else 0)) <= Cost(s)
    {
      LastEdit(s, a, x, b, y, del, ins, sub);
    }
  }

  lemma {:induction false} LengthBound(s: Script)
    ensures |Target(s)| <= |Source(s)| + Cost(s)
  {
    if s.More? { LengthBound(s.before); }
  }

  lemma {:induction false} InsertAll(b: string) returns (s: Script)
    ensures Rewrites(s, "", b) && Cost(s) == |b|
  {
    if b == "" {
      s := Done;
    } else {
      s := InsertAll(b[..|b| - 1]);
      s := More(s, Insert(b[|b| - 1]));
    }
  }

  /** The first row and column: one edit per character. */
  lemma FromEmpty(b: string)
    ensures IsDistance("", b, |b|) && IsDistance(b, "", |b|)
  {
    var i := InsertAll(b);
    forall s | Rewrites(s, "", b) ensures |b| <= Cost(s) {
      LengthBound(s);
    }
    Symmetric("", b, |b|);
  }

  ghost function Flip(s: Script): Script {
    match s
    case Done => Done
    case More(p, Copy(c)) => More(Flip(p), Copy(c))
    case More(p, Replace(c, d)) => More(Flip(p), Replace(d, c))
    case More(p, Insert(d)) => More(Flip(p), Delete(d))
    case More(p, Delete(c)) => More(Flip(p), Insert(c))
  }

  lemma {:induction false} FlipReverses(s: Script)
    ensures Source(Flip(s)) == Target(s) && Target(Flip(s)) == Source(s) && Cost(Flip(s)) == Cost(s)
  {
    if s.More? { FlipReverses(s.before); }
  }

  /** The distance is symmetric, which is what lets the code swap its arguments. */
  lemma Symmetric(a: string, b: string, d: int)
    requires IsDistance(a, b, d)
    ensures IsDistance(b, a, d)
  {
    var s :| Rewrites(s, a, b) && Cost(s) == d;
    FlipReverses(s);
    assert Rewrites(Flip(s), b, a);
    forall t | Rewrites(t, b, a) ensures d <= Cost(t) {
      FlipReverses(t);
      assert Rewrites(Flip(t), a, b);
    }
  }

  lemma {:induction false} FreeIsCopy(s: Script)
    ensures Cost(s) == 0 ==> Source(s) == Target(s)
  {
    if s.More? { FreeIsCopy(s.before); }
  }

  lemma {:induction false} CopyAll(a: string) returns (s: Script)
    ensures Rewrites(s, a, a) && Cost(s) == 0
  {
    if a == "" {
      s := Done;
    } else {
      s := CopyAll(a[..|a| - 1]);
      s := More(s, Copy(a[|a| - 1]));
    }
  }

  /** Only equal strings are at distance zero. */
  lemma ZeroOnlyOnEqual(a: string, b: string, d: int)
    requires IsDistance(a, b, d)
    ensures d == 0 <==> a == b
  {
    if d == 0 {
      var s :| Rewrites(s, a, b) && Cost(s) == d;
      FreeIsCopy(s);
    }
    if a == b {
      var s := CopyAll(a);
    }
  }

  // An edit of p that writes a character, fused with the edit of q that reads it.
  ghost function Fuse(r: Script, e: Edit, f: Edit): Script
    requires !e.Delete? && !f.Insert?
  {
    match (e, f)
    case (Copy(_), _) => More(r, f)
    case (_, Copy(_)) => More(r, e)
    case (Replace(c, _), Replace(_, d)) => More(r, Replace(c, d))
    case (Replace(c, _), Delete(_)) => More(r, Delete(c))
    case (Insert(_), Replace(_, d)) => More(r, Insert(d))
    case (Insert(_), Delete(_)) => r
  }

  // A script that does p and then q.
  lemma {:induction false} Compose(p: Script, q: Script) returns (r: Script)
    requires Target(p) == Source(q)
    ensures Rewrites(r, Source(p), Target(q)) && Cost(r) <= Cost(p) + Cost(q)
  {
    if p.More? && p.last.Delete? {
      r := Compose(p.before, q);
      r := More(r, p.last);
    } else if q.More? && q.last.Insert? {
      r := Compose(p, q.before);
      r := More(r, q.last);
    } else if p.Done? || q.Done? {
      r := Done;
    } else {
      SnocInjective(Target(p.before), p.last.Writes()[0], Source(q.before), q.last.c);
      r := Compose(p.before, q.before);
      r := Fuse(r, p.last, q.last);
    }
  }

  lemma Triangle(a: string, b: string, c: string, ab: int, bc: int, ac: int)
    requires IsDistance(a, b, ab) && IsDistance(b, c, bc) && IsDistance(a, c, ac)
    ensures ac <= ab + bc
  {
    var p :| Rewrites(p, a, b) && Cost(p) == ab;
    var q :| Rewrites(q, b, c) && Cost(q) == bc;
    var r := Compose(p, q);
  }

  // Cells 0 to n of row i: distances between prefixes.
  ghost predicate IsRow(s1: string, s2: string, i: nat, row: seq<nat>, n: nat) {
    && i <= |s1| && n <= |s2| && |row| == n + 1
    && forall j :: 0 <= j <= n ==> IsDistance(s1[..i], s2[..j], row[j])
  }

  lemma RowGrows(s1: string, s2: string, i: nat, previous: seq<nat>, current: seq<nat>, j: nat)
    requires i < |s1| && j < |s2|
    requires IsRow(s1, s2, i, previous, |s2|) && IsRow(s1, s2, i + 1, current, j)
    ensures var cell := Min3(previous[j + 1] + 1, current[j] + 1, previous[j] + (if s1[i] != s2[j] then 1 else 0));
            IsRow(s1, s2, i + 1, current + [cell], j + 1)
  {
    var cell := Min3(previous[j + 1] + 1, current[j] + 1, previous[j] + (if s1[i] != s2[j] then 1 else 0));
    assert IsDistance(s1[..i + 1], s2[..j + 1], cell) by {
      assert IsDistance(s1[..i], s2[..j + 1], previous[j + 1]);
      assert IsDistance(s1[..i + 1], s2[..j], current[j]);
      assert s1[..i + 1] == s1[..i] + [s1[i]] && s2[..j + 1] == s2[..j] + [s2[j]];
      Cell(s1[..i], s1[i], s2[..j], s2[j], previous[j + 1], current[j], previous[j]);
    }
    forall k | 0 <= k <= j + 1 ensures IsDistance(s1[..i + 1], s2[..k], (current + [cell])[k]) {
      if k <= j {
        assert IsDistance(s1[..i + 1], s2[..k], current[k]);
      }
    }
  }

  lemma RowStarts(s1: string, s2: string, i: nat)
    requires i <= |s1|
    ensures IsRow(s1, s2, i, [i], 0)
  {
    FromEmpty(s1[..i]);
    assert s2[..0] == "";
  }

  method NextRow(s1: string, s2: string, i: nat, previous: seq<nat>) returns (current: seq<nat>)
    requires i < |s1| && IsRow(s1, s2, i, previous, |s2|)
    ensures IsRow(s1, s2, i + 1, current, |s2|)
  {
    current := [i + 1];
    RowStarts(s1, s2, i + 1);
    for j := 0 to |s2|
      invariant IsRow(s1, s2, i + 1, current, j)
    {
      var insertions := previous[j + 1] + 1;
      var deletions := current[j] + 1;
      var substitutions := previous[j] + (if s1[i] != s2[j] then 1 else 0);
      RowGrows(s1, s2, i, previous, current, j);
      current := current + [Min3(insertions, deletions, substitutions)];
    }
  }

  method FirstRow(s1: string, s2: string) returns (row: seq<nat>)
    ensures IsRow(s1, s2, 0, row, |s2|)
  {
    row := seq(|s2| + 1, i => i);
    forall j | 0 <= j <= |s2| ensures IsDistance(s1[..0], s2[..j], row[j]) {
      assert s1[..0] == "";
      FromEmpty(s2[..j]);
    }
  }

  /** The two-row loop, with the swap that keeps the shorter string inside. */
  method LevenshteinDistance(s1: string, s2: string) returns (d: nat)
    ensures IsDistance(s1, s2, d)
    decreases |s1| < |s2|
  {
    if |s1| < |s2| {
      d := LevenshteinDistance(s2, s1);
      Symmetric(s2, s1, d);
      return;
    }
    if |s2| == 0 {
      FromEmpty(s1);
      return |s1|;
    }
    var previous := FirstRow(s1, s2);
    for i := 0 to |s1|
      invariant IsRow(s1, s2, i, previous, |s2|)
    {
      previous := NextRow(s1, s2, i, previous);
    }
    assert s1[..|s1|] == s1 && s2[..|s2|] == s2;
    return previous[|previous| - 1];
  }
}
