/**
 * The remote terminal session table: a fixed array of child processes,
 * compacted in place when a child has exited, with the oldest one evicted when
 * the table is full.
 */
module Rtty {

  const MAX: nat := 10

  function Survivors(s: seq<int>, gone: set<int>): seq<int> {
    if s == [] then [] else (if s[0] in gone then [] else [s[0]]) + Survivors(s[1..], gone)
  }

  // One call: the children in `gone` have exited, `pid` is what fork returns.
  datatype Call = Call(gone: set<int>, pid: int)

  /** Sessions after a call: reap, evict the oldest of ten, append the new one. */
  function AfterCall(s: seq<int>, c: Call): seq<int> {
    var alive := Survivors(s, c.gone);
    (if |alive| == MAX then alive[1..] else alive) + (if c.pid > 0 then [c.pid] else [])
  }

  class Table {
    const child: array<int>
    ghost var sessions: seq<int>

    // A hole-free prefix of live sessions.
    ghost predicate Valid()
      reads this, child
    {
      && child.Length == MAX && |sessions| <= MAX
      && Laid(child[..], sessions)
    }

    constructor ()
      ensures Valid() && sessions == [] && fresh(child)
    {
      child := new int[MAX](_ => 0);
      sessions := [];
    }

    // Close the gap at i; the last slot becomes empty.
    method Shift(i: nat)
      requires i < child.Length
      modifies child
      ensures child[..] == old(child[..i]) + old(child[i + 1..]) + [-1]
    {
      forall j | i <= j < child.Length - 1 {
        child[j] := child[j + 1];
      }
      child[child.Length - 1] := -1;
    }

    /** Exited children leave the table; the others keep their order. */
    method Reap(gone: set<int>)
      requires Valid()
      modifies this`sessions, child
      ensures Valid() && sessions == Survivors(old(sessions), gone)
    {
      ghost var kept, todo, goal := [], sessions, Survivors(sessions, gone);
      assert [] + todo == todo;
      var i := 0;
      while i < MAX
        invariant i <= MAX && Reaping(child[..], i, kept, todo, gone, goal)
        decreases |kept| + |todo|, MAX - i
      {
        if child[i] > 0 && child[i] in gone {
          DropStep(child[..], i, kept, todo, gone, goal);
          Shift(i);
          todo := todo[1..];
        } else {
          KeepStep(child[..], i, kept, todo, gone, goal);
          if todo != [] {
            kept, todo := kept + [todo[0]], todo[1..];
          }
          i := i + 1;
        }
      }
      sessions := kept;
      assert kept + [] == kept;
    }

    method FreeSlot() returns (i: nat)
      requires Valid()
      ensures i == |sessions|
    {
      i := 0;
      while i < MAX && child[i] > 0
        invariant i <= |sessions|
      {
        assert child[..][i] == child[i];
        i := i + 1;
      }
    }

    // The oldest session is killed and forgotten, even if the kill fails.
    method Evict()
      requires Valid() && |sessions| == MAX
      modifies this`sessions, child
      ensures Valid() && sessions == old(sessions)[1..]
    {
      ghost var a := child[..];
      assert [] + sessions == sessions && [] + sessions[1..] == sessions[1..];
      ReapOne(a, [], sessions);
      Shift(0);
      assert a[..0] + a[1..] + [-1] == child[..];
      sessions := sessions[1..];
    }

    /**
     * One call. Eviction happens only when ten are live and takes the oldest;
     * a failed fork adds nothing.
     */
    method Start(c: Call) returns (ok: bool)
      requires Valid()
      modifies this`sessions, child
      ensures Valid() && sessions == AfterCall(old(sessions), c) && ok == (c.pid > 0)
    {
      Reap(c.gone);
      var i := FreeSlot();
      if i == MAX {
        Evict();
        i := MAX - 1;
      }
      PlaceNew(child[..], sessions, c.pid);
      child[i] := if c.pid > 0 then c.pid else -1;
      sessions := sessions + (if c.pid > 0 then [c.pid] else []);
      return c.pid > 0;
    }
  }

  // a starts with the sessions and holds none after them.
  ghost predicate Laid(a: seq<int>, s: seq<int>) {
    && |s| <= |a| && a[..|s|] == s
    && (forall i :: 0 <= i < |s| ==> s[i] > 0)
    && (forall i :: |s| <= i < |a| ==> a[i] <= 0)
  }

  lemma ReapOne(a: seq<int>, kept: seq<int>, todo: seq<int>)
    requires todo != [] && Laid(a, kept + todo)
    ensures Laid(a[..|kept|] + a[|kept| + 1..] + [-1], kept + todo[1..])
  {
    var n, s, b := |kept|, kept + todo, a[..|kept|] + a[|kept| + 1..] + [-1];
    var t := kept + todo[1..];
    forall i | 0 <= i < |t| ensures b[i] == t[i] && t[i] > 0 {
      assert if i < n then b[i] == a[i] == s[i] else b[i] == a[i + 1] == s[i + 1];
    }
    assert b[..|t|] == t;
  }

  // Everything before i is settled: kept or dropped; the rest is still to do.
  ghost predicate Reaping(a: seq<int>, i: nat, kept: seq<int>, todo: seq<int>, gone: set<int>, goal: seq<int>) {
    && |a| == MAX && Laid(a, kept + todo)
    && (if todo == [] then |kept| <= i else i == |kept|)
    && kept + Survivors(todo, gone) == goal
  }

  lemma DropStep(a: seq<int>, i: nat, kept: seq<int>, todo: seq<int>, gone: set<int>, goal: seq<int>)
    requires Reaping(a, i, kept, todo, gone, goal) && i < |a| && a[i] > 0 && a[i] in gone
    ensures todo != [] && Reaping(a[..i] + a[i + 1..] + [-1], i, kept, todo[1..], gone, goal)
  {
    assert a[i] == (kept + todo)[i] == todo[0];
    ReapOne(a, kept, todo);
    assert [] + Survivors(todo[1..], gone) == Survivors(todo[1..], gone);
  }

  lemma KeepStep(a: seq<int>, i: nat, kept: seq<int>, todo: seq<int>, gone: set<int>, goal: seq<int>)
    requires Reaping(a, i, kept, todo, gone, goal) && i < |a| && !(a[i] > 0 && a[i] in gone)
    ensures if todo == [] then Reaping(a, i + 1, kept, todo, gone, goal)
            else Reaping(a, i + 1, kept + [todo[0]], todo[1..], gone, goal)
  {
    if todo != [] {
      assert a[i] == (kept + todo)[i] == todo[0];
      assert (kept + [todo[0]]) + todo[1..] == kept + todo;
      var rest := Survivors(todo[1..], gone);
      assert (kept + [todo[0]]) + rest == kept + ([todo[0]] + rest);
    }
  }

  lemma PlaceNew(a: seq<int>, s: seq<int>, pid: int)
    requires Laid(a, s) && |s| < |a|
    ensures Laid(a[|s| := if pid > 0 then pid else -1], s + (if pid > 0 then [pid] else []))
  {
    var b, t := a[|s| := if pid > 0 then pid else -1], s + (if pid > 0 then [pid] else []);
    assert b[..|t|] == t;
  }

  // ----- whole runs

  // The table after the first n calls.
  function Run(cs: seq<Call>, n: nat): seq<int>
    requires n <= |cs|
  {
    if n == 0 then [] else AfterCall(Run(cs, n - 1), cs[n - 1])
  }

  // A session and the call that started it.
  datatype Session = Session(born: nat, pid: int)

  function Pids(s: seq<Session>): seq<int> {
    seq(|s|, j requires 0 <= j < |s| => s[j].pid)
  }

  function Left(s: seq<Session>, gone: set<int>): seq<Session> {
    if s == [] then [] else (if s[0].pid in gone then [] else [s[0]]) + Left(s[1..], gone)
  }

  // What call n makes of the sessions left: one evicted from ten, one added.
  function Close(alive: seq<Session>, c: Call, n: nat): seq<Session> {
    (if |alive| == MAX then alive[1..] else alive) + (if c.pid > 0 then [Session(n, c.pid)] else [])
  }

  function Advance(s: seq<Session>, c: Call, n: nat): seq<Session> { Close(Left(s, c.gone), c, n) }

  // The same table with its starting calls.
  function Live(cs: seq<Call>, n: nat): seq<Session>
    requires n <= |cs|
  {
    if n == 0 then [] else Advance(Live(cs, n - 1), cs[n - 1], n - 1)
  }

  lemma {:induction false} PidsLeft(s: seq<Session>, gone: set<int>)
    ensures Pids(Left(s, gone)) == Survivors(Pids(s), gone)
  {
    if s != [] {
      PidsLeft(s[1..], gone);
      assert Pids(s)[1..] == Pids(s[1..]);
      var head := if s[0].pid in gone then [] else [s[0]];
      assert Pids(head + Left(s[1..], gone)) == Pids(head) + Pids(Left(s[1..], gone));
    }
  }

  lemma AdvancePids(s: seq<Session>, c: Call, n: nat)
    ensures Pids(Advance(s, c, n)) == AfterCall(Pids(s), c)
  {
    PidsLeft(s, c.gone);
    var alive := Left(s, c.gone);
    var kept := if |alive| == MAX then alive[1..] else alive;
    var more := if c.pid > 0 then [Session(n, c.pid)] else [];
    assert |alive| == MAX ==> Pids(alive[1..]) == Pids(alive)[1..];
    assert Pids(kept + more) == Pids(kept) + Pids(more);
  }

  ghost predicate InOrder(s: seq<Session>) {
    forall j, k :: 0 <= j < k < |s| ==> s[j].born < s[k].born
  }

  lemma {:induction false} LeftKeeps(s: seq<Session>, gone: set<int>)
    requires InOrder(s)
    ensures InOrder(Left(s, gone)) && |Left(s, gone)| <= |s|
    ensures forall x :: x in Left(s, gone) <==> x in s && x.pid !in gone
  {
    if s != [] {
      LeftKeeps(s[1..], gone);
      var l := Left(s[1..], gone);
      forall j | 0 <= j < |l| ensures s[0].born < l[j].born {
        assert l[j] in l;
      }
      assert s == [s[0]] + s[1..];
    }
  }

  // One of the first n calls started the session and no later one of them has seen it exit.
  ghost predicate Unreaped(cs: seq<Call>, n: nat, x: Session)
    requires n <= |cs|
  {
    && x.born < n && cs[x.born].pid == x.pid > 0
    && forall m :: x.born < m < n ==> x.pid !in cs[m].gone
  }

  // Sessions started by calls lo to hi - 1.
  function Starts(cs: seq<Call>, lo: nat, hi: nat): nat
    requires hi <= |cs|
  {
    if hi <= lo then 0 else Starts(cs, lo, hi - 1) + if cs[hi - 1].pid > 0 then 1 else 0
  }

  // Sessions in order cannot outnumber the calls that started them.
  lemma {:induction false} InOrderFits(cs: seq<Call>, s: seq<Session>, lo: nat, hi: nat)
    requires InOrder(s) && hi <= |cs|
    requires forall j :: 0 <= j < |s| ==> lo <= s[j].born < hi && cs[s[j].born].pid > 0
    ensures |s| <= Starts(cs, lo, hi)
    decreases hi
  {
    if s != [] {
      var n := |s| - 1;
      if s[n].born == hi - 1 {
        InOrderFits(cs, s[..n], lo, hi - 1);
      } else {
        InOrderFits(cs, s, lo, hi - 1);
      }
    }
  }

  lemma CloseKeeps(alive: seq<Session>, c: Call, n: nat, t: seq<Session>)
    requires InOrder(alive) && |alive| <= MAX && (forall x :: x in alive ==> x.born < n) && t == Close(alive, c, n)
    ensures InOrder(t) && |t| <= MAX
    ensures forall x :: x in t ==> x in alive || (x == Session(n, c.pid) && c.pid > 0)
  {
    forall j | 0 <= j < |alive| ensures alive[j].born < n {
      assert alive[j] in alive;
    }
  }

  // What holds of the table after n calls.
  ghost predicate Sound(cs: seq<Call>, n: nat, s: seq<Session>)
    requires n <= |cs|
  {
    |s| <= MAX && InOrder(s) && forall x :: x in s ==> Unreaped(cs, n, x)
  }

  lemma SoundSteps(cs: seq<Call>, n: nat, prev: seq<Session>, alive: seq<Session>)
    requires n < |cs| && Sound(cs, n, prev) && alive == Left(prev, cs[n].gone)
    ensures InOrder(alive) && |alive| <= MAX && (forall x :: x in alive <==> x in prev && x.pid !in cs[n].gone)
    ensures forall x :: x in alive ==> Unreaped(cs, n + 1, x)
  {
    LeftKeeps(prev, cs[n].gone);
  }

  lemma SoundCloses(cs: seq<Call>, n: nat, alive: seq<Session>, s: seq<Session>)
    requires n < |cs| && InOrder(alive) && |alive| <= MAX && s == Close(alive, cs[n], n)
    requires forall x :: x in alive ==> Unreaped(cs, n + 1, x) && x.born < n
    ensures Sound(cs, n + 1, s)
  {
    CloseKeeps(alive, cs[n], n, s);
  }

  lemma {:induction false} LiveIsSound(cs: seq<Call>, n: nat, s: seq<Session>)
    requires n <= |cs| && s == Live(cs, n)
    ensures Sound(cs, n, s)
  {
    if n > 0 {
      var prev := Live(cs, n - 1);
      LiveIsSound(cs, n - 1, prev);
      var alive := Left(prev, cs[n - 1].gone);
      SoundSteps(cs, n - 1, prev, alive);
      SoundCloses(cs, n - 1, alive, s);
    }
  }

  lemma {:induction false} LiveIsRun(cs: seq<Call>, n: nat)
    requires n <= |cs|
    ensures Pids(Live(cs, n)) == Run(cs, n)
  {
    if n > 0 {
      LiveIsRun(cs, n - 1);
      AdvancePids(Live(cs, n - 1), cs[n - 1], n - 1);
    }
  }

  /**
   * After any number of calls the table holds at most ten sessions, oldest
   * first, each started by a call and not seen to exit by any call since.
   */
  lemma EveryRun(cs: seq<Call>, n: nat, s: seq<Session>)
    requires n <= |cs| && s == Live(cs, n)
    ensures Pids(s) == Run(cs, n) && |s| <= 10 && InOrder(s)
    ensures forall x :: x in s ==> Unreaped(cs, n, x)
  {
    LiveIsRun(cs, n);
    LiveIsSound(cs, n, s);
  }

  // The oldest of ten has nine younger ones beside it.
  lemma OldestOfTen(cs: seq<Call>, n: nat, alive: seq<Session>)
    requires n <= |cs| && InOrder(alive) && |alive| == MAX
    requires forall x :: x in alive ==> x.born < n && cs[x.born].pid > 0
    ensures Starts(cs, alive[0].born + 1, n) >= MAX - 1
  {
    forall j | 0 <= j < |alive| ensures alive[j].born < n && cs[alive[j].born].pid > 0 {
      assert alive[j] in alive;
    }
    InOrderFits(cs, alive[1..], alive[0].born + 1, n);
  }

  lemma CloseRetains(alive: seq<Session>, c: Call, n: nat, x: Session)
    requires x in alive && (|alive| == MAX ==> x != alive[0])
    ensures x in Close(alive, c, n)
  {
    if |alive| == MAX {
      assert alive == [alive[0]] + alive[1..];
    }
  }

  // A session with few after it is not the oldest of ten.
  lemma NotOldest(cs: seq<Call>, n: nat, alive: seq<Session>, x: Session)
    requires n < |cs| && InOrder(alive) && (forall y :: y in alive ==> y.born < n && Unreaped(cs, n + 1, y))
    requires Starts(cs, x.born + 1, n) < MAX - 1
    ensures |alive| == MAX ==> x != alive[0]
  {
    if |alive| == MAX {
      OldestOfTen(cs, n, alive);
    }
  }

  // One call drops no session that has not exited and has few after it.
  lemma StepRetains(cs: seq<Call>, n: nat, prev: seq<Session>, alive: seq<Session>, x: Session)
    requires n < |cs| && Sound(cs, n, prev) && alive == Left(prev, cs[n].gone)
    requires x in prev && x.pid !in cs[n].gone && Starts(cs, x.born + 1, n) < MAX - 1
    ensures x in Close(alive, cs[n], n)
  {
    SoundSteps(cs, n, prev, alive);
    NotOldest(cs, n, alive, x);
    CloseRetains(alive, cs[n], n, x);
  }

  /**
   * Nothing else is dropped: a session that no call has seen exit is still
   * there unless nine others were started between it and the last call.
   */
  lemma {:induction false} Retained(cs: seq<Call>, n: nat, x: Session, s: seq<Session>)
    requires n <= |cs| && Unreaped(cs, n, x) && Starts(cs, x.born + 1, n - 1) < 9 && s == Live(cs, n)
    ensures x in s
    decreases n
  {
    if x.born < n - 1 {
      var prev := Live(cs, n - 1);
      Retained(cs, n - 1, x, prev);
      LiveIsSound(cs, n - 1, prev);
      StepRetains(cs, n - 1, prev, Left(prev, cs[n - 1].gone), x);
    }
  }

  /** A fork that fails at a full table evicts a session that has not exited, and adds none. */
  lemma FailedForkEvicts(cs: seq<Call>, n: nat) returns (x: Session)
    requires n < |cs| && |Left(Live(cs, n), cs[n].gone)| == MAX && cs[n].pid <= 0
    ensures x in Live(cs, n) && Unreaped(cs, n + 1, x) && x !in Live(cs, n + 1) && |Live(cs, n + 1)| == MAX - 1
  {
    var prev := Live(cs, n);
    var alive := Left(prev, cs[n].gone);
    LiveIsSound(cs, n, prev);
    SoundSteps(cs, n, prev, alive);
    x := alive[0];
    assert x in alive;
    assert Close(alive, cs[n], n) == alive[1..];
  }
}
