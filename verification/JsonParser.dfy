/**
 * The parser object: the callback that updates the builder's fields in place,
 * and the feed loop that offers the input to the lexer one byte at a time and
 * resynchronises after an error.
 */
module JsonParser {
  import opened Options
  import opened JsonBuilder
  import opened JsonStream

  // What the lexer does with one byte: the events it reports and its verdict.
  datatype Verdict = Verdict(events: seq<Event>, rc: Rc)
  datatype Rc = Continue | Done | Error

  class Parser {
    var pool: seq<Node>
    var stack: array<Option<nat>>
    var sp: int
    var root: Option<nat>
    var name: string
    var str: string
    var started: bool
    var delivered: seq<Json>
    var errors: nat
    var stray: bool
    var isContinue: bool

    ghost function St(): State
      reads this, stack
    {
      State(pool, stack[..], sp, root, name, str, started, delivered, errors, stray)
    }

    ghost predicate Valid()
      reads this, stack
    {
      Sane(St())
    }

    constructor (maxDepth: nat)
      requires maxDepth > 0
      ensures Valid() && fresh(stack) && stack.Length == maxDepth && IsClean(St())
      ensures delivered == [] && errors == 0 && !isContinue && !stray
    {
      pool, sp, root, name, str := [], 0, None, "", "";
      started, stray := false, false;
      delivered, errors, isContinue := [], 0, false;
      stack := new Option<nat>[maxDepth](_ => None);
    }

    method Cleanup()
      modifies this`sp, this`str, this`started, this`pool, this`root
      ensures St() == Clean(old(St()))
    {
      sp := 0;
      str := "";
      started := false;
      pool := [];
      root := None;
    }

    // Link the new node under its parent and record the first one as the root.
    method Link(parent: Option<nat>, n: Node)
      requires parent.Some? ==> parent.value < |pool| && pool[parent.value].Branch?
      modifies this`pool, this`root
      ensures St() == Attach(old(St()), parent, n).st
    {
      var id := |pool|;
      pool := Hang(pool + [n], parent, name, id);
      if root.None? {
        root := Some(id);
      }
    }

    method OnString(e: Event)
      requires Valid() && (e.StrStart? || e.StrChunk? || e.StrEnd?)
      modifies this`str, this`started, this`stray, this`pool, this`root
      ensures Result(St(), 0) == Step(old(St()), e)
    {
      if e.StrStart? {
        str, started := "", true;
        return;
      }
      stray := stray || !started;
      str := str + e.part;
      if e.StrEnd? {
        var text := CString(str);
        str, started := "", false;
        Link(stack[sp], Leaf(Str(text)));
      }
    }

    method OnNesting(e: Event) returns (ret: int)
      requires Valid() && (e.Open? || e.Close?)
      modifies this`sp, this`str, this`started, this`pool, this`root, stack
      ensures Result(St(), ret) == Step(old(St()), e)
    {
      ret := 0;
      if e.Close? {
        sp := sp - 1;
        if sp < 0 {
          Cleanup();
          ret := -1;
        }
      } else if sp + 1 >= stack.Length {
        Cleanup();
        ret := -1;
      } else {
        var parent := stack[sp];
        sp := sp + 1;
        stack[sp] := Some(|pool|);
        Link(parent, Branch(e.isObject, NoKids));
      }
    }

    /** The callback does one step of the builder. */
    method Callback(e: Event) returns (ret: int)
      requires Valid()
      modifies this, stack
      ensures Valid() && stack == old(stack) && isContinue == old(isContinue)
      ensures Result(St(), ret) == Step(old(St()), e)
    {
      StepSane(St(), e);
      ret := 0;
      match e {
        case Scalar(l) => Link(stack[sp], Leaf(Atom(l)));
        case BadNumber => Cleanup(); ret := -1;
        case StrStart => OnString(e);
        case StrChunk(_) => OnString(e);
        case StrEnd(_) => OnString(e);
        case Open(_) => ret := OnNesting(e);
        case Close => ret := OnNesting(e);
        case PairName(n) => name := CString(n);
        case Complete =>
          if root.Some? {
            delivered := delivered + [Tree(pool, root.value)];
          }
          Cleanup();
        case Failed =>
          errors := errors + 1;
          Cleanup();
          ret := -1;
        case Destructed => Cleanup();
        case Constructed =>
      }
    }

    method Deliver(es: seq<Event>) returns (ret: int)
      requires Valid()
      modifies this, stack
      ensures Valid() && stack == old(stack) && isContinue == old(isContinue)
      ensures Result(St(), ret) == Run(old(St()), es)
      decreases es
    {
      ret := 0;
      if es != [] {
        ret := Callback(es[0]);
        if ret == 0 {
          ret := Deliver(es[1..]);
        }
      }
    }

    /**
     * Whatever the lexer answers, every byte is offered in order, at least
     * once and at most twice; a byte is offered again exactly after an error
     * that interrupts a parse under way; an answer other than `Continue`
     * leaves the builder clean; and the builder goes through exactly the
     * states that the offers made lead to.
     */
    method Feed(len: nat, verdicts: seq<Verdict>) returns (offers: seq<nat>, ghost sts: seq<State>)
      requires Valid() && |verdicts| >= 2 * len
      modifies this, stack
      ensures Valid() && stack == old(stack)
      ensures len <= |offers| <= 2 * len && Trail(offers, verdicts, old(isContinue))
      ensures len > 0 ==> offers[|offers| - 1] == len - 1
      ensures len > 0 && verdicts[|offers| - 1].rc != Continue ==> IsClean(St()) && !isContinue
      ensures (forall k :: 0 <= k < len ==> verdicts[k].rc != Error) ==> |offers| == len
      ensures |sts| == |offers| + 1 && Chained(sts, verdicts) && sts[0] == old(St()) && sts[|offers|] == St()
    {
      ghost var c0 := isContinue;
      offers, sts := FeedLoop(len, verdicts);
      FeedEnds(len, verdicts, c0, offers);
      LastIsClean(sts, verdicts);
    }

    method FeedLoop(len: nat, verdicts: seq<Verdict>) returns (offers: seq<nat>, ghost sts: seq<State>)
      requires Valid() && |verdicts| >= 2 * len
      modifies this, stack
      ensures Valid() && stack == old(stack) && |offers| <= |verdicts|
      ensures offers == Offers(len, verdicts, 0, 0, old(isContinue))
      ensures isContinue == UnderWay(verdicts, |offers|, old(isContinue))
      ensures |sts| == |offers| + 1 && Chained(sts, verdicts) && sts[0] == old(St()) && sts[|offers|] == St()
    {
      offers, sts := [], [St()];
      var i := 0;
      ghost var c0, again := isContinue, false;
      GoingStarts(len, verdicts, c0);
      while i < len
        invariant Valid() && stack == old(stack) && Going(len, verdicts, c0, offers, i, isContinue, again)
        invariant |sts| == |offers| + 1 && Chained(sts, verdicts) && sts[0] == old(St()) && sts[|offers|] == St()
        decreases len - i, isContinue
      {
        GoingStep(len, verdicts, c0, offers, i, isContinue, again);
        var next;
        next, sts := Offer(verdicts[|offers|], sts, verdicts);
        offers := offers + [i];
        again := !next;
        if next {
          i := i + 1;
        }
      }
      GoingEnds(len, verdicts, c0, offers, isContinue, again);
    }

    // One call of the lexer, and the restart after anything but `Continue`.
    method Offer(v: Verdict, ghost sts: seq<State>, ghost vs: seq<Verdict>) returns (next: bool, ghost more: seq<State>)
      requires Valid() && 0 < |sts| <= |vs| && Chained(sts, vs) && sts[|sts| - 1] == St() && v == vs[|sts| - 1]
      modifies this, stack
      ensures Valid() && stack == old(stack)
      ensures isContinue == (v.rc == Continue)
      ensures next == (v.rc != Error || !old(isContinue))
      ensures more == sts + [St()] && Chained(more, vs)
    {
      next := Ask(v);
      more := ChainGrows(sts, vs, St());
    }

    // The lexer reports its events, and a failure when it gives up.
    method Ask(v: Verdict) returns (next: bool)
      requires Valid()
      modifies this, stack
      ensures Valid() && stack == old(stack)
      ensures isContinue == (v.rc == Continue)
      ensures next == (v.rc != Error || !old(isContinue))
      ensures IsOffer(old(St()), v, St())
    {
      var _ := Deliver(v.events);
      if v.rc == Continue {
        isContinue := true;
        return true;
      }
      Restart(v.rc == Error);
      next := v.rc == Done || !isContinue;
      isContinue := false;
    }

    method Restart(failed: bool)
      requires Valid()
      modifies this, stack
      ensures Valid() && stack == old(stack) && isContinue == old(isContinue)
      ensures St() == Clean(if failed then old(St()).(errors := old(errors) + 1) else old(St()))
    {
      if failed {
        var _ := Callback(Failed);
      }
      var _ := Callback(Destructed);
      var _ := Callback(Constructed);
    }
  }

  // The byte at i has been offered already.
  ghost predicate Again(offers: seq<nat>, i: nat) { offers != [] && offers[|offers| - 1] == i }

  // A parse was under way when the k-th offer was made.
  ghost predicate UnderWay(verdicts: seq<Verdict>, k: nat, c0: bool)
    requires k <= |verdicts|
  {
    if k == 0 then c0 else verdicts[k - 1].rc == Continue
  }

  ghost predicate Repeats(verdicts: seq<Verdict>, k: nat, c0: bool)
    requires k < |verdicts|
  {
    verdicts[k].rc == Error && UnderWay(verdicts, k, c0)
  }

  // The k-th offer is followed by the same byte exactly after an error that
  // interrupted a parse, else by the next; no byte comes a third time.
  ghost predicate InStep(offers: seq<nat>, verdicts: seq<Verdict>, c0: bool, k: nat)
    requires k + 1 < |offers| <= |verdicts|
  {
    && offers[k + 1] == offers[k] + (if Repeats(verdicts, k, c0) then 0 else 1)
    && (k + 2 < |offers| ==> offers[k] < offers[k + 2])
  }

  // Bytes are offered in order from the first.
  ghost predicate Trail(offers: seq<nat>, verdicts: seq<Verdict>, c0: bool) {
    && |offers| <= |verdicts|
    && (offers != [] ==> offers[0] == 0)
    && forall k: nat :: k + 1 < |offers| ==> InStep(offers, verdicts, c0, k)
  }

  // The loop is about to offer byte i.
  ghost predicate Reached(offers: seq<nat>, verdicts: seq<Verdict>, c0: bool, i: nat) {
    var n := |offers|;
    && i <= n <= |verdicts| && n <= 2 * i + (if Again(offers, i) then 1 else 0)
    && (n == 0 ==> i == 0)
    && (n > 0 ==> i == offers[n - 1] + (if Repeats(verdicts, n - 1, c0) then 0 else 1))
    && (n > 1 ==> offers[n - 2] < i)
  }

  lemma TrailGrows(offers: seq<nat>, verdicts: seq<Verdict>, c0: bool, i: nat)
    requires Trail(offers, verdicts, c0) && Reached(offers, verdicts, c0, i) && |offers| < |verdicts|
    ensures Trail(offers + [i], verdicts, c0)
    ensures Reached(offers + [i], verdicts, c0, if Repeats(verdicts, |offers|, c0) then i else i + 1)
  {
    var n, r := |offers|, offers + [i];
    forall k: nat | k + 1 < |r| ensures InStep(r, verdicts, c0, k) {
      if k + 1 < n { assert InStep(offers, verdicts, c0, k); }
    }
    assert n > 1 ==> InStep(r, verdicts, c0, n - 2);
  }

  // The offers from the k-th on: byte i is next, and `cont` says a parse is under way.
  function Offers(len: nat, vs: seq<Verdict>, k: nat, i: nat, cont: bool): seq<nat>
    decreases |vs| - k
  {
    if i >= len || k >= |vs| then []
    else [i] + Offers(len, vs, k + 1, if vs[k].rc == Error && cont then i else i + 1, vs[k].rc == Continue)
  }

  // The loop has made these offers and is about to offer byte i, again or for the first time.
  ghost predicate Going(len: nat, vs: seq<Verdict>, c0: bool, offers: seq<nat>, i: nat, cont: bool, again: bool) {
    && |vs| >= 2 * len && i <= len && |offers| <= 2 * i + (if again then 1 else 0)
    && (again ==> i < len && !cont) && cont == UnderWay(vs, |offers|, c0)
    && offers + Offers(len, vs, |offers|, i, cont) == Offers(len, vs, 0, 0, c0)
  }

  lemma GoingStarts(len: nat, vs: seq<Verdict>, c0: bool)
    requires |vs| >= 2 * len
    ensures Going(len, vs, c0, [], 0, c0, false)
  {
    var all := Offers(len, vs, 0, 0, c0);
    assert [] + all == all;
  }

  lemma GoingStep(len: nat, vs: seq<Verdict>, c0: bool, offers: seq<nat>, i: nat, cont: bool, again: bool)
    requires i < len && Going(len, vs, c0, offers, i, cont, again)
    ensures |offers| < |vs|
    ensures var v := vs[|offers|];
            var stays := v.rc == Error && cont;
            Going(len, vs, c0, offers + [i], if stays then i else i + 1, v.rc == Continue, stays)
  {
    var v := vs[|offers|];
    var rest := Offers(len, vs, |offers| + 1, if v.rc == Error && cont then i else i + 1, v.rc == Continue);
    assert offers + ([i] + rest) == (offers + [i]) + rest;
  }

  lemma GoingEnds(len: nat, vs: seq<Verdict>, c0: bool, offers: seq<nat>, cont: bool, again: bool)
    requires Going(len, vs, c0, offers, len, cont, again)
    ensures offers == Offers(len, vs, 0, 0, c0) && |offers| <= |vs| && cont == UnderWay(vs, |offers|, c0)
  {
    assert offers + [] == offers;
  }

  lemma FeedEnds(len: nat, vs: seq<Verdict>, c0: bool, offers: seq<nat>)
    requires |vs| >= 2 * len && offers == Offers(len, vs, 0, 0, c0) && |offers| <= |vs|
    ensures len <= |offers| <= 2 * len && Trail(offers, vs, c0) && (len > 0 ==> offers[|offers| - 1] == len - 1)
    ensures (forall k :: 0 <= k < len ==> vs[k].rc != Error) ==> |offers| == len
  {
    assert [] + offers == offers;
    OffersTrail(len, vs, c0, [], 0, offers);
    if forall k :: 0 <= k < len ==> vs[k].rc != Error {
      OffersCount(len, vs, 0, c0);
    }
  }

  // Without an error every byte is offered once.
  lemma {:induction false} OffersCount(len: nat, vs: seq<Verdict>, i: nat, cont: bool)
    requires i <= len <= |vs| && forall k :: 0 <= k < len ==> vs[k].rc != Error
    ensures |Offers(len, vs, i, i, cont)| == len - i
    decreases len - i
  {
    if i < len { OffersCount(len, vs, i + 1, vs[i].rc == Continue); }
  }

  lemma TrailEnds(len: nat, vs: seq<Verdict>, c0: bool, done: seq<nat>)
    requires Reached(done, vs, c0, len) && (done != [] ==> done[|done| - 1] < len)
    ensures len <= |done| <= 2 * len && (len > 0 ==> done[|done| - 1] == len - 1)
  {
  }

  lemma {:induction false} OffersTrail(len: nat, vs: seq<Verdict>, c0: bool, done: seq<nat>, i: nat, r: seq<nat>)
    requires |vs| >= 2 * len && i <= len && Trail(done, vs, c0) && Reached(done, vs, c0, i)
    requires done != [] ==> done[|done| - 1] < len
    requires r == done + Offers(len, vs, |done|, i, UnderWay(vs, |done|, c0))
    ensures len <= |r| <= 2 * len && Trail(r, vs, c0) && (len > 0 ==> r[|r| - 1] == len - 1)
    decreases |vs| - |done|
  {
    if i < len {
      TrailGrows(done, vs, c0, i);
      var next := if Repeats(vs, |done|, c0) then i else i + 1;
      var rest := Offers(len, vs, |done| + 1, next, vs[|done|].rc == Continue);
      assert r == (done + [i]) + rest;
      OffersTrail(len, vs, c0, done + [i], next, r);
    } else {
      assert r == done;
      TrailEnds(len, vs, c0, done);
    }
  }

  // ----- what the fed bytes deliver

  // One offer takes the builder from a to b. A lexer that gives up reports a
  // failure; anything but `Continue` restarts the parse.
  ghost predicate IsOffer(a: State, v: Verdict, b: State) {
    && Sane(a)
    && var r := Run(a, v.events).st;
       match v.rc
       case Continue => b == r
       case Done => b == Clean(r)
       case Error => b == Clean(r.(errors := r.errors + 1))
  }

  ghost predicate LinkAt(sts: seq<State>, vs: seq<Verdict>, k: nat)
    requires k + 1 < |sts| <= |vs| + 1
  {
    IsOffer(sts[k], vs[k], sts[k + 1])
  }

  // The states that a series of offers leads through.
  ghost predicate Chained(sts: seq<State>, vs: seq<Verdict>) {
    && 0 < |sts| <= |vs| + 1 && Sane(sts[|sts| - 1])
    && forall k: nat :: k + 1 < |sts| ==> LinkAt(sts, vs, k)
  }

  lemma ChainGrows(sts: seq<State>, vs: seq<Verdict>, st: State) returns (more: seq<State>)
    requires Chained(sts, vs) && |sts| <= |vs| && Sane(st) && IsOffer(sts[|sts| - 1], vs[|sts| - 1], st)
    ensures more == sts + [st] && Chained(more, vs) && more[0] == sts[0]
  {
    more := sts + [st];
    forall k: nat | k + 1 < |more| ensures LinkAt(more, vs, k) {
      if k + 1 < |sts| { LinkCarries(sts, more, vs, k); }
    }
  }

  lemma LinkCarries(a: seq<State>, b: seq<State>, vs: seq<Verdict>, k: nat)
    requires k + 1 < |a| <= |b| <= |vs| + 1 && LinkAt(a, vs, k) && a[k] == b[k] && a[k + 1] == b[k + 1]
    ensures LinkAt(b, vs, k)
  {
  }

  lemma {:induction false} RunErrors(st: State, es: seq<Event>, r: Result)
    requires Sane(st) && Failed !in es && r == Run(st, es)
    ensures r.st.errors == st.errors
    decreases es
  {
    if es != [] {
      StepRefuses(st, es[0]);
      StepSane(st, es[0]);
      var one := Step(st, es[0]);
      if one.ret == 0 { RunErrors(one.st, es[1..], r); }
    }
  }

  /** Each offer on which the lexer gives up counts one error, and no other does. */
  lemma ErrorsCounted(a: State, v: Verdict, b: State)
    requires IsOffer(a, v, b) && Failed !in v.events
    ensures b.errors == a.errors + if v.rc == Error then 1 else 0
  {
    RunErrors(a, v.events, Run(a, v.events));
  }

  lemma ChainSane(sts: seq<State>, vs: seq<Verdict>, k: nat)
    requires Chained(sts, vs) && k < |sts|
    ensures Sane(sts[k])
  {
    if k + 1 < |sts| { assert LinkAt(sts, vs, k); }
  }

  lemma LastIsClean(sts: seq<State>, vs: seq<Verdict>)
    requires Chained(sts, vs)
    ensures |sts| > 1 && vs[|sts| - 2].rc != Continue ==> IsClean(sts[|sts| - 1])
  {
    if |sts| > 1 { assert LinkAt(sts, vs, |sts| - 2); }
  }

  function Flat(vs: seq<Verdict>, lo: nat, hi: nat): seq<Event>
    requires hi <= |vs|
    decreases hi
  {
    if hi <= lo then [] else Flat(vs, lo, hi - 1) + vs[hi - 1].events
  }

  lemma RunPrefix(st: State, a: seq<Event>, b: seq<Event>, whole: Result) returns (before: Result)
    requires Sane(st) && whole == Run(st, a + b) && whole.ret == 0
    ensures before == Run(st, a) && before.ret == 0 && Sane(before.st) && whole == Run(before.st, b)
  {
    before := Run(st, a);
    RunConcat(st, a, b);
  }

  // While the lexer says `Continue`, the offers add up.
  lemma {:induction false} OffersRun(sts: seq<State>, vs: seq<Verdict>, lo: nat, hi: nat, r: Result)
    requires Chained(sts, vs) && lo <= hi < |sts| && (forall k :: lo <= k < hi ==> vs[k].rc == Continue)
    requires Sane(sts[lo]) && r == Run(sts[lo], Flat(vs, lo, hi)) && r.ret == 0
    ensures sts[hi] == r.st
    decreases hi
  {
    if lo < hi {
      var before := RunPrefix(sts[lo], Flat(vs, lo, hi - 1), vs[hi - 1].events, r);
      OffersRun(sts, vs, lo, hi - 1, before);
      assert LinkAt(sts, vs, hi - 1);
    }
  }

  // The lexer's verdicts on the bytes of one document.
  ghost predicate Reports(vs: seq<Verdict>, lo: nat, hi: nat, d: Doc) {
    && lo < hi <= |vs| && Flat(vs, lo, hi) == Events(d) + [Complete]
    && (forall k :: lo <= k < hi - 1 ==> vs[k].rc == Continue) && vs[hi - 1].rc == Done
  }

  // The last byte of a document: the rest of its events, then the restart.
  lemma LastOffer(mid: State, v: Verdict, whole: Result, st: State)
    requires IsOffer(mid, v, st) && v.rc == Done && whole == Run(mid, v.events) && IsClean(whole.st)
    ensures st == whole.st
  {
  }

  // The offers of one document, one after the other or all at once.
  lemma DocumentRun(sts: seq<State>, vs: seq<Verdict>, lo: nat, hi: nat, whole: Result)
    requires Chained(sts, vs) && lo < hi < |sts| && vs[hi - 1].rc == Done
    requires forall k :: lo <= k < hi - 1 ==> vs[k].rc == Continue
    requires Sane(sts[lo]) && whole == Run(sts[lo], Flat(vs, lo, hi)) && whole.ret == 0 && IsClean(whole.st)
    ensures sts[hi] == whole.st
  {
    var before := RunPrefix(sts[lo], Flat(vs, lo, hi - 1), vs[hi - 1].events, whole);
    OffersRun(sts, vs, lo, hi - 1, before);
    assert LinkAt(sts, vs, hi - 1);
    LastOffer(before.st, vs[hi - 1], whole, sts[hi]);
  }

  lemma DocumentDelivered(sts: seq<State>, vs: seq<Verdict>, lo: nat, hi: nat, d: Doc)
    requires Chained(sts, vs) && hi < |sts| && Reports(vs, lo, hi, d) && IsClean(sts[lo]) && Depth(d) < |sts[lo].stack|
    ensures var st, r := sts[lo], sts[hi];
            && IsClean(r) && r.delivered == st.delivered + [Value(d)] && |r.stack| == |st.stack|
            && r.errors == st.errors && r.stray == st.stray
  {
    ChainSane(sts, vs, lo);
    var whole := Run(sts[lo], Events(d) + [Complete]);
    DeliversFitting(sts[lo], d, whole);
    DocumentRun(sts, vs, lo, hi, whole);
  }

  // From offer cuts[0] on, document i takes the offers from cuts[i] up to cuts[i + 1].
  ghost predicate ReportAt(vs: seq<Verdict>, cuts: seq<nat>, docs: seq<Doc>, i: nat)
    requires i < |docs| && |cuts| == |docs| + 1
  {
    Reports(vs, cuts[i], cuts[i + 1], docs[i])
  }

  ghost predicate ReportsAll(vs: seq<Verdict>, cuts: seq<nat>, docs: seq<Doc>) {
    && |cuts| == |docs| + 1
    && forall i: nat :: i < |docs| ==> ReportAt(vs, cuts, docs, i)
  }

  // The builder has delivered these documents and nothing else happened.
  ghost predicate Delivered(st: State, docs: seq<Doc>, r: State) {
    && IsClean(r) && |r.stack| == |st.stack| && r.errors == st.errors && r.stray == st.stray
    && r.delivered == st.delivered + Fitting(docs, |st.stack|) && |Fitting(docs, |st.stack|)| == |docs|
  }

  lemma DeliveredGrows(st: State, docs: seq<Doc>, n: nat, mid: State, r: State)
    requires n < |docs| && Delivered(st, docs[..n], mid) && Depth(docs[n]) < |st.stack|
    requires IsClean(r) && |r.stack| == |mid.stack| && r.errors == mid.errors && r.stray == mid.stray
    requires r.delivered == mid.delivered + [Value(docs[n])]
    ensures Delivered(st, docs[..n + 1], r)
  {
    assert docs[..n + 1][..n] == docs[..n];
  }

  lemma NextDelivered(sts: seq<State>, vs: seq<Verdict>, st: State, lo: nat, hi: nat, docs: seq<Doc>, m: nat)
    requires Chained(sts, vs) && hi < |sts| && m < |docs| && Reports(vs, lo, hi, docs[m])
    requires Depth(docs[m]) < |st.stack| && Delivered(st, docs[..m], sts[lo])
    ensures Delivered(st, docs[..m + 1], sts[hi])
  {
    DocumentDelivered(sts, vs, lo, hi, docs[m]);
    DeliveredGrows(st, docs, m, sts[lo], sts[hi]);
  }

  /**
   * End to end: from a clean builder on, offers that the lexer reports as
   * documents within the bound deliver exactly the documents' values, in
   * order, report no error, send no text astray and leave the builder clean.
   */
  lemma {:induction false} FeedDelivers(sts: seq<State>, vs: seq<Verdict>, cuts: seq<nat>, docs: seq<Doc>, n: nat)
    requires Chained(sts, vs) && ReportsAll(vs, cuts, docs) && n <= |docs| && cuts[n] < |sts|
    requires cuts[0] < |sts| && IsClean(sts[cuts[0]])
    requires forall i :: 0 <= i < |docs| ==> Depth(docs[i]) < |sts[cuts[0]].stack|
    ensures Delivered(sts[cuts[0]], docs[..n], sts[cuts[n]])
    decreases n
  {
    if n > 0 {
      var m := n - 1;
      assert ReportAt(vs, cuts, docs, m);
      FeedDelivers(sts, vs, cuts, docs, m);
      NextDelivered(sts, vs, sts[cuts[0]], cuts[m], cuts[m + 1], docs, m);
    }
  }

  /**
   * Resynchronisation: whatever came before, once the lexer has ended a parse,
   * well or badly, the documents it reports from the next offer on are
   * delivered exactly.
   */
  lemma FeedResyncs(sts: seq<State>, vs: seq<Verdict>, cuts: seq<nat>, docs: seq<Doc>, n: nat)
    requires Chained(sts, vs) && ReportsAll(vs, cuts, docs) && n <= |docs| && cuts[n] < |sts|
    requires 0 < cuts[0] < |sts| && vs[cuts[0] - 1].rc != Continue
    requires forall i :: 0 <= i < |docs| ==> Depth(docs[i]) < |sts[0].stack|
    ensures Delivered(sts[cuts[0]], docs[..n], sts[cuts[n]])
  {
    assert LinkAt(sts, vs, cuts[0] - 1);
    ChainStack(sts, vs, cuts[0]);
    FeedDelivers(sts, vs, cuts, docs, n);
  }

  lemma {:induction false} ChainStack(sts: seq<State>, vs: seq<Verdict>, k: nat)
    requires Chained(sts, vs) && k < |sts|
    ensures |sts[k].stack| == |sts[0].stack|
  {
    if k > 0 {
      ChainStack(sts, vs, k - 1);
      OfferStack(sts, vs, k - 1);
    }
  }

  lemma OfferStack(sts: seq<State>, vs: seq<Verdict>, k: nat)
    requires Chained(sts, vs) && k + 1 < |sts|
    ensures |sts[k + 1].stack| == |sts[k].stack|
  {
    assert LinkAt(sts, vs, k);
  }
}
