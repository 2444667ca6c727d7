/**
 * What the builder makes of the events of a document: exactly the document's
 * value, whatever the nesting within the depth bound and however its strings
 * are cut into chunks; and nothing at all beyond the bound.
 */
module JsonStream {
  import opened Options
  import opened JsonBuilder

  // A document as the lexer reports it, with the chunks its strings come in.
  datatype Doc =
    | Lit(lit: Literal)
    | Text(chunks: seq<string>, last: string)
    | Nest(isObject: bool, items: Docs)

  datatype Docs = NoDocs | DocItem(front: Docs, name: string, doc: Doc)

  // ----- its events

  function ChunkEvents(chunks: seq<string>): seq<Event> {
    if chunks == [] then [] else [StrChunk(chunks[0])] + ChunkEvents(chunks[1..])
  }

  function NameEvents(isObject: bool, name: string): seq<Event> {
    if isObject then [PairName(name)] else []
  }

  function Events(d: Doc): seq<Event>
    decreases d
  {
    match d
    case Lit(l) => [Scalar(l)]
    case Text(chunks, last) => [StrStart] + (ChunkEvents(chunks) + [StrEnd(last)])
    case Nest(o, items) => [Open(o)] + (ItemEvents(o, items) + [Close])
  }

  function ItemEvents(isObject: bool, items: Docs): seq<Event>
    decreases items
  {
    match items
    case NoDocs => []
    case DocItem(front, name, d) => ItemEvents(isObject, front) + (NameEvents(isObject, name) + Events(d))
  }

  // ----- its value

  function Concat(chunks: seq<string>): string {
    if chunks == [] then "" else chunks[0] + Concat(chunks[1..])
  }

  function Value(d: Doc): Json
    decreases d
  {
    match d
    case Lit(l) => Atom(l)
    case Text(chunks, last) => Str(CString(Concat(chunks) + last))
    case Nest(o, items) => Container(o, ValueItems(o, items))
  }

  function ValueItems(isObject: bool, items: Docs): Members
    decreases items
  {
    match items
    case NoDocs => Empty
    case DocItem(front, name, d) =>
      Member(ValueItems(isObject, front), if isObject then CString(name) else "", Value(d))
  }

  function Max(a: nat, b: nat): nat { if a < b then b else a }

  function Depth(d: Doc): nat {
    match d
    case Nest(_, items) => 1 + DepthItems(items)
    case _ => 0
  }

  function DepthItems(items: Docs): nat {
    match items
    case NoDocs => 0
    case DocItem(front, _, d) => Max(DepthItems(front), Depth(d))
  }

  // ----- big steps

  // Everything but the pool, the name and the string buffer.
  ghost predicate SameFrame(a: State, b: State) {
    && a.sp == b.sp && |a.stack| == |b.stack|
    && (forall i :: 0 <= i <= a.sp < |a.stack| ==> a.stack[i] == b.stack[i])
    && a.delivered == b.delivered && a.errors == b.errors && a.stray == b.stray
  }

  ghost predicate SamePool(a: State, b: State, except: Option<nat>) {
    |a.pool| <= |b.pool| && forall i :: 0 <= i < |a.pool| && Some(i) != except ==> a.pool[i] == b.pool[i]
  }

  // A new tree hangs under the innermost open container, or is the root.
  ghost predicate Grew(a: State, b: State)
    requires Sane(a)
  {
    var parent, n := a.stack[a.sp], |a.pool|;
    && SameFrame(a, b) && SamePool(a, b, parent) && n < |b.pool|
    && b.root == (if a.root.None? then Some(n) else a.root)
    && (parent.Some? ==>
          var t := a.pool[parent.value];
          b.pool[parent.value] == Branch(t.isObject, Kid(t.kids, if t.isObject then a.name else "", n)))
  }

  lemma {:induction false} RunChunks(st: State, chunks: seq<string>, r: Result)
    requires Sane(st) && st.started && r == Run(st, ChunkEvents(chunks))
    ensures r == Result(st.(str := st.str + Concat(chunks)), 0)
    decreases chunks
  {
    if chunks == [] {
      assert st.str + "" == st.str;
    } else {
      var es := ChunkEvents(chunks);
      assert es[1..] == ChunkEvents(chunks[1..]);
      var st1 := st.(str := st.str + chunks[0]);
      assert Step(st, es[0]) == Result(st1, 0);
      RunChunks(st1, chunks[1..], r);
      assert st.str + chunks[0] + Concat(chunks[1..]) == st.str + (chunks[0] + Concat(chunks[1..]));
    }
  }

  lemma AttachGrows(st: State, v: Json, r: Result)
    requires Sane(st) && r == Attach(st, st.stack[st.sp], Leaf(v))
    ensures r.ret == 0 && Sane(r.st) && Grew(st, r.st) && Tree(r.st.pool, |st.pool|) == v
  {
    HangLinks(st.pool, st.stack[st.sp], st.name, Leaf(v));
  }

  // Two stretches of events, the first without error.
  lemma RunBoth(st: State, a: seq<Event>, b: seq<Event>, mid: State)
    requires Sane(st) && Run(st, a) == Result(mid, 0)
    ensures Run(st, a + b) == Run(mid, b)
  {
    RunConcat(st, a, b);
  }

  lemma RunUpToEnd(st: State, chunks: seq<string>, last: string)
    requires Sane(st)
    ensures Run(st, Events(Text(chunks, last))) == Step(st.(str := Concat(chunks), started := true), StrEnd(last))
  {
    var st1 := st.(str := "", started := true);
    var st2 := st.(str := Concat(chunks), started := true);
    var tail := ChunkEvents(chunks) + [StrEnd(last)];
    RunOne(st, StrStart);
    RunBoth(st, [StrStart], tail, st1);
    var r := Run(st1, ChunkEvents(chunks));
    RunChunks(st1, chunks, r);
    assert r == Result(st2, 0) by { assert "" + Concat(chunks) == Concat(chunks); }
    RunBoth(st1, ChunkEvents(chunks), [StrEnd(last)], st2);
    RunOne(st2, StrEnd(last));
  }

  lemma EndGrows(st: State, text: string, last: string, r: Result)
    requires Sane(st) && r == Step(st.(str := text, started := true), StrEnd(last))
    ensures r.ret == 0 && Sane(r.st) && Grew(st, r.st)
    ensures Tree(r.st.pool, |st.pool|) == Str(CString(text + last))
  {
    AttachGrows(st.(str := "", started := false), Str(CString(text + last)), r);
  }

  /** A document within the bound becomes one tree, and nothing else changes. */
  lemma {:induction false} RunDoc(st: State, d: Doc, r: Result)
    requires Sane(st) && st.sp + Depth(d) < |st.stack| && r == Run(st, Events(d))
    ensures r.ret == 0 && Sane(r.st) && Grew(st, r.st)
    ensures Tree(r.st.pool, |st.pool|) == Value(d)
    decreases d, 1
  {
    match d
    case Lit(l) =>
      RunOne(st, Scalar(l));
      AttachGrows(st, Atom(l), r);
    case Text(chunks, last) =>
      RunUpToEnd(st, chunks, last);
      EndGrows(st, Concat(chunks), last, r);
    case Nest(o, items) =>
      RunNest(st, o, items, r);
  }

  lemma {:induction false} RunNest(st: State, o: bool, items: Docs, r: Result)
    requires Sane(st) && st.sp + 1 + DepthItems(items) < |st.stack| && r == Run(st, Events(Nest(o, items)))
    ensures r.ret == 0 && Sane(r.st) && Grew(st, r.st)
    ensures Tree(r.st.pool, |st.pool|) == Container(o, ValueItems(o, items))
    decreases items, 2
  {
    var r1 := Step(st, Open(o));
    OpenGrows(st, o, r1);
    RunOne(st, Open(o));
    RunBoth(st, [Open(o)], ItemEvents(o, items) + [Close], r1.st);
    var r2 := Run(r1.st, ItemEvents(o, items));
    RunItems(r1.st, o, items, r2);
    RunBoth(r1.st, ItemEvents(o, items), [Close], r2.st);
    RunOne(r2.st, Close);
    assert r == Result(r2.st.(sp := r2.st.sp - 1), 0);
  }

  lemma OpenGrows(st: State, o: bool, r: Result)
    requires Sane(st) && st.sp + 1 < |st.stack| && r == Step(st, Open(o))
    ensures r.ret == 0 && Sane(r.st)
    ensures r.st.sp == st.sp + 1 && r.st.stack == st.stack[st.sp + 1 := Some(|st.pool|)]
    ensures |r.st.pool| == |st.pool| + 1 && r.st.pool[|st.pool|] == Branch(o, NoKids)
    ensures Grew(st, r.st.(sp := st.sp))
  {
    HangLinks(st.pool, st.stack[st.sp], st.name, Branch(o, NoKids));
  }

  // The members of an open, still empty container.
  lemma {:induction false} RunItems(st: State, o: bool, items: Docs, r: Result)
    requires Sane(st) && st.sp >= 1 && st.root.Some? && st.pool[st.stack[st.sp].value] == Branch(o, NoKids)
    requires st.sp + DepthItems(items) < |st.stack| && r == Run(st, ItemEvents(o, items))
    ensures r.ret == 0 && Sane(r.st)
    ensures SameFrame(st, r.st) && SamePool(st, r.st, st.stack[st.sp]) && r.st.root == st.root
    ensures var t := st.stack[st.sp].value;
            && r.st.pool[t].Branch? && r.st.pool[t].isObject == o
            && TreeKids(r.st.pool, r.st.pool[t].kids, t) == ValueItems(o, items)
    decreases items, 0
  {
    match items
    case NoDocs =>
    case DocItem(front, name, d) =>
      var t := st.stack[st.sp].value;
      var r1 := Run(st, ItemEvents(o, front));
      RunItems(st, o, front, r1);
      var st2 := if o then r1.st.(name := CString(name)) else r1.st;
      assert r == Run(st2, Events(d)) by {
        RunBoth(st, ItemEvents(o, front), NameEvents(o, name) + Events(d), r1.st);
        if o {
          RunOne(r1.st, PairName(name));
          RunBoth(r1.st, [PairName(name)], Events(d), st2);
        } else {
          assert [] + Events(d) == Events(d);
        }
      }
      RunDoc(st2, d, r);
      MemberAdded(st2, r.st, t);
  }

  lemma MemberAdded(a: State, b: State, t: nat)
    requires Sane(a) && Sane(b) && a.stack[a.sp] == Some(t) && Grew(a, b)
    ensures var p := a.pool[t];
            TreeKids(b.pool, b.pool[t].kids, t)
            == Member(TreeKids(a.pool, p.kids, t), if p.isObject then a.name else "", Tree(b.pool, |a.pool|))
  {
    KidsFrame(a.pool, b.pool, a.pool[t].kids, t);
  }

  // ----- beyond the depth bound

  ghost predicate IsClean(st: State) { st.pool == [] && st.sp == 0 && st.root == None && st.str == "" && !st.started }

  ghost predicate Rejected(st: State, r: Result) {
    r.ret == -1 && IsClean(r.st) && r.st.delivered == st.delivered && r.st.errors == st.errors && r.st.stray == st.stray
  }

  /** A document that nests too deeply is rejected and leaves nothing behind. */
  lemma {:induction false} RunDeep(st: State, d: Doc, r: Result)
    requires Sane(st) && st.sp + Depth(d) >= |st.stack| && r == Run(st, Events(d))
    ensures Rejected(st, r)
    decreases d, 1
  {
    var Nest(o, items) := d;
    var r1 := Step(st, Open(o));
    RunOne(st, Open(o));
    RunConcat(st, [Open(o)], ItemEvents(o, items) + [Close]);
    if st.sp + 1 < |st.stack| {
      OpenGrows(st, o, r1);
      RunConcat(r1.st, ItemEvents(o, items), [Close]);
      RunItemsDeep(r1.st, o, items, Run(r1.st, ItemEvents(o, items)));
    }
  }

  lemma {:induction false} RunItemsDeep(st: State, o: bool, items: Docs, r: Result)
    requires Sane(st) && st.sp >= 1 && st.root.Some? && st.pool[st.stack[st.sp].value] == Branch(o, NoKids)
    requires st.sp + DepthItems(items) >= |st.stack| && r == Run(st, ItemEvents(o, items))
    ensures Rejected(st, r)
    decreases items, 0
  {
    var DocItem(front, name, d) := items;
    var r1 := Run(st, ItemEvents(o, front));
    RunConcat(st, ItemEvents(o, front), NameEvents(o, name) + Events(d));
    if st.sp + DepthItems(front) >= |st.stack| {
      RunItemsDeep(st, o, front, r1);
    } else {
      RunItems(st, o, front, r1);
      var st2 := if o then r1.st.(name := CString(name)) else r1.st;
      if o {
        RunOne(r1.st, PairName(name));
        RunBoth(r1.st, [PairName(name)], Events(d), st2);
      } else {
        assert [] + Events(d) == Events(d);
      }
      RunDeep(st2, d, r);
    }
  }

  // ----- whole documents and streams

  lemma DeliversFitting(st: State, d: Doc, r: Result)
    requires Sane(st) && IsClean(st) && r == Run(st, Events(d) + [Complete]) && Depth(d) < |st.stack|
    ensures r.ret == 0 && IsClean(r.st) && r.st.delivered == st.delivered + [Value(d)]
    ensures r.st.errors == st.errors && r.st.stray == st.stray
  {
    var r1 := Run(st, Events(d));
    RunConcat(st, Events(d), [Complete]);
    RunDoc(st, d, r1);
    RunOne(r1.st, Complete);
  }

  // A refused callback makes the lexer give up and report one failure.
  function Reported(st: State, es: seq<Event>): Result
    requires Sane(st)
  {
    var r := Run(st, es);
    if r.ret != 0 then Step(r.st, Failed) else r
  }

  /**
   * From a clean state, a document is delivered exactly when its nesting fits
   * the stack, as exactly its value; else one error is reported. The state is
   * clean again either way.
   */
  lemma DeliversDocument(st: State, d: Doc, r: Result)
    requires Sane(st) && IsClean(st) && r == Reported(st, Events(d) + [Complete])
    ensures IsClean(r.st) && r.st.stray == st.stray
    ensures if Depth(d) < |st.stack|
            then r.ret == 0 && r.st.delivered == st.delivered + [Value(d)] && r.st.errors == st.errors
            else r.ret == -1 && r.st.delivered == st.delivered && r.st.errors == st.errors + 1
  {
    if Depth(d) < |st.stack| {
      DeliversFitting(st, d, Run(st, Events(d) + [Complete]));
    } else {
      RunConcat(st, Events(d), [Complete]);
      RunDeep(st, d, Run(st, Events(d)));
    }
  }

  // The states between the documents of a stream.
  ghost predicate Stream(sts: seq<State>, docs: seq<Doc>) {
    && |sts| == |docs| + 1
    && forall i :: 0 <= i < |docs| ==> Sane(sts[i]) && sts[i + 1] == Reported(sts[i], Events(docs[i]) + [Complete]).st
  }

  function Fitting(docs: seq<Doc>, bound: nat): seq<Json> {
    if docs == [] then []
    else
      var n := |docs| - 1;
      Fitting(docs[..n], bound) + (if Depth(docs[n]) < bound then [Value(docs[n])] else [])
  }

  /** A stream delivers the values of the documents that fit, in order, and one error for each other. */
  lemma {:induction false} DeliversStream(sts: seq<State>, docs: seq<Doc>, n: nat)
    requires Stream(sts, docs) && IsClean(sts[0]) && Sane(sts[0]) && n <= |docs|
    ensures Sane(sts[n]) && IsClean(sts[n]) && |sts[n].stack| == |sts[0].stack|
    ensures sts[n].delivered == sts[0].delivered + Fitting(docs[..n], |sts[0].stack|)
    ensures sts[n].errors + |Fitting(docs[..n], |sts[0].stack|)| == sts[0].errors + n
  {
    if n > 0 {
      var prev := sts[n - 1];
      DeliversStream(sts, docs, n - 1);
      DeliversDocument(prev, docs[n - 1], Reported(prev, Events(docs[n - 1]) + [Complete]));
      ReportedSane(prev, Events(docs[n - 1]) + [Complete]);
      assert docs[..n][..n - 1] == docs[..n - 1];
    }
  }

  lemma ReportedSane(st: State, es: seq<Event>)
    requires Sane(st)
    ensures Sane(Reported(st, es).st) && |Reported(st, es).st.stack| == |st.stack|
  {
    var r := Run(st, es);
    StepSane(r.st, Failed);
  }

  // ----- strings with a NUL

  function Verbatim(d: Doc): Json
    decreases d
  {
    match d
    case Lit(l) => Atom(l)
    case Text(chunks, last) => Str(Concat(chunks) + last)
    case Nest(o, items) => Container(o, VerbatimItems(o, items))
  }

  function VerbatimItems(isObject: bool, items: Docs): Members
    decreases items
  {
    match items
    case NoDocs => Empty
    case DocItem(front, name, d) => Member(VerbatimItems(isObject, front), if isObject then name else "", Verbatim(d))
  }

  ghost predicate NulFree(d: Doc)
    decreases d
  {
    match d
    case Lit(_) => true
    case Text(chunks, last) => '\0' !in Concat(chunks) + last
    case Nest(o, items) => NulFreeItems(o, items)
  }

  ghost predicate NulFreeItems(isObject: bool, items: Docs)
    decreases items
  {
    items.DocItem? ==>
      && NulFreeItems(isObject, items.front) && NulFree(items.doc)
      && (isObject ==> '\0' !in items.name)
  }

  lemma {:induction false} CStringWhole(s: string)
    ensures CString(s) == s <==> '\0' !in s
  {
    if s != "" {
      CStringWhole(s[1..]);
      if s[0] != '\0' {
        assert ([s[0]] + CString(s[1..]))[1..] == CString(s[1..]);
        assert s == [s[0]] + s[1..];
      }
    }
  }

  /** What is delivered is the document to the letter exactly when it has no NUL. */
  lemma {:induction false} VerbatimIffNulFree(d: Doc)
    ensures Value(d) == Verbatim(d) <==> NulFree(d)
    decreases d
  {
    match d
    case Lit(_) =>
    case Text(chunks, last) => CStringWhole(Concat(chunks) + last);
    case Nest(o, items) => VerbatimIffNulFreeItems(o, items);
  }

  /** The string a NUL b arrives as a. */
  lemma NulCuts()
    ensures Value(Text([], "a\0b")) == Str("a") != Verbatim(Text([], "a\0b"))
  {
    assert Concat([]) + "a\0b" == "a\0b";
    assert "a\0b"[1..] == "\0b";
    assert CString("\0b") == "";
    assert "a" + "" == "a";
  }

  lemma {:induction false} VerbatimIffNulFreeItems(o: bool, items: Docs)
    ensures ValueItems(o, items) == VerbatimItems(o, items) <==> NulFreeItems(o, items)
    decreases items
  {
    if items.DocItem? {
      VerbatimIffNulFreeItems(o, items.front);
      VerbatimIffNulFree(items.doc);
      CStringWhole(items.name);
    }
  }
}
