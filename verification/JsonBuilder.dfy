/**
 * The event-driven JSON tree builder: an explicit stack of open containers, a
 * string buffer filled in chunks, and a tree whose nodes are linked to their
 * parents as soon as they are created. Nodes live in `pool`; an index into it
 * stands for an address.
 */
module JsonBuilder {
  import opened Options

  // Values, with members in document order. Array members have the empty name.
  datatype Json = Atom(lit: Literal) | Str(s: string) | Container(isObject: bool, members: Members)

  datatype Literal = True | False | Null | Num(d: real)

  datatype Members = Empty | Member(front: Members, name: string, value: Json)

  datatype Event =
    | Scalar(lit: Literal)
    | BadNumber
    | StrStart | StrChunk(part: string) | StrEnd(part: string)
    | Open(isObject: bool) | Close
    | PairName(name: string)
    | Complete | Failed | Destructed | Constructed

  datatype Kids = NoKids | Kid(front: Kids, name: string, id: nat)

  datatype Node = Leaf(v: Json) | Branch(isObject: bool, kids: Kids)

  // `stack[sp]` is the innermost open container; slot 0 is never filled.
  // `stray` records string text that came without a string start: the source
  // then writes before its buffer.
  datatype State = State(pool: seq<Node>, stack: seq<Option<nat>>, sp: int, root: Option<nat>,
                         name: string, str: string, started: bool, delivered: seq<Json>, errors: nat, stray: bool)

  datatype Result = Result(st: State, ret: int)

  // A C string ends at its first NUL.
  function CString(s: string): string {
    if s == "" || s[0] == '\0' then "" else [s[0]] + CString(s[1..])
  }

  // ----- pools as trees

  ghost predicate KidsWithin(k: Kids, lo: int, hi: int) {
    k.Kid? ==> lo < k.id < hi && KidsWithin(k.front, lo, hi)
  }

  ghost predicate NodeWithin(n: Node, lo: int, hi: int) { n.Branch? ==> KidsWithin(n.kids, lo, hi) }

  // Every node is older than its children.
  ghost predicate Linked(pool: seq<Node>) {
    forall i :: 0 <= i < |pool| ==> NodeWithin(pool[i], i, |pool|)
  }

  function Tree(pool: seq<Node>, id: nat): Json
    requires Linked(pool) && id < |pool|
    decreases |pool| - id, 1, NoKids
  {
    match pool[id]
    case Leaf(v) => v
    case Branch(o, kids) => Container(o, TreeKids(pool, kids, id))
  }

  function TreeKids(pool: seq<Node>, k: Kids, lo: nat): Members
    requires Linked(pool) && lo < |pool| && KidsWithin(k, lo, |pool|)
    decreases |pool| - lo, 0, k
  {
    match k
    case NoKids => Empty
    case Kid(front, name, id) => Member(TreeKids(pool, front, lo), name, Tree(pool, id))
  }

  // A tree depends only on the nodes from its root upwards.
  lemma {:induction false} TreeFrame(p: seq<Node>, q: seq<Node>, id: nat)
    requires Linked(p) && Linked(q) && id < |p| <= |q|
    requires forall i :: id <= i < |p| ==> p[i] == q[i]
    ensures Tree(p, id) == Tree(q, id)
    decreases |p| - id, 1, NoKids
  {
    if p[id].Branch? {
      KidsFrame(p, q, p[id].kids, id);
    }
  }

  lemma {:induction false} KidsFrame(p: seq<Node>, q: seq<Node>, k: Kids, lo: nat)
    requires Linked(p) && Linked(q) && lo < |p| <= |q|
    requires forall i :: lo < i < |p| ==> p[i] == q[i]
    requires KidsWithin(k, lo, |p|) && KidsWithin(k, lo, |q|)
    ensures TreeKids(p, k, lo) == TreeKids(q, k, lo)
    decreases |p| - lo, 0, k
  {
    if k.Kid? {
      KidsFrame(p, q, k.front, lo);
      TreeFrame(p, q, k.id);
    }
  }

  lemma {:induction false} KidsWiden(k: Kids, lo: int, hi: int, hi': int)
    requires KidsWithin(k, lo, hi) && hi <= hi'
    ensures KidsWithin(k, lo, hi')
  {
    if k.Kid? { KidsWiden(k.front, lo, hi, hi'); }
  }

  // ----- the callback

  function Clean(st: State): State {
    st.(pool := [], sp := 0, root := None, str := "", started := false)
  }

  function Fail(st: State): Result { Result(Clean(st), -1) }

  // The pool once the newest node, n, hangs under its parent.
  function Hang(pool: seq<Node>, parent: Option<nat>, name: string, n: nat): seq<Node>
    requires parent.Some? ==> parent.value < |pool| && pool[parent.value].Branch?
  {
    if parent.None? then pool
    else
      var b := pool[parent.value];
      pool[parent.value := Branch(b.isObject, Kid(b.kids, if b.isObject then name else "", n))]
  }

  // Create a node and link it under `parent`; the first node is the root.
  function Attach(st: State, parent: Option<nat>, n: Node): Result
    requires parent.Some? ==> parent.value < |st.pool| && st.pool[parent.value].Branch?
  {
    var id := |st.pool|;
    Result(st.(pool := Hang(st.pool + [n], parent, st.name, id),
               root := if st.root.None? then Some(id) else st.root), 0)
  }

  // Slots 1 to sp hold the open containers.
  ghost predicate Sane(st: State) {
    && 0 <= st.sp < |st.stack| && st.stack[0] == None
    && Linked(st.pool)
    && (st.root.Some? ==> st.root.value < |st.pool|)
    && forall i :: 1 <= i <= st.sp ==>
         st.stack[i].Some? && st.stack[i].value < |st.pool| && st.pool[st.stack[i].value].Branch?
  }

  function Step(st: State, e: Event): Result
    requires Sane(st)
  {
    var parent := st.stack[st.sp];
    match e
    case Scalar(l) => Attach(st, parent, Leaf(Atom(l)))
    case BadNumber => Fail(st)
    case StrStart => Result(st.(str := "", started := true), 0)
    case StrChunk(part) => Result(st.(str := st.str + part, stray := st.stray || !st.started), 0)
    case StrEnd(part) =>
      Attach(st.(str := "", started := false, stray := st.stray || !st.started), parent, Leaf(Str(CString(st.str + part))))
    case Open(o) =>
      if st.sp + 1 >= |st.stack| then Fail(st)
      else Attach(st.(sp := st.sp + 1, stack := st.stack[st.sp + 1 := Some(|st.pool|)]), parent, Branch(o, NoKids))
    case Close => if st.sp - 1 < 0 then Fail(st) else Result(st.(sp := st.sp - 1), 0)
    case PairName(n) => Result(st.(name := CString(n)), 0)
    case Complete =>
      var out := if st.root.Some? then [Tree(st.pool, st.root.value)] else [];
      Result(Clean(st.(delivered := st.delivered + out)), 0)
    case Failed => Fail(st.(errors := st.errors + 1))
    case Destructed => Result(Clean(st), 0)
    case Constructed => Result(st, 0)
  }

  lemma HangLinks(pool: seq<Node>, parent: Option<nat>, name: string, n: Node)
    requires Linked(pool) && NodeWithin(n, |pool|, |pool| + 1)
    requires parent.Some? ==> parent.value < |pool| && pool[parent.value].Branch?
    ensures Linked(Hang(pool + [n], parent, name, |pool|))
  {
    var r := Hang(pool + [n], parent, name, |pool|);
    forall i | 0 <= i < |r| ensures NodeWithin(r[i], i, |r|) {
      if i < |pool| && pool[i].Branch? {
        KidsWiden(pool[i].kids, i, |pool|, |r|);
      }
    }
  }

  /** The string buffer needs order: exactly string text without a start goes astray. */
  lemma StepStray(st: State, e: Event)
    requires Sane(st)
    ensures Step(st, e).st.stray <==> st.stray || ((e.StrChunk? || e.StrEnd?) && !st.started)
  {
  }

  lemma AttachSane(st: State, v: Json)
    requires Sane(st)
    ensures Sane(Attach(st, st.stack[st.sp], Leaf(v)).st)
  {
    HangLinks(st.pool, st.stack[st.sp], st.name, Leaf(v));
  }

  lemma OpenSane(st: State, o: bool)
    requires Sane(st)
    ensures Sane(Step(st, Open(o)).st)
  {
    HangLinks(st.pool, st.stack[st.sp], st.name, Branch(o, NoKids));
  }

  /** Every event, in any order, leaves a sane stack and tree. */
  lemma StepSane(st: State, e: Event)
    requires Sane(st)
    ensures Sane(Step(st, e).st) && |Step(st, e).st.stack| == |st.stack|
  {
    match e
    case Scalar(l) => AttachSane(st, Atom(l));
    case StrEnd(part) =>
      AttachSane(st.(str := "", started := false, stray := st.stray || !st.started), Str(CString(st.str + part)));
    case Open(o) => OpenSane(st, o);
    case _ =>
  }

  /**
   * Exactly the events that are refused, which leaves nothing behind: a bad
   * number, a failure, a container too many, a close too many. Only failures
   * count as errors, only a completed value is delivered.
   */
  lemma StepRefuses(st: State, e: Event)
    requires Sane(st)
    ensures var r := Step(st, e);
            && (r.ret == 0 || r.ret == -1)
            && (r.ret == -1 <==> e.BadNumber? || e.Failed? || (e.Open? && st.sp + 1 >= |st.stack|) || (e.Close? && st.sp == 0))
            && (r.ret == -1 || e.Complete? || e.Destructed? ==>
                  r.st.pool == [] && r.st.sp == 0 && r.st.root == None && r.st.str == "")
            && r.st.errors == (if e.Failed? then st.errors + 1 else st.errors)
            && (r.st.delivered != st.delivered ==>
                  e.Complete? && st.root.Some? && r.st.delivered == st.delivered + [Tree(st.pool, st.root.value)])
  {
  }

  /** Events are delivered until the callback returns an error. */
  function Run(st: State, es: seq<Event>): (r: Result)
    requires Sane(st)
    ensures Sane(r.st) && |r.st.stack| == |st.stack|
    decreases es
  {
    if es == [] then Result(st, 0)
    else
      StepSane(st, es[0]);
      var r := Step(st, es[0]);
      if r.ret != 0 then r else Run(r.st, es[1..])
  }

  lemma {:induction false} RunConcat(st: State, a: seq<Event>, b: seq<Event>)
    requires Sane(st)
    ensures var r := Run(st, a);
            Run(st, a + b) == if r.ret != 0 then r else Run(r.st, b)
    decreases a
  {
    if a == [] {
      assert [] + b == b;
    } else {
      assert (a + b)[1..] == a[1..] + b;
      StepSane(st, a[0]);
      RunConcat(Step(st, a[0]).st, a[1..], b);
    }
  }

  lemma RunOne(st: State, e: Event)
    requires Sane(st)
    ensures Run(st, [e]) == Step(st, e)
  {
    StepSane(st, e);
    var r := Step(st, e);
    assert [e][1..] == [];
    if r.ret == 0 {
      assert Run(r.st, []) == r;
    }
  }
}
