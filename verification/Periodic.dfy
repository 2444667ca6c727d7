/**
 * One poll slot: the periodic thread, and the caller that stops, joins,
 * rewrites the static context and creates the next thread. Each step is one
 * critical section or one boundary of the callback.
 */
module Periodic {
  import opened Options

  // Where the thread is. `Armed` means it has left the mutex without seeing stop.
  datatype Pc = Waiting | Armed | InCallback | Exited

  // Where the caller is: a request is a new context, or none to stop polling.
  datatype Caller = Free | Joining(next: Option<int>) | Writing(ctx: int) | Creating

  datatype Mark =
    | Created(gen: int) | Stopped(gen: int) | Joined(gen: int)
    | Begin(gen: int) | End(gen: int)
    | Rewrote(ctx: int)

  datatype State = State(slot: Option<Pc>, stop: bool, gen: int, caller: Caller, ctx: int, log: seq<Mark>)

  datatype Step =
    | Request(next: Option<int>)
    | Join
    | Rewrite
    | Create(ok: bool)
    | Wake(timedOut: bool)
    | BeginCallback
    | EndCallback(nonzero: bool)

  const INIT := State(None, false, 0, Free, 0, [])

  // After the old thread is gone.
  function Proceed(next: Option<int>): Caller { if next.Some? then Writing(next.value) else Free }

  // A step that is not enabled changes nothing.
  function Next(s: State, e: Step): State {
    match e
    case Request(next) =>
      if !s.caller.Free? then s
      else if s.slot.None? then s.(caller := Proceed(next))
      else s.(stop := true, caller := Joining(next), log := s.log + [Stopped(s.gen)])
    case Join =>
      if s.caller.Joining? && s.slot == Some(Exited)
      then s.(slot := None, caller := Proceed(s.caller.next), log := s.log + [Joined(s.gen)]) else s
    case Rewrite =>
      if s.caller.Writing? then s.(ctx := s.caller.ctx, caller := Creating, log := s.log + [Rewrote(s.caller.ctx)]) else s
    case Create(ok) =>
      if !s.caller.Creating? then s
      else if !ok then s.(caller := Free)
      else s.(slot := Some(Waiting), stop := false, gen := s.gen + 1, caller := Free, log := s.log + [Created(s.gen + 1)])
    case Wake(timedOut) =>
      if s.slot != Some(Waiting) then s
      else if s.stop || !timedOut then s.(slot := Some(Exited)) else s.(slot := Some(Armed))
    case BeginCallback =>
      if s.slot == Some(Armed) then s.(slot := Some(InCallback), log := s.log + [Begin(s.gen)]) else s
    case EndCallback(nonzero) =>
      if s.slot == Some(InCallback)
      then s.(slot := Some(if nonzero then Exited else Waiting), log := s.log + [End(s.gen)]) else s
  }

  function Run(s: State, es: seq<Step>): State
    decreases es
  {
    if es == [] then s else Run(Next(s, es[0]), es[1..])
  }

  // Callbacks of thread g that began after its stop flag was set.
  function Late(log: seq<Mark>, g: int): nat {
    if log == [] then 0
    else
      var n := |log| - 1;
      Late(log[..n], g) + (if log[n] == Begin(g) && Stopped(g) in log[..n] then 1 else 0)
  }

  // Nothing of thread g happens once it is joined.
  ghost predicate SilentAfterJoin(log: seq<Mark>) {
    forall i, j, g :: 0 <= i < j < |log| && log[i] == Joined(g) ==> log[j] != Begin(g) && log[j] != End(g)
  }

  // The context is rewritten only when every thread ever created has been joined.
  ghost predicate RewrittenInPeace(log: seq<Mark>) {
    forall i, g :: 0 <= i < |log| && log[i].Rewrote? && Created(g) in log[..i] ==> Joined(g) in log[..i]
  }

  // Marks agree with the state: which threads exist, which are gone, who was stopped.
  ghost predicate Consistent(s: State) {
    && (forall g :: Created(g) in s.log ==> g <= s.gen)
    && (forall g :: Stopped(g) in s.log ==> g < s.gen || (g == s.gen && (s.stop || s.slot.None?)))
    && (forall g :: Joined(g) in s.log ==> g < s.gen || (g == s.gen && s.slot.None?))
    && (forall g :: Created(g) in s.log && Joined(g) !in s.log ==> g == s.gen && s.slot.Some?)
    && (s.caller.Joining? ==> s.slot.Some? && s.stop)
    && (s.caller.Writing? || s.caller.Creating? ==> s.slot.None?)
    && (s.slot.Some? && s.stop ==> s.caller.Joining?)
  }

  // A thread that may still begin a callback has begun none since its stop.
  ghost predicate FewLate(s: State) {
    && (s.slot.Some? && (!s.stop || s.slot == Some(Armed)) ==> Late(s.log, s.gen) == 0)
    && (forall g :: g > s.gen ==> Late(s.log, g) == 0)
    && (forall g :: Late(s.log, g) <= 1)
  }

  ghost predicate Inv(s: State) {
    Consistent(s) && FewLate(s) && SilentAfterJoin(s.log) && RewrittenInPeace(s.log)
  }

  lemma LateGrows(log: seq<Mark>, m: Mark, g: int)
    ensures Late(log + [m], g) == Late(log, g) + (if m == Begin(g) && Stopped(g) in log then 1 else 0)
  {
    assert (log + [m])[..|log|] == log;
  }

  lemma LogGrows(log: seq<Mark>, m: Mark)
    requires SilentAfterJoin(log) && RewrittenInPeace(log)
    requires (m.Begin? || m.End?) ==> Joined(m.gen) !in log
    requires m.Rewrote? ==> forall g :: Created(g) in log ==> Joined(g) in log
    ensures SilentAfterJoin(log + [m]) && RewrittenInPeace(log + [m])
  {
    var r := log + [m];
    forall i, j, g | 0 <= i < j < |r| && r[i] == Joined(g) ensures r[j] != Begin(g) && r[j] != End(g) {
      assert r[i] == log[i];
      assert j < |log| ==> r[j] == log[j];
    }
    forall i, g | 0 <= i < |r| && r[i].Rewrote? && Created(g) in r[..i] ensures Joined(g) in r[..i] {
      assert r[..i] == log[..i];
      if i == |log| {
        assert log[..i] == log;
      }
    }
  }

  // The mark a step leaves, if any.
  function MarkOf(s: State, e: Step): Option<Mark> {
    match e
    case Request(_) => if s.caller.Free? && s.slot.Some? then Some(Stopped(s.gen)) else None
    case Join => if s.caller.Joining? && s.slot == Some(Exited) then Some(Joined(s.gen)) else None
    case Rewrite => if s.caller.Writing? then Some(Rewrote(s.caller.ctx)) else None
    case Create(ok) => if s.caller.Creating? && ok then Some(Created(s.gen + 1)) else None
    case Wake(_) => None
    case BeginCallback => if s.slot == Some(Armed) then Some(Begin(s.gen)) else None
    case EndCallback(_) => if s.slot == Some(InCallback) then Some(End(s.gen)) else None
  }

  lemma NextConsistent(s: State, e: Step, s': State)
    requires Consistent(s) && s' == Next(s, e)
    ensures Consistent(s')
  {
    var m := MarkOf(s, e);
    if m.Some? {
      assert s'.log == s.log + [m.value];
      assert forall x :: x in s'.log <==> x in s.log || x == m.value;
    } else {
      assert s'.log == s.log;
    }
  }

  lemma NextFewLate(s: State, e: Step, s': State)
    requires Consistent(s) && FewLate(s) && s' == Next(s, e)
    ensures FewLate(s')
  {
    var m := MarkOf(s, e);
    if m.Some? {
      assert s'.log == s.log + [m.value];
      forall g ensures Late(s'.log, g) == Late(s.log, g) + (if m.value == Begin(g) && Stopped(g) in s.log then 1 else 0) {
        LateGrows(s.log, m.value, g);
      }
    } else {
      assert s'.log == s.log;
    }
  }

  lemma NextKeepsInv(s: State, e: Step, s': State)
    requires Inv(s) && s' == Next(s, e)
    ensures Inv(s')
  {
    NextConsistent(s, e, s');
    NextFewLate(s, e, s');
    var m := MarkOf(s, e);
    if m.Some? {
      LogGrows(s.log, m.value);
    }
  }

  lemma {:induction false} RunKeepsInv(s: State, es: seq<Step>, out: State)
    requires Inv(s) && out == Run(s, es)
    ensures Inv(out)
    decreases es
  {
    if es != [] {
      var s1 := Next(s, es[0]);
      NextKeepsInv(s, es[0], s1);
      RunKeepsInv(s1, es[1..], out);
    }
  }

  /**
   * In every interleaving at most one callback begins after its thread's stop
   * flag is set, none begins or ends once the thread is joined, the static
   * context is rewritten only when every thread so far has been joined, and a
   * caller that is done stopping sees no thread.
   */
  lemma EveryInterleaving(es: seq<Step>, s: State)
    requires s == Run(INIT, es)
    ensures forall g :: Late(s.log, g) <= 1
    ensures SilentAfterJoin(s.log) && RewrittenInPeace(s.log)
    ensures s.caller.Writing? || s.caller.Creating? ==> s.slot.None?
    ensures s.stop && s.caller.Free? ==> s.slot.None?
  {
    RunKeepsInv(INIT, es, s);
  }

  // ----- what the thread gets done

  /** When the thread ends: at a stop, at any wake-up but a timeout, and when the callback says so. Never else. */
  lemma ThreadEnds(s: State, e: Step)
    requires s.slot.Some? && s.slot != Some(Exited)
    ensures Next(s, e).slot == Some(Exited) <==>
            || (s.slot == Some(Waiting) && e.Wake? && (s.stop || !e.timedOut))
            || (s.slot == Some(InCallback) && e.EndCallback? && e.nonzero)
  {
  }

  const ROUND := [Wake(true), BeginCallback, EndCallback(false)]

  function Rounds(n: nat): seq<Step> { if n == 0 then [] else ROUND + Rounds(n - 1) }

  lemma RunCons(s: State, e: Step, es: seq<Step>)
    ensures Run(s, [e] + es) == Run(Next(s, e), es)
  {
    assert ([e] + es)[1..] == es;
  }

  lemma RunRound(s: State, es: seq<Step>)
    requires s.slot == Some(Waiting) && !s.stop
    ensures Run(s, ROUND + es) == Run(s.(log := s.log + [Begin(s.gen)] + [End(s.gen)]), es)
  {
    var armed := s.(slot := Some(Armed));
    var inside := s.(slot := Some(InCallback), log := s.log + [Begin(s.gen)]);
    assert ROUND + es == [Wake(true)] + ([BeginCallback] + ([EndCallback(false)] + es));
    RunCons(s, Wake(true), [BeginCallback] + ([EndCallback(false)] + es));
    RunCons(armed, BeginCallback, [EndCallback(false)] + es);
    RunCons(inside, EndCallback(false), es);
    assert Next(inside, EndCallback(false)) == s.(log := s.log + [Begin(s.gen)] + [End(s.gen)]);
  }

  function Begun(log: seq<Mark>, g: int): nat {
    if log == [] then 0
    else
      var n := |log| - 1;
      Begun(log[..n], g) + if log[n] == Begin(g) then 1 else 0
  }

  lemma BegunTwo(log: seq<Mark>, g: int)
    ensures Begun(log + [Begin(g)] + [End(g)], g) == Begun(log, g) + 1
  {
    var one := log + [Begin(g)];
    assert (one + [End(g)])[..|one|] == one && one[..|log|] == log;
  }

  /** A thread that is not stopped polls again after every callback that returns zero. */
  lemma {:induction false} PollsRepeat(s: State, n: nat, out: State)
    requires s.slot == Some(Waiting) && !s.stop && out == Run(s, Rounds(n))
    ensures out.slot == Some(Waiting) && !out.stop && out.gen == s.gen
    ensures Begun(out.log, s.gen) == Begun(s.log, s.gen) + n
    decreases n
  {
    if n > 0 {
      RunRound(s, Rounds(n - 1));
      BegunTwo(s.log, s.gen);
      PollsRepeat(s.(log := s.log + [Begin(s.gen)] + [End(s.gen)]), n - 1, out);
    }
  }

  // The thread's own steps to its end, once it is asked to stop.
  function WindDown(pc: Pc): seq<Step> {
    match pc
    case Waiting => [Wake(false)]
    case Armed => [BeginCallback, EndCallback(true)]
    case InCallback => [EndCallback(true)]
    case Exited => []
  }

  lemma {:induction false} RunJoin(s: State, a: seq<Step>, e: Step, mid: State)
    requires mid == Run(s, a)
    ensures Run(s, a + [e]) == Next(mid, e)
    decreases a
  {
    if a == [] {
      assert [] + [e] == [e] && [e][1..] == [];
    } else {
      assert (a + [e])[1..] == a[1..] + [e];
      RunJoin(Next(s, a[0]), a[1..], e, mid);
    }
  }

  /** Destroying is never stuck: wherever the thread is, it can end and be joined, and the request goes on. */
  lemma JoinIsReached(s: State, out: State)
    requires s.caller.Joining? && s.stop && s.slot.Some? && out == Run(s, WindDown(s.slot.value) + [Join])
    ensures out.slot == None && Joined(s.gen) in out.log
    ensures out.caller == match s.caller.next case Some(c) => Writing(c) case None => Free
  {
    var a := WindDown(s.slot.value);
    var mid := Run(s, a);
    RunJoin(s, a, Join, mid);
    assert mid.slot == Some(Exited) && mid.caller == s.caller && mid.gen == s.gen by {
      match s.slot.value {
        case Waiting => assert [Wake(false)][1..] == [];
        case Armed =>
          var es := [BeginCallback, EndCallback(true)];
          assert es[1..] == [EndCallback(true)] && es[1..][1..] == [];
        case InCallback => assert [EndCallback(true)][1..] == [];
        case Exited =>
      }
    }
  }

  /** A request for a new context ends with a new waiting thread that reads it. */
  lemma RequestStarts(s: State, c: int, out: State)
    requires s.caller.Free? && s.slot.None? && out == Run(s, [Request(Some(c)), Rewrite, Create(true)])
    ensures out.slot == Some(Waiting) && !out.stop && out.ctx == c && out.gen == s.gen + 1 && out.caller.Free?
  {
    var writing := s.(caller := Writing(c));
    var creating := s.(ctx := c, caller := Creating, log := s.log + [Rewrote(c)]);
    assert [Request(Some(c)), Rewrite, Create(true)] == [Request(Some(c))] + ([Rewrite] + ([Create(true)] + []));
    RunCons(s, Request(Some(c)), [Rewrite] + ([Create(true)] + []));
    RunCons(writing, Rewrite, [Create(true)] + []);
    RunCons(creating, Create(true), []);
  }
}
