/**
 * Running a script or a diagnostic: the one-at-a-time lock, the static script
 * context, and the runner thread that releases the lock before it exits.
 * Callers of plat_run_script and runners are interleaved step by step. The
 * program calls it from its one service thread only, so its calls are always
 * in turn; the interface itself does not ask for that.
 */
module ScriptLock {

  // Where a caller is inside plat_run_script.
  datatype Caller = Acquired | Joined | Filled | Spawned | AtExit

  datatype Runner = Running | Released | Exited

  datatype Step =
    | Acquire(c: int)      // fails, without effect, when the lock is taken
    | JoinOld(c: int)      // waits for the previous runner, if the context names one
    | Fill(c: int)         // overwrites the script context
    | GiveUp(c: int)       // bad type, bad base64, no memory, or no thread
    | Spawn(c: int)
    | MarkValid(c: int)
    | Leave(c: int)        // releases the lock if the context names no thread
    | Finish(t: int)       // a runner releases the lock
    | Exit(t: int)

  // `overwrites` records a Fill while some runner was alive, `underflow` a
  // release of a free lock.
  datatype State = State(count: nat, tid: int, tidValid: bool,
                         callers: map<int, Caller>, runners: map<int, Runner>,
                         acquires: nat, releases: nat, overwrites: bool, underflow: bool)

  const INIT := State(0, 0, false, map[], map[], 0, 0, false, false)

  function Release(s: State): State {
    if s.count > 0 then s.(count := s.count - 1, releases := s.releases + 1) else s.(underflow := true)
  }

  predicate At(s: State, c: int, pc: Caller) { c in s.callers && s.callers[c] == pc }

  predicate Is(s: State, t: int, r: Runner) { t in s.runners && s.runners[t] == r }

  predicate AllExited(s: State) { forall t :: t in s.runners ==> s.runners[t] == Exited }

  predicate NoCall(s: State) { forall c :: c !in s.callers }

  // A step that is not enabled changes nothing.
  function Next(s: State, e: Step): State {
    match e
    case Acquire(c) =>
      if c in s.callers || s.count != 0 then s
      else s.(count := 1, acquires := s.acquires + 1, callers := s.callers[c := Acquired])
    case JoinOld(c) =>
      if At(s, c, Acquired) && (s.tidValid ==> Is(s, s.tid, Exited)) then s.(callers := s.callers[c := Joined]) else s
    case Fill(c) =>
      if At(s, c, Joined)
      then s.(callers := s.callers[c := Filled], tidValid := false, overwrites := s.overwrites || !AllExited(s)) else s
    case GiveUp(c) =>
      if At(s, c, Filled) then s.(callers := s.callers[c := AtExit]) else s
    case Spawn(c) =>
      if At(s, c, Filled)
      then s.(callers := s.callers[c := Spawned], tid := s.tid + 1, runners := s.runners[s.tid + 1 := Running]) else s
    case MarkValid(c) =>
      if At(s, c, Spawned) then s.(callers := s.callers[c := AtExit], tidValid := true) else s
    case Leave(c) =>
      if !At(s, c, AtExit) then s
      else
        var s1 := s.(callers := s.callers - {c});
        if s.tidValid then s1 else Release(s1)
    case Finish(t) =>
      if Is(s, t, Running) then Release(s.(runners := s.runners[t := Released])) else s
    case Exit(t) =>
      if Is(s, t, Released) then s.(runners := s.runners[t := Exited]) else s
  }

  // ----- calls that do not overlap

  // The step lets a call in; a call that finds the lock taken is turned away.
  predicate Enters(s: State, e: Step) { e.Acquire? && e.c !in s.callers && s.count == 0 }

  // No call enters while another is inside.
  predicate InTurn(s: State, e: Step) { Enters(s, e) ==> NoCall(s) }

  ghost predicate Run(ss: seq<State>, es: seq<Step>) {
    && |ss| == |es| + 1
    && forall i :: 0 <= i < |es| ==> InTurn(ss[i], es[i]) && ss[i + 1] == Next(ss[i], es[i])
  }

  function Busy(s: State): nat { if Is(s, s.tid, Running) then 1 else 0 }

  // What each point of the call knows.
  ghost predicate Knows(s: State, pc: Caller) {
    match pc
    case Acquired => s.count == 1 && Busy(s) == 0 && (s.tid in s.runners && !Is(s, s.tid, Exited) ==> s.tidValid)
    case Joined => s.count == 1 && AllExited(s)
    case Filled => s.count == 1 && AllExited(s) && !s.tidValid
    case Spawned => s.count == Busy(s) && !s.tidValid && s.tid in s.runners
    case AtExit => if s.tidValid then s.count == Busy(s) && s.tid in s.runners else s.count == 1 && AllExited(s)
  }

  ghost predicate Inv(s: State) {
    && (forall c, d :: c in s.callers && d in s.callers ==> c == d)
    && (forall t :: t in s.runners ==> t <= s.tid && (t != s.tid ==> s.runners[t] == Exited))
    && (forall c :: c in s.callers ==> Knows(s, s.callers[c]))
    && s.count <= 1
    && (NoCall(s) ==> s.count == Busy(s) && (s.tid in s.runners && !Is(s, s.tid, Exited) ==> s.tidValid))
    && s.acquires == s.releases + s.count
    && !s.overwrites && !s.underflow
  }

  lemma InTurnKeepsInv(s: State, e: Step, s': State)
    requires Inv(s) && InTurn(s, e) && s' == Next(s, e)
    ensures Inv(s')
  {
    if !e.Finish? && !e.Exit? && !e.Leave? && s' != s {
      assert e.c in s'.callers;
    }
  }

  /** Exactly the steps that let no call in beside another keep the invariant. */
  lemma NextKeepsInv(s: State, e: Step, s': State)
    requires Inv(s) && s' == Next(s, e)
    ensures Inv(s') <==> InTurn(s, e)
  {
    if InTurn(s, e) {
      InTurnKeepsInv(s, e, s');
    } else {
      var c :| c in s.callers;
      assert c in s'.callers && e.c in s'.callers;
    }
  }

  lemma {:induction false} RunKeepsInv(ss: seq<State>, es: seq<Step>, n: nat)
    requires Run(ss, es) && ss[0] == INIT && n <= |es|
    ensures Inv(ss[n])
  {
    if n > 0 {
      RunKeepsInv(ss, es, n - 1);
      NextKeepsInv(ss[n - 1], es[n - 1], ss[n]);
    }
  }

  /**
   * When no call enters beside another, in every run: at most one runner is
   * active, and the context is overwritten only after every earlier runner has
   * exited. The lock is held by the one call inside or by the active runner
   * and by nobody else, so every acquire has had exactly one release once both
   * are gone, on every path; and no free lock is released.
   */
  lemma OneAtATime(ss: seq<State>, es: seq<Step>, n: nat)
    requires Run(ss, es) && ss[0] == INIT && n <= |es|
    ensures var s := ss[n];
            && (forall t, u :: Is(s, t, Running) && Is(s, u, Running) ==> t == u)
            && s.acquires == s.releases + s.count && s.count <= 1
            && (NoCall(s) && (forall t :: !Is(s, t, Running)) ==> s.count == 0 && s.acquires == s.releases)
            && (NoCall(s) && (exists t :: Is(s, t, Running)) ==> s.count == 1)
            && !s.underflow && !s.overwrites
  {
    RunKeepsInv(ss, es, n);
  }

  // ----- calls that overlap

  function After(s: State, es: seq<Step>): State {
    if es == [] then s else Next(After(s, es[..|es| - 1]), es[|es| - 1])
  }

  // Some steps lead from one state to the other.
  ghost predicate Leads(s: State, s': State) { exists es :: After(s, es) == s' }

  lemma Stay(s: State)
    ensures Leads(s, s)
  {
    assert After(s, []) == s;
  }

  lemma Go(from: State, s: State, e: Step) returns (s': State)
    requires Leads(from, s)
    ensures s' == Next(s, e) && Leads(from, s')
  {
    s' := Next(s, e);
    var es :| After(from, es) == s;
    assert (es + [e])[..|es|] == es;
    assert After(from, es + [e]) == s';
  }

  // A call that is inside fills the context.
  lemma FillIn(from: State, s: State, c: int) returns (s': State)
    requires Leads(from, s) && At(s, c, Acquired) && (s.tidValid ==> Is(s, s.tid, Exited))
    ensures Leads(from, s') && s'.count == s.count && !s'.tidValid && s'.tid == s.tid && s'.runners == s.runners
    ensures s'.callers == s.callers[c := Filled] && (s'.overwrites <==> s.overwrites || !AllExited(s))
    ensures s'.releases == s.releases
  {
    s' := Go(from, s, JoinOld(c));
    assert AllExited(s') == AllExited(s);
    s' := Go(from, s', Fill(c));
    assert s'.callers == s.callers[c := Filled];
  }

  // The first call is brought to its exit, with its runner gone.
  lemma BringOut(from: State, s: State, c: int, d: int) returns (s': State)
    requires Leads(from, s) && c != d && At(s, d, Acquired) && s.count == 1 && Busy(s) == 0 && s.tid in s.runners
    requires At(s, c, Spawned) || (At(s, c, AtExit) && s.tidValid)
    ensures Leads(from, s') && s'.count == 1 && s'.tidValid && Is(s', s'.tid, Exited)
    ensures At(s', c, AtExit) && At(s', d, Acquired)
  {
    s' := Go(from, s, Exit(s.tid));
    s' := Go(from, s', MarkValid(c));
  }

  // The first call, at its exit, releases the second one's lock.
  lemma LockStolen(from: State, s: State, c: int, d: int) returns (s': State)
    requires Leads(from, s) && c != d && At(s, c, AtExit) && At(s, d, Filled) && s.count == 1 && !s.tidValid
    ensures Leads(from, s') && s'.count == 0 && !s'.tidValid && Is(s', s'.tid, Running) && c !in s'.callers
  {
    s' := Go(from, s, Leave(c));
    s' := Go(from, s', Spawn(d));
  }

  // With the lock free beside an active runner that the context does not name, a call gets in.
  lemma RunsBeside(from: State, s: State, c: int) returns (s': State)
    requires Leads(from, s) && s.count == 0 && !s.tidValid && Is(s, s.tid, Running) && c !in s.callers
    ensures Leads(from, s') && s'.overwrites && Is(s', s.tid, Running) && Is(s', s.tid + 1, Running)
  {
    s' := Go(from, s, Acquire(c));
    s' := FillIn(from, s', c);
    s' := Go(from, s', Spawn(c));
  }

  /**
   * Overlap always breaks the promises. Whenever a call enters beside another,
   * some continuation has two active runners and has overwritten the context
   * of a live one: the first call, at its exit, sees the context cleared by the
   * second and releases the second one's lock, so a further call gets in.
   */
  lemma OverlapBreaks(s: State, d: int) returns (s': State)
    requires Inv(s) && Enters(s, Acquire(d)) && !NoCall(s)
    ensures Leads(Next(s, Acquire(d)), s') && s'.overwrites
    ensures exists t, u :: t != u && Is(s', t, Running) && Is(s', u, Running)
  {
    var from := Next(s, Acquire(d));
    var c :| c in s.callers;
    Stay(from);
    s' := BringOut(from, from, c, d);
    s' := FillIn(from, s', d);
    s' := LockStolen(from, s', c, d);
    var t := s'.tid;
    s' := RunsBeside(from, s', c);
    assert Is(s', t, Running) && Is(s', t + 1, Running);
  }

  lemma Reach(s: State, e: Step, t: State)
    requires Leads(INIT, s) && Next(s, e) == t
    ensures Leads(INIT, t)
  {
    var _ := Go(INIT, s, e);
  }

  // The state of a first call at the given point, with no runner yet.
  function Alone(pc: Caller): State { State(1, 0, false, map[1 := pc], map[], 1, 0, false, false) }

  lemma AloneMoves(pc: Caller, e: Step, to: Caller)
    requires (pc == Acquired && e == JoinOld(1) && to == Joined) || (pc == Joined && e == Fill(1) && to == Filled)
    ensures Next(Alone(pc), e) == Alone(to)
  {
    assert map[1 := pc][1 := to] == map[1 := to];
  }

  lemma FirstRunner()
    ensures Next(INIT, Acquire(1)) == Alone(Acquired)
    ensures Next(Alone(Filled), Spawn(1)) == State(1, 1, false, map[1 := Spawned], map[1 := Running], 1, 0, false, false)
  {
    assert map[][1 := Acquired] == map[1 := Acquired];
    assert map[1 := Filled][1 := Spawned] == map[1 := Spawned];
    assert map[][1 := Running] == map[1 := Running];
  }

  lemma RunnerReleases()
    ensures Next(State(1, 1, false, map[1 := Spawned], map[1 := Running], 1, 0, false, false), Finish(1))
            == State(0, 1, false, map[1 := Spawned], map[1 := Released], 1, 1, false, false)
  {
    assert map[1 := Running][1 := Released] == map[1 := Released];
  }

  // A first call whose runner has released the lock before the call looked at the context.
  const EARLY := State(0, 1, false, map[1 := Spawned], map[1 := Released], 1, 1, false, false)

  lemma EarlyIsReached()
    ensures Leads(INIT, EARLY)
  {
    Stay(INIT);
    FirstRunner();
    Reach(INIT, Acquire(1), Alone(Acquired));
    AloneMoves(Acquired, JoinOld(1), Joined);
    Reach(Alone(Acquired), JoinOld(1), Alone(Joined));
    AloneMoves(Joined, Fill(1), Filled);
    Reach(Alone(Joined), Fill(1), Alone(Filled));
    var running := State(1, 1, false, map[1 := Spawned], map[1 := Running], 1, 0, false, false);
    Reach(Alone(Filled), Spawn(1), running);
    RunnerReleases();
    Reach(running, Finish(1), EARLY);
  }

  lemma EarlyIsLegal(s: State)
    requires (forall c :: c in s.callers <==> c == 1) && s.callers[1] == Spawned
    requires (forall t :: t in s.runners <==> t == 1) && s.runners[1] == Released
    requires s.count == 0 && s.tid == 1 && !s.tidValid && s.acquires == s.releases && !s.overwrites && !s.underflow
    ensures Inv(s) && Enters(s, Acquire(2)) && !NoCall(s)
  {
    assert 1 in s.callers;
  }

  /** Such an entry is reached. */
  lemma OverlapIsReached() returns (s: State)
    ensures Leads(INIT, s) && Inv(s) && Enters(s, Acquire(2)) && !NoCall(s)
  {
    s := EARLY;
    EarlyIsReached();
    EarlyIsLegal(s);
  }

  // ----- no call gets stuck

  /** A call that gives up leaves, and frees the lock it took. */
  lemma GivingUpReleases(s: State, c: int)
    requires Inv(s) && At(s, c, Filled)
    ensures var s' := Next(Next(s, GiveUp(c)), Leave(c));
            s'.count == 0 && s'.releases == s.releases + 1 && c !in s'.callers && s'.runners == s.runners
  {
  }

  // A call that starts its runner and leaves; the lock stays with the runner.
  lemma CallLeaves(from: State, s: State, c: int) returns (s': State)
    requires Leads(from, s) && At(s, c, Filled)
    ensures Leads(from, s') && s'.count == s.count && c !in s'.callers && Is(s', s.tid + 1, Running)
    ensures s'.releases == s.releases
  {
    s' := Go(from, s, Spawn(c));
    s' := Go(from, s', MarkValid(c));
    s' := Go(from, s', Leave(c));
  }

  lemma RunnerLeaves(from: State, s: State, t: int) returns (s': State)
    requires Leads(from, s) && Is(s, t, Running) && s.count == 1
    ensures Leads(from, s') && s'.count == 0 && s'.callers == s.callers && Is(s', t, Exited)
    ensures s'.releases == s.releases + 1
  {
    s' := Go(from, s, Finish(t));
    s' := Go(from, s', Exit(t));
  }

  /** A free lock can be taken, and a call that runs its script to the end frees it again. */
  lemma CallRuns(s: State, c: int) returns (s': State)
    requires s.count == 0 && c !in s.callers && (s.tidValid ==> Is(s, s.tid, Exited))
    ensures Leads(s, s') && s'.count == 0 && c !in s'.callers && Is(s', s.tid + 1, Exited)
    ensures s'.releases == s.releases + 1
  {
    Stay(s);
    s' := Go(s, s, Acquire(c));
    s' := FillIn(s, s', c);
    assert s'.releases == s.releases;
    s' := CallLeaves(s, s', c);
    s' := RunnerLeaves(s, s', s.tid + 1);
  }
}
