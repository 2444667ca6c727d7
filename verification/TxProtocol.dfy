/**
 * Producers and the drain, interleaved. Every step is one critical section of
 * the queue's mutex, or one write; producers may run between any two steps of
 * a drain.
 */
module TxProtocol {
  import opened Options

  datatype Step =
    | Enqueue(m: int)           // a producer
    | Offer(m: int)             // the producer of connect messages
    | Pull                      // the drain takes the queue
    | PullConnect               // then the connect message
    | Send(written: bool)       // then writes, or drops, one message at a time
    | Finish

  datatype Sent = Sent(m: int, isConnect: bool, drain: nat, written: bool)

  datatype Drain = Idle | HasQueue(ms: seq<int>) | Sending(c: Option<int>, ms: seq<int>)

  // `enqueued`, `out`, `replaced` and `offered` are histories.
  datatype State = State(queue: seq<int>, connect: Option<int>, drain: Drain, drains: nat,
                         enqueued: seq<int>, offered: seq<int>, replaced: nat, out: seq<Sent>)

  const INIT := State([], None, Idle, 0, [], [], 0, [])

  // A step that is not enabled changes nothing.
  function Next(s: State, e: Step): State {
    match e
    case Enqueue(m) => s.(queue := s.queue + [m], enqueued := s.enqueued + [m])
    case Offer(m) =>
      s.(connect := Some(m), offered := s.offered + [m],
         replaced := s.replaced + (if s.connect.Some? then 1 else 0))
    case Pull => if s.drain.Idle? then s.(queue := [], drain := HasQueue(s.queue), drains := s.drains + 1) else s
    case PullConnect =>
      if s.drain.HasQueue? then s.(connect := None, drain := Sending(s.connect, s.drain.ms)) else s
    case Send(w) =>
      if !s.drain.Sending? then s
      else if s.drain.c.Some? then
        s.(drain := Sending(None, s.drain.ms), out := s.out + [Sent(s.drain.c.value, true, s.drains, w)])
      else if s.drain.ms != [] then
        s.(drain := Sending(None, s.drain.ms[1..]), out := s.out + [Sent(s.drain.ms[0], false, s.drains, w)])
      else s
    case Finish => if s.drain == Sending(None, []) then s.(drain := Idle) else s
  }

  function Run(s: State, es: seq<Step>): State
    decreases es
  {
    if es == [] then s else Run(Next(s, es[0]), es[1..])
  }

  // The regular messages among those that left, and the number of connect messages.
  function Regular(out: seq<Sent>): seq<int> {
    if out == [] then []
    else
      var n := |out| - 1;
      Regular(out[..n]) + (if out[n].isConnect then [] else [out[n].m])
  }

  function Connects(out: seq<Sent>): nat {
    if out == [] then 0
    else
      var n := |out| - 1;
      Connects(out[..n]) + (if out[n].isConnect then 1 else 0)
  }

  function InFlight(d: Drain): seq<int> { if d.Idle? then [] else d.ms }

  function ConnectInFlight(d: Drain): nat { if d.Sending? && d.c.Some? then 1 else 0 }

  // A connect message is the first of its drain, so there is at most one.
  ghost predicate ConnectFirst(out: seq<Sent>) {
    forall i, j :: 0 <= i < j < |out| && out[j].isConnect ==> out[i].drain < out[j].drain
  }

  // Nothing enqueued is lost, repeated or overtaken.
  ghost predicate Fifo(s: State) { s.enqueued == Regular(s.out) + InFlight(s.drain) + s.queue }

  // Every connect message is accounted for, and the newest one is waiting.
  ghost predicate Accounted(s: State) {
    && |s.offered| == s.replaced + Connects(s.out) + ConnectInFlight(s.drain) + (if s.connect.Some? then 1 else 0)
    && (s.connect.Some? ==> s.offered != [] && s.connect.value == s.offered[|s.offered| - 1])
  }

  ghost predicate Ordered(s: State) {
    && ConnectFirst(s.out)
    && (forall i :: 0 <= i < |s.out| ==> s.out[i].drain <= s.drains)
    && ((s.drain.HasQueue? || (s.drain.Sending? && s.drain.c.Some?)) ==>
          forall i :: 0 <= i < |s.out| ==> s.out[i].drain < s.drains)
  }

  ghost predicate Inv(s: State) { Fifo(s) && Accounted(s) && Ordered(s) }

  lemma OutGrows(out: seq<Sent>, x: Sent)
    ensures Regular(out + [x]) == Regular(out) + (if x.isConnect then [] else [x.m])
    ensures Connects(out + [x]) == Connects(out) + (if x.isConnect then 1 else 0)
  {
    assert (out + [x])[..|out|] == out;
  }

  // The message a Send step takes, if any.
  function Taken(s: State, e: Step): Option<Sent> {
    if !e.Send? || !s.drain.Sending? then None
    else if s.drain.c.Some? then Some(Sent(s.drain.c.value, true, s.drains, e.written))
    else if s.drain.ms != [] then Some(Sent(s.drain.ms[0], false, s.drains, e.written))
    else None
  }

  // What left, what is in flight and what is queued, under each kind of step.
  ghost predicate InLine(left: seq<int>, flight: seq<int>, queue: seq<int>, all: seq<int>) {
    left + flight + queue == all
  }

  lemma LineMoves(left: seq<int>, flight: seq<int>, queue: seq<int>, all: seq<int>, m: int)
    requires InLine(left, flight, queue, all)
    ensures InLine(left, flight, queue + [m], all + [m])
    ensures flight == [] ==> InLine(left, queue, [], all)
    ensures flight != [] ==> InLine(left + [flight[0]], flight[1..], queue, all)
  {
    assert (left + flight + queue) + [m] == left + flight + (queue + [m]);
    assert flight == [] ==> left + queue + [] == left + flight + queue;
    assert flight != [] ==> flight == [flight[0]] + flight[1..];
  }

  lemma NextKeepsFifo(s: State, e: Step, s': State)
    requires Fifo(s) && s' == Next(s, e)
    ensures Fifo(s')
  {
    var left := Regular(s.out);
    assert InLine(left, InFlight(s.drain), s.queue, s.enqueued);
    LineMoves(left, InFlight(s.drain), s.queue, s.enqueued, if e.Enqueue? then e.m else 0);
    SentLeft(s, e, s', left);
    assert InLine(Regular(s'.out), InFlight(s'.drain), s'.queue, s'.enqueued);
  }

  lemma SentLeft(s: State, e: Step, s': State, left: seq<int>)
    requires s' == Next(s, e) && left == Regular(s.out)
    ensures var t := Taken(s, e);
            Regular(s'.out) == if t.Some? && !t.value.isConnect then left + [t.value.m] else left
  {
    var t := Taken(s, e);
    if t.Some? {
      OutGrows(s.out, t.value);
      assert left + [] == left;
    } else {
      assert s'.out == s.out;
    }
  }

  lemma SentCounts(s: State, e: Step, s': State, n: nat)
    requires s' == Next(s, e) && n == Connects(s.out)
    ensures Connects(s'.out) == if Taken(s, e).Some? && Taken(s, e).value.isConnect then n + 1 else n
  {
    var t := Taken(s, e);
    if t.Some? {
      OutGrows(s.out, t.value);
    } else {
      assert s'.out == s.out;
    }
  }

  lemma NextKeepsAccounted(s: State, e: Step, s': State)
    requires Accounted(s) && s' == Next(s, e)
    ensures Accounted(s')
  {
    SentCounts(s, e, s', Connects(s.out));
  }

  lemma NextKeepsOrdered(s: State, e: Step, s': State)
    requires Ordered(s) && s' == Next(s, e)
    ensures Ordered(s')
  {
    var t := Taken(s, e);
    assert s'.out == if t.Some? then s.out + [t.value] else s.out;
  }

  lemma NextKeepsInv(s: State, e: Step)
    requires Inv(s)
    ensures Inv(Next(s, e))
  {
    var s' := Next(s, e);
    NextKeepsFifo(s, e, s');
    NextKeepsAccounted(s, e, s');
    NextKeepsOrdered(s, e, s');
  }

  lemma {:induction false} RunKeepsInv(s: State, es: seq<Step>, out: State)
    requires Inv(s) && out == Run(s, es)
    ensures Inv(out)
    decreases es
  {
    if es != [] {
      NextKeepsInv(s, es[0]);
      RunKeepsInv(Next(s, es[0]), es[1..], out);
    }
  }

  /**
   * In every interleaving: what left is a prefix of what was enqueued, in
   * order and without loss or repetition, and all of it once queue and drain
   * are empty; no drain sends two connect messages, and a connect message
   * leads its drain; every connect message was sent, replaced by a newer one,
   * or is still waiting.
   */
  lemma EveryInterleaving(es: seq<Step>, s: State)
    requires s == Run(INIT, es)
    ensures Regular(s.out) + InFlight(s.drain) + s.queue == s.enqueued
    ensures s.queue == [] && InFlight(s.drain) == [] ==> Regular(s.out) == s.enqueued
    ensures forall i, j :: 0 <= i < j < |s.out| && s.out[j].isConnect ==> s.out[i].drain < s.out[j].drain
    ensures |s.offered| == s.replaced + Connects(s.out) + ConnectInFlight(s.drain) + (if s.connect.Some? then 1 else 0)
    ensures s.connect.Some? ==> s.offered != [] && s.connect.value == s.offered[|s.offered| - 1]
  {
    RunKeepsInv(INIT, es, s);
  }

  // ----- what a drain gets done

  // Of the first n messages enqueued, none is still queued.
  ghost predicate Past(s: State, n: nat) { |Regular(s.out)| + |InFlight(s.drain)| >= n }

  lemma NextKeepsPast(s: State, e: Step, s': State, n: nat)
    requires Past(s, n) && s' == Next(s, e)
    ensures Past(s', n)
  {
    SentLeft(s, e, s', Regular(s.out));
  }

  lemma {:induction false} RunKeepsPast(s: State, es: seq<Step>, out: State, n: nat)
    requires Past(s, n) && out == Run(s, es)
    ensures Past(out, n)
    decreases es
  {
    if es != [] {
      NextKeepsPast(s, es[0], Next(s, es[0]), n);
      RunKeepsPast(Next(s, es[0]), es[1..], out, n);
    }
  }

  /**
   * Once a drain that takes the queue has finished, everything enqueued before
   * it began has left, in order, whatever the producers did meanwhile.
   */
  lemma DrainSends(s: State, es: seq<Step>, out: State)
    requires Inv(s) && s.drain.Idle? && out == Run(Next(s, Pull), es) && out.drain.Idle?
    ensures s.enqueued <= Regular(out.out)
  {
    var taken := Next(s, Pull);
    NextKeepsInv(s, Pull);
    assert Past(taken, |s.enqueued|);
    RunKeepsPast(taken, es, out, |s.enqueued|);
    RunKeepsInv(taken, es, out);
    RunKeepsEnqueued(taken, es, out);
    assert Regular(out.out) + [] + out.queue == out.enqueued;
  }

  lemma {:induction false} RunKeepsEnqueued(s: State, es: seq<Step>, out: State)
    requires out == Run(s, es)
    ensures s.enqueued <= out.enqueued
    decreases es
  {
    if es != [] {
      RunKeepsEnqueued(Next(s, es[0]), es[1..], out);
    }
  }

  // The connect message m is in the drain's hands, or has left as one.
  ghost predicate OnItsWay(s: State, m: int) {
    || (s.drain.Sending? && s.drain.c == Some(m))
    || exists i :: 0 <= i < |s.out| && s.out[i].isConnect && s.out[i].m == m
  }

  lemma {:induction false} RunKeepsOnItsWay(s: State, es: seq<Step>, out: State, m: int)
    requires OnItsWay(s, m) && out == Run(s, es)
    ensures OnItsWay(out, m)
    decreases es
  {
    if es != [] {
      var s' := Next(s, es[0]);
      if i :| 0 <= i < |s.out| && s.out[i].isConnect && s.out[i].m == m {
        assert s'.out[i] == s.out[i];
      } else if es[0].Send? {
        assert s'.out[|s.out|].isConnect;
      }
      RunKeepsOnItsWay(s', es[1..], out, m);
    }
  }

  /** A connect message that waits when the drain asks for it has left when the drain is finished. */
  lemma ConnectSent(s: State, es: seq<Step>, out: State)
    requires s.drain.HasQueue? && s.connect.Some? && out == Run(Next(s, PullConnect), es) && out.drain.Idle?
    ensures exists i :: 0 <= i < |out.out| && out.out[i].isConnect && out.out[i].m == s.connect.value
  {
    RunKeepsOnItsWay(Next(s, PullConnect), es, out, s.connect.value);
  }

  // The sends and the finish that a drain under way still needs.
  function Remaining(d: Drain): seq<Step>
    decreases if d.Sending? then |d.ms| + (if d.c.Some? then 1 else 0) else 0
  {
    if !d.Sending? then []
    else if d.c.Some? then [Send(true)] + Remaining(Sending(None, d.ms))
    else if d.ms != [] then [Send(true)] + Remaining(Sending(None, d.ms[1..]))
    else [Finish]
  }

  /** A drain that sends is never stuck: each send takes one message, and then it can finish. */
  lemma {:induction false} DrainFinishes(s: State, out: State)
    requires s.drain.Sending? && out == Run(s, Remaining(s.drain))
    ensures out.drain.Idle? && out.queue == s.queue && out.connect == s.connect
    ensures |out.out| == |s.out| + |s.drain.ms| + if s.drain.c.Some? then 1 else 0
    decreases |s.drain.ms| + if s.drain.c.Some? then 1 else 0
  {
    var es := Remaining(s.drain);
    var s' := Next(s, es[0]);
    if s.drain.c.Some? || s.drain.ms != [] {
      assert es[1..] == Remaining(s'.drain);
      DrainFinishes(s', out);
    } else {
      assert es[1..] == [];
    }
  }
}
