/**
 * The transmit queue: a linked list with head and tail, a separate slot for
 * the connect message, and the drain that empties both.
 */
module TxQueue {

  class Msg {
    var next: Msg?
    const data: int

    constructor (d: int)
      ensures data == d && next == null
    {
      data, next := d, null;
    }
  }

  // ms is the list from `head`: linked in order, ended by null, without cycles.
  ghost predicate IsList(head: Msg?, ms: seq<Msg>)
    reads ms
  {
    && head == (if ms == [] then null else ms[0])
    && (forall i {:trigger ms[i].next} :: 0 <= i < |ms| - 1 ==> ms[i].next == ms[i + 1])
    && (ms != [] ==> ms[|ms| - 1].next == null)
    && (forall i, j :: 0 <= i < j < |ms| ==> ms[i] != ms[j])
  }

  // What became of a message taken from the queue.
  datatype Fate = Written | Failed | Closed

  class Queue {
    var head: Msg?
    var tail: Msg?
    var connect: Msg?
    ghost var list: seq<Msg>

    ghost predicate Valid()
      reads this, list, connect
    {
      && IsList(head, list)
      && tail == (if list == [] then null else list[|list| - 1])
      && (connect != null ==> connect !in list && connect.next == null)
    }

    constructor ()
      ensures Valid() && list == [] && connect == null
    {
      head, tail, connect, list := null, null, null, [];
    }

    /** The message goes to the end; the list keeps its shape. */
    method Enqueue(msg: Msg)
      requires Valid() && msg.next == null && msg !in list && msg != connect
      modifies this`head, this`tail, this`list, tail
      ensures Valid() && list == old(list) + [msg] && connect == old(connect)
    {
      if tail != null {
        tail.next := msg;
        tail := msg;
      } else {
        head := msg;
        tail := msg;
      }
      list := list + [msg];
    }

    /** Everything queued leaves at once, in order. */
    method Pull() returns (first: Msg?, ghost taken: seq<Msg>)
      requires Valid()
      modifies this`head, this`tail, this`list
      ensures Valid() && list == [] && connect == old(connect)
      ensures taken == old(list) && IsList(first, taken)
    {
      first, taken := head, list;
      head := null;
      tail := null;
      list := [];
    }

    method SetConnect(msg: Msg)
      requires Valid() && msg.next == null && msg !in list
      modifies this`connect
      ensures Valid() && connect == msg && list == old(list)
    {
      connect := msg;
    }

    method ConnectPull() returns (msg: Msg?)
      requires Valid()
      modifies this`connect
      ensures Valid() && msg == old(connect) && connect == null && list == old(list)
    {
      msg := connect;
      connect := null;
    }

    /**
     * The drain: the connect message first, then the queue in order, each
     * message exactly once, whatever the socket does with it.
     */
    method Drain(open: bool, refused: set<nat>) returns (log: seq<(int, Fate)>)
      requires Valid()
      modifies this, connect
      ensures Valid() && list == [] && connect == null
      ensures IsLog(log, (if old(connect) == null then [] else [old(connect)]) + old(list), open, refused)
    {
      var txq, taken := Pull();
      var c := ConnectPull();
      assert IsList(txq, taken) && c !in taken;
      ghost var all;
      txq, all := Prepend(c, txq, taken);
      log := WriteAll(txq, all, open, refused);
    }
  }

  // Every message in order, with what the socket did with it.
  ghost predicate IsLog(log: seq<(int, Fate)>, sent: seq<Msg>, open: bool, refused: set<nat>) {
    |log| == |sent| && forall i :: 0 <= i < |log| ==> 
      && log[i].0 == sent[i].data
      && log[i].1 == if !open then Closed else if i in refused then Failed else Written
  }

  method Prepend(c: Msg?, first: Msg?, ghost taken: seq<Msg>) returns (txq: Msg?, ghost all: seq<Msg>)
    requires IsList(first, taken) && (c != null ==> c !in taken)
    modifies c
    ensures all == (if c == null then [] else [c]) + taken && IsList(txq, all)
  {
    txq, all := first, taken;
    if c != null {
      c.next := txq;
      txq := c;
      all := [c] + taken;
      forall i | 0 <= i < |all| - 1 ensures all[i].next == all[i + 1] {
        if i > 0 {
          assert all[i] == taken[i - 1] && taken[i - 1] != c;
          assert old(taken[i - 1].next) == taken[i];
        }
      }
    }
  }

  method WriteAll(first: Msg?, ghost all: seq<Msg>, open: bool, refused: set<nat>) returns (log: seq<(int, Fate)>)
    requires IsList(first, all)
    ensures IsLog(log, all, open, refused)
  {
    var txq := first;
    log := [];
    while txq != null
      invariant |log| <= |all| && IsLog(log, all[..|log|], open, refused)
      invariant txq == if |log| < |all| then all[|log|] else null
      decreases |all| - |log|
    {
      var m := txq;
      txq := txq.next;
      var fate := if !open then Closed else if |log| in refused then Failed else Written;
      log := log + [(m.data, fate)];
    }
    assert all[..|all|] == all;
  }
}
