/**
 * Bitmaps over 32-bit words: set and test, the two linear searches, and the
 * for-each loop built from them.
 */
module Bitmaps {

  function Mask(k: nat): bv32
    requires k < 32
  {
    (1 as bv32) << k
  }

  predicate Test(a: seq<bv32>, k: nat)
    requires k < 32 * |a|
  {
    a[k / 32] & Mask(k % 32) != 0
  }

  lemma MaskSets(w: bv32, i: nat, j: nat)
    requires i < 32 && j < 32
    ensures ((w | Mask(i)) & Mask(j) != 0) <==> (i == j || w & Mask(j) != 0)
  {
  }

  ghost function BitsOf(a: seq<bv32>): set<nat> {
    set k: nat | 0 <= k < 32 * |a| && Test(a, k)
  }

  // `it` is the first member of s from `from` on, or len when there is none below len.
  ghost predicate IsNext(s: set<nat>, from: nat, len: nat, it: nat) {
    && it <= len && (it < len ==> from <= it && it in s)
    && forall k :: from <= k < it ==> k !in s
  }

  class Bitmap {
    const words: array<bv32>

    ghost function Bits(): set<nat>
      reads words
    {
      BitsOf(words[..])
    }

    function Size(): nat { 32 * words.Length }

    constructor (bits: nat)
      ensures fresh(words) && Bits() == {} && bits <= Size() < bits + 32
    {
      words := new bv32[(bits + 31) / 32](_ => 0);
    }

    method SetBit(k: nat)
      requires k < Size()
      modifies words
      ensures Bits() == old(Bits()) + {k}
    {
      ghost var was := words[..];
      words[k / 32] := words[k / 32] | Mask(k % 32);
      forall j: nat | j < Size() ensures Test(words[..], j) <==> Test(was, j) || j == k {
        if j / 32 == k / 32 {
          MaskSets(was[k / 32], k % 32, j % 32);
          assert j % 32 == k % 32 ==> j == k;
        }
      }
    }

    method ClearAll()
      modifies words
      ensures Bits() == {}
    {
      forall i | 0 <= i < words.Length {
        words[i] := 0;
      }
      assert forall k: nat | k < Size() :: !Test(words[..], k);
    }

    method TestBit(k: nat) returns (b: bool)
      requires k < Size()
      ensures b <==> k in Bits()
    {
      b := words[k / 32] & Mask(k % 32) != 0;
      assert b == Test(words[..], k);
    }

    method FindFirst(len: nat) returns (it: nat)
      requires len <= Size()
      ensures IsNext(Bits(), 0, len, it)
    {
      it := 0;
      while it < len
        invariant it <= len && forall k :: 0 <= k < it ==> k !in Bits()
      {
        var b := TestBit(it);
        if b {
          break;
        }
        it := it + 1;
      }
    }

    // The source scans from bit 0 again.
    method FindNext(len: nat, bit: nat) returns (it: nat)
      requires bit <= len <= Size()
      ensures IsNext(Bits(), bit, len, it)
    {
      it := 0;
      while it < len
        invariant it <= len && forall k :: bit <= k < it ==> k !in Bits()
      {
        var b := TestBit(it);
        if b && it >= bit {
          break;
        }
        it := it + 1;
      }
    }

    /** For-each visits exactly the set bits below len, once each, in increasing order. */
    method ForEach(len: nat) returns (visited: seq<nat>)
      requires len <= Size()
      ensures forall i, j :: 0 <= i < j < |visited| ==> visited[i] < visited[j]
      ensures forall k :: k in visited <==> k < len && k in Bits()
    {
      visited := [];
      var bit := FindFirst(len);
      while bit < len
        invariant bit <= len && (bit < len ==> bit in Bits())
        invariant forall i, j :: 0 <= i < j < |visited| ==> visited[i] < visited[j]
        invariant forall i :: 0 <= i < |visited| ==> visited[i] < bit
        invariant forall k :: k in visited <==> k < bit && k in Bits()
        decreases len - bit
      {
        visited := visited + [bit];
        bit := FindNext(len, bit + 1);
      }
    }
  }
}
