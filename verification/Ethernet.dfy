/**
 * The ethernet section of a configuration: which ports each entry selects,
 * and the port records and the to-configure set that come out.
 */
module Ethernet {
  import opened Options
  import opened Bitmaps
  import Poe

  const MAX_NUM_OF_PORTS: nat := 100
  const SELECT_ALL: nat := 255

  // A name in a port selection. Port names are written by their number.
  // `Truncated` ends before its number; the source then uses an id it never set.
  datatype Name = Star | Numbered(n: nat) | Truncated(stale: nat) | Unreadable

  // Port ids are 16 bits wide; the wildcard is an id too.
  function IdOf(name: Name): Option<nat> {
    match name
    case Star => Some(SELECT_ALL)
    case Numbered(n) => Some(n % 0x1_0000)
    case Truncated(stale) => Some(stale % 0x1_0000)
    case Unreadable => None
  }

  predicate IsWild(name: Name) { IdOf(name) == Some(SELECT_ALL) }

  // An optional sub-object of an entry, already parsed.
  datatype Sub<T> = Absent | WrongType | Malformed | Parsed(value: T)

  datatype Dot1x = Dot1x(authenticator: bool, control: nat, host: nat, guestVid: nat, failVid: nat)

  // `speed` is absent for a missing number, which is not a number and so not zero.
  datatype Entry = Entry(enabled: bool, duplex: Option<string>, speed: Option<real>, select: Option<seq<Name>>,
                         poe: Sub<Poe.Config>, dot1x: Sub<Dot1x>)

  // What an entry says about a port.
  datatype Body = Body(speed: nat, duplex: string, enabled: bool, poe: Poe.Config, dot1x: Dot1x)

  const NO_POE := Poe.Config(None, None, None, false, false)
  const NO_DOT1X := Dot1x(false, 0, 0, 0, 0)
  const ZERO := Body(0, "", false, NO_POE, NO_DOT1X)

  // A port record; the name is its number, absent while the text is empty.
  datatype Port = Port(name: Option<nat>, fpId: nat, body: Body)

  const EMPTY := Port(None, 0, ZERO)

  function Made(p: nat, b: Body): Port { Port(Some(p), p, b) }

  function ValueOf<T>(s: Sub<T>, default: T): T {
    if s.Parsed? then s.value else default
  }

  // A speed that is not in the table leaves the record's speed at zero.
  function SpeedOf(speed: Option<real>): nat {
    if speed.None? then 0
    else if speed.value in {10.0, 100.0, 1000.0, 2500.0, 5000.0, 10000.0, 25000.0, 100000.0} then
      assert speed.value >= 0.0; speed.value.Floor
    else 0
  }

  function BodyOf(e: Entry): Body {
    Body(SpeedOf(e.speed), if e.duplex.Some? then e.duplex.value else "", e.enabled,
         ValueOf(e.poe, NO_POE), ValueOf(e.dot1x, NO_DOT1X))
  }

  /** What each name is taken for: a star is id 255, a number is cut to 16 bits, other text is refused. */
  lemma NamesMean(n: nat)
    ensures IsWild(Star) && IdOf(Unreadable) == None
    ensures n < 0x1_0000 ==> IdOf(Numbered(n)) == Some(n)
    ensures IdOf(Numbered(n + 0x1_0000)) == IdOf(Numbered(n))
  {
  }

  /**
   * The record an entry makes of a port, field by field: its number, the
   * entry's state and duplex, a speed of the table or zero, and the sub-objects
   * or, without them, nothing set.
   */
  lemma RecordMeans(e: Entry, p: nat, r: Port, s: nat)
    requires r == Made(p, BodyOf(e)) && SubOk(e.poe) && SubOk(e.dot1x)
    ensures r.name == Some(p) && r.fpId == p && r.body.enabled == e.enabled
    ensures e.duplex.Some? ==> r.body.duplex == e.duplex.value
    ensures s in {10, 100, 1000, 2500, 5000, 10000, 25000, 100000} && e.speed == Some(s as real) ==> r.body.speed == s
    ensures r.body.speed == 0 || e.speed == Some(r.body.speed as real)
    ensures if e.poe.Parsed? then r.body.poe == e.poe.value
            else
              && r.body.poe.detection.None? && r.body.poe.priority.None? && r.body.poe.limit.None?
              && !r.body.poe.adminUp && !r.body.poe.doReset
    ensures if e.dot1x.Parsed? then r.body.dot1x == e.dot1x.value
            else !r.body.dot1x.authenticator && r.body.dot1x.guestVid == r.body.dot1x.failVid == 0
  {
  }

  /* ---- port selection ---- */

  // No wildcard at or before i.
  ghost predicate Plain(sel: seq<Name>, i: nat)
    requires i < |sel|
  {
    forall j :: 0 <= j <= i ==> !IsWild(sel[j])
  }

  // Every name before the first wildcard is a port of the platform.
  ghost predicate SelectOk(sel: seq<Name>, plat: set<nat>) {
    forall i :: 0 <= i < |sel| && Plain(sel, i) ==> IdOf(sel[i]).Some? && IdOf(sel[i]).value in plat
  }

  ghost predicate HasWild(sel: seq<Name>) {
    exists i :: 0 <= i < |sel| && IsWild(sel[i])
  }

  // A wildcard anywhere selects the whole platform.
  ghost predicate Chosen(sel: seq<Name>, plat: set<nat>, p: nat) {
    if HasWild(sel) then p in plat else exists i :: 0 <= i < |sel| && IdOf(sel[i]) == Some(p)
  }

  ghost function Ids(list: seq<nat>): set<nat> { set p | p in list }

  method SetAll(list: seq<nat>, b: Bitmap)
    requires forall p :: p in list ==> p < b.Size()
    modifies b.words
    ensures b.Bits() == old(b.Bits()) + Ids(list)
  {
    ghost var was := b.Bits();
    for k := 0 to |list|
      invariant b.Bits() == was + Ids(list[..k])
    {
      assert list[k] in list;
      b.SetBit(list[k]);
      assert list[..k + 1] == list[..k] + [list[k]];
    }
    assert list[..|list|] == list;
  }

  // The first k names are platform ports and none is a wildcard.
  ghost predicate Leading(sel: seq<Name>, k: nat, plat: set<nat>)
    requires k <= |sel|
  {
    forall i :: 0 <= i < k ==> !IsWild(sel[i]) && IdOf(sel[i]).Some? && IdOf(sel[i]).value in plat
  }

  ghost predicate Names(sel: seq<Name>, k: nat, bits: set<nat>)
    requires k <= |sel|
  {
    forall p: nat :: p in bits <==> exists i :: 0 <= i < k && IdOf(sel[i]) == Some(p)
  }

  lemma BadNameRefused(sel: seq<Name>, k: nat, plat: set<nat>)
    requires k < |sel| && Leading(sel, k, plat)
    requires !IsWild(sel[k]) && (IdOf(sel[k]).None? || IdOf(sel[k]).value !in plat)
    ensures !SelectOk(sel, plat)
  {
    assert Plain(sel, k);
  }

  lemma WildEnds(sel: seq<Name>, k: nat, plat: set<nat>, bits: set<nat>)
    requires k < |sel| && Leading(sel, k, plat) && Names(sel, k, bits) && IsWild(sel[k])
    ensures SelectOk(sel, plat) && HasWild(sel) && bits + plat == plat
  {
    forall i | 0 <= i < |sel| && Plain(sel, i) ensures IdOf(sel[i]).Some? && IdOf(sel[i]).value in plat {
      assert i < k;
    }
  }

  lemma NamesStep(sel: seq<Name>, k: nat, plat: set<nat>, bits: set<nat>, id: nat)
    requires k < |sel| && Leading(sel, k, plat) && Names(sel, k, bits)
    requires IdOf(sel[k]) == Some(id) && id != SELECT_ALL && id in plat
    ensures Leading(sel, k + 1, plat) && Names(sel, k + 1, bits + {id})
  {
  }

  /** Fails exactly when a name before the first wildcard is not a platform port. */
  method SelectPorts(sel: seq<Name>, list: seq<nat>, b: Bitmap) returns (ok: bool, count: nat)
    requires b.Size() >= MAX_NUM_OF_PORTS && forall p :: p in list ==> p < MAX_NUM_OF_PORTS
    modifies b.words
    ensures ok == SelectOk(sel, Ids(list))
    ensures ok ==> forall p: nat :: p in b.Bits() <==> Chosen(sel, Ids(list), p)
    ensures ok ==> (count == 0 <==> if HasWild(sel) then list == [] else sel == [])
  {
    ghost var plat := Ids(list);
    var avail := new Bitmap(MAX_NUM_OF_PORTS);
    b.ClearAll();
    count := 0;
    SetAll(list, avail);
    for k := 0 to |sel|
      invariant avail.Bits() == plat && fresh(avail.words)
      invariant Leading(sel, k, plat) && Names(sel, k, b.Bits()) && count == k
    {
      var id := IdOf(sel[k]);
      if id.None? {
        BadNameRefused(sel, k, plat);
        return false, count;
      }
      if id.value == SELECT_ALL {
        WildEnds(sel, k, plat, b.Bits());
        SetAll(list, b);
        return true, |list|;
      }
      var there := false;
      if id.value < MAX_NUM_OF_PORTS {
        there := avail.TestBit(id.value);
      }
      if !there {
        BadNameRefused(sel, k, plat);
        return false, count;
      }
      NamesStep(sel, k, plat, b.Bits(), id.value);
      b.SetBit(id.value);
      count := count + 1;
    }
    return true, count;
  }

  /** The numbers 255 and 65791 name every port, whatever the platform has. */
  lemma TwoNumbersAreWild(plat: set<nat>, p: nat)
    ensures forall n :: n == 255 || n == 65791 ==>
              SelectOk([Numbered(n)], plat) && (Chosen([Numbered(n)], plat, p) <==> p in plat)
  {
    forall n | n == 255 || n == 65791
      ensures SelectOk([Numbered(n)], plat) && (Chosen([Numbered(n)], plat, p) <==> p in plat)
    {
      assert IsWild([Numbered(n)][0]);
    }
  }

  /* ---- entries ---- */

  predicate SubOk<T>(s: Sub<T>) { s.Absent? || s.Parsed? }

  // What the parser demands of an entry.
  ghost predicate EntryOk(e: Entry, list: seq<nat>) {
    && e.duplex.Some? && e.speed != Some(0.0) && e.select.Some?
    && SubOk(e.poe) && SubOk(e.dot1x)
    && SelectOk(e.select.value, Ids(list))
    && if HasWild(e.select.value) then list != [] else e.select.value != []
  }

  /** The ways an entry is malformed. */
  lemma EntryFails(e: Entry, list: seq<nat>)
    ensures !EntryOk(e, list) <==>
            || e.duplex == None || e.speed == Some(0.0) || e.select == None
            || e.poe.WrongType? || e.poe.Malformed? || e.dot1x.WrongType? || e.dot1x.Malformed?
            || !SelectOk(e.select.value, Ids(list))
            || e.select.value == [] || (HasWild(e.select.value) && list == [])
  {
  }

  ghost predicate Selects(e: Entry, list: seq<nat>, p: nat) {
    e.select.Some? && Chosen(e.select.value, Ids(list), p)
  }

  // i is the last entry that selects p.
  ghost predicate IsLast(es: seq<Entry>, list: seq<nat>, p: nat, i: nat) {
    && i < |es| && Selects(es[i], list, p)
    && forall j :: i < j < |es| ==> !Selects(es[j], list, p)
  }

  ghost predicate Untouched(es: seq<Entry>, list: seq<nat>, p: nat) {
    forall i :: 0 <= i < |es| ==> !Selects(es[i], list, p)
  }

  /** The record is the last entry selecting the port, or its id and name alone. */
  ghost predicate IsRecord(es: seq<Entry>, list: seq<nat>, p: nat, r: Port) {
    || (Untouched(es, list, p) && r == Made(p, ZERO))
    || exists i: nat :: IsLast(es, list, p, i) && r == Made(p, BodyOf(es[i]))
  }

  lemma ChosenIsPlatform(sel: seq<Name>, plat: set<nat>, p: nat)
    requires SelectOk(sel, plat) && Chosen(sel, plat, p)
    ensures p in plat
  {
    if !HasWild(sel) {
      var i :| 0 <= i < |sel| && IdOf(sel[i]) == Some(p);
      assert Plain(sel, i);
    }
  }

  lemma RecordReplaced(es: seq<Entry>, e: Entry, list: seq<nat>, p: nat)
    requires Selects(e, list, p)
    ensures IsRecord(es + [e], list, p, Made(p, BodyOf(e)))
  {
    assert IsLast(es + [e], list, p, |es|);
  }

  lemma RecordKept(es: seq<Entry>, e: Entry, list: seq<nat>, p: nat, r: Port)
    requires IsRecord(es, list, p, r) && !Selects(e, list, p)
    ensures IsRecord(es + [e], list, p, r)
  {
    var all := es + [e];
    if Untouched(es, list, p) {
      assert Untouched(all, list, p);
    } else {
      var i: nat :| IsLast(es, list, p, i) && r == Made(p, BodyOf(es[i]));
      assert IsLast(all, list, p, i) && all[i] == es[i];
    }
  }

  /** The record of a port is determined by the entries. */
  lemma RecordIsUnique(es: seq<Entry>, list: seq<nat>, p: nat, r: Port, s: Port)
    requires IsRecord(es, list, p, r) && IsRecord(es, list, p, s)
    ensures r == s
  {
    if !Untouched(es, list, p) {
      var i: nat :| IsLast(es, list, p, i) && r == Made(p, BodyOf(es[i]));
      var j: nat :| IsLast(es, list, p, j) && s == Made(p, BodyOf(es[j]));
      assert i == j;
    }
  }

  // The records of all ports, platform or not.
  ghost predicate Records(es: seq<Entry>, list: seq<nat>, ports: seq<Port>) {
    forall p :: 0 <= p < |ports| ==>
                  if p in Ids(list) then IsRecord(es, list, p, ports[p]) else ports[p] == EMPTY
  }

  lemma RecordsStep(es: seq<Entry>, e: Entry, list: seq<nat>, was: seq<Port>, now: seq<Port>)
    requires Records(es, list, was) && |now| == |was|
    requires forall p :: 0 <= p < |was| ==>
                           now[p] == if p in Ids(list) && Selects(e, list, p) then Made(p, BodyOf(e)) else was[p]
    ensures Records(es + [e], list, now)
  {
    forall p | 0 <= p < |now|
      ensures if p in Ids(list) then IsRecord(es + [e], list, p, now[p]) else now[p] == EMPTY
    {
      if p in Ids(list) {
        if Selects(e, list, p) {
          RecordReplaced(es, e, list, p);
        } else {
          RecordKept(es, e, list, p, was[p]);
        }
      }
    }
  }

  /** The part of the platform configuration these steps fill. */
  class PlatCfg {
    const ports: array<Port>
    const toCfg: Bitmap

    ghost predicate Valid() {
      && ports.Length == MAX_NUM_OF_PORTS && toCfg.Size() >= MAX_NUM_OF_PORTS
      && (ports as object) != toCfg.words
    }

    constructor ()
      ensures Valid() && fresh(ports) && fresh(toCfg.words)
      ensures toCfg.Bits() == {} && forall p :: 0 <= p < ports.Length ==> ports[p] == EMPTY
    {
      ports := new Port[MAX_NUM_OF_PORTS](_ => EMPTY);
      toCfg := new Bitmap(MAX_NUM_OF_PORTS);
    }

    // One record is written and its port marked.
    method Put(i: nat, r: Port)
      requires Valid() && i < MAX_NUM_OF_PORTS
      modifies ports, toCfg.words
      ensures ports[..] == old(ports[..])[i := r] && toCfg.Bits() == old(toCfg.Bits()) + {i}
    {
      ports[i] := r;
      toCfg.SetBit(i);
    }

    /** Every platform port gets its id and name and is to be configured. */
    method InitPorts(list: seq<nat>)
      requires Valid() && forall p :: p in list ==> p < MAX_NUM_OF_PORTS
      requires toCfg.Bits() == {} && forall p :: 0 <= p < ports.Length ==> ports[p] == EMPTY
      modifies ports, toCfg.words
      ensures Records([], list, ports[..]) && toCfg.Bits() == Ids(list)
    {
      for k := 0 to |list|
        invariant toCfg.Bits() == Ids(list[..k])
        invariant forall p :: 0 <= p < ports.Length ==>
                                ports[p] == if p in Ids(list[..k]) then Made(p, ZERO) else EMPTY
      {
        var pid := list[k];
        assert pid in list;
        Put(pid, ports[pid].(name := Some(pid), fpId := pid));
        assert list[..k + 1] == list[..k] + [list[k]];
      }
      assert list[..|list|] == list;
    }

    method Fill(b: Bitmap, body: Body)
      requires Valid() && b.Size() >= MAX_NUM_OF_PORTS && b.words !in {toCfg.words as object, ports}
      modifies ports, toCfg.words
      ensures forall p :: 0 <= p < ports.Length ==>
                            ports[p] == if p in b.Bits() then Made(p, body) else old(ports[p])
      ensures forall p: nat :: p in toCfg.Bits() <==> p in old(toCfg.Bits()) || (p < MAX_NUM_OF_PORTS && p in b.Bits())
    {
      var i := b.FindFirst(MAX_NUM_OF_PORTS);
      while i < MAX_NUM_OF_PORTS
        invariant i <= MAX_NUM_OF_PORTS && (i < MAX_NUM_OF_PORTS ==> i in b.Bits())
        invariant b.Bits() == old(b.Bits())
        invariant forall p :: 0 <= p < ports.Length ==>
                                ports[p] == if p < i && p in b.Bits() then Made(p, body) else old(ports[p])
        invariant forall p: nat :: p in toCfg.Bits() <==> p in old(toCfg.Bits()) || (p < i && p in b.Bits())
        decreases MAX_NUM_OF_PORTS - i
      {
        Put(i, Made(i, body));
        i := b.FindNext(MAX_NUM_OF_PORTS, i + 1);
      }
    }

    /** One entry: refused unless it is well formed, else its ports are overwritten. */
    method ParseEntry(e: Entry, list: seq<nat>, ghost es: seq<Entry>) returns (ok: bool)
      requires Valid() && forall p :: p in list ==> p < MAX_NUM_OF_PORTS
      requires Records(es, list, ports[..]) && toCfg.Bits() == Ids(list)
      modifies ports, toCfg.words
      ensures ok == EntryOk(e, list)
      ensures ok ==> Records(es + [e], list, ports[..])
      ensures toCfg.Bits() == Ids(list)
    {
      if e.duplex.None? || e.speed == Some(0.0) || e.select.None? {
        return false;
      }
      if !SubOk(e.poe) || !SubOk(e.dot1x) {
        return false;
      }
      var b := new Bitmap(MAX_NUM_OF_PORTS);
      var count;
      ok, count := SelectPorts(e.select.value, list, b);
      if !ok || count == 0 {
        return false;
      }
      ghost var was := ports[..];
      forall p: nat ensures p in b.Bits() <==> Selects(e, list, p)
      {
      }
      forall p: nat | p in b.Bits() ensures p in Ids(list) {
        ChosenIsPlatform(e.select.value, Ids(list), p);
      }
      Fill(b, BodyOf(e));
      RecordsStep(es, e, list, was, ports[..]);
    }

    /**
     * The whole section. It succeeds exactly when every entry is well formed;
     * then each platform port's record is the last entry selecting it, or its
     * id and name, and the ports to configure are the platform's.
     */
    method CfgEthernetParse(es: seq<Entry>, list: seq<nat>) returns (ok: bool)
      requires Valid() && forall p :: p in list ==> p < MAX_NUM_OF_PORTS
      requires Records([], list, ports[..]) && toCfg.Bits() == Ids(list)
      modifies ports, toCfg.words
      ensures ok <==> forall i :: 0 <= i < |es| ==> EntryOk(es[i], list)
      ensures ok ==> Records(es, list, ports[..])
      ensures toCfg.Bits() == Ids(list)
    {
      for k := 0 to |es|
        invariant forall i :: 0 <= i < k ==> EntryOk(es[i], list)
        invariant Records(es[..k], list, ports[..]) && toCfg.Bits() == Ids(list)
      {
        ok := ParseEntry(es[k], list, es[..k]);
        if !ok {
          return;
        }
        assert es[..k + 1] == es[..k] + [es[k]];
      }
      assert es[..|es|] == es;
      return true;
    }

    /** Both steps on a new configuration; no platform port list, no configuration. */
    method CfgParsePorts(es: seq<Entry>, fetched: Option<seq<nat>>) returns (ok: bool)
      requires Valid() && (fetched.Some? ==> forall p :: p in fetched.value ==> p < MAX_NUM_OF_PORTS)
      requires toCfg.Bits() == {} && forall p :: 0 <= p < ports.Length ==> ports[p] == EMPTY
      modifies ports, toCfg.words
      ensures ok <==> fetched.Some? && forall i :: 0 <= i < |es| ==> EntryOk(es[i], fetched.value)
      ensures ok ==> Records(es, fetched.value, ports[..]) && toCfg.Bits() == Ids(fetched.value)
    {
      if fetched.None? {
        return false;
      }
      InitPorts(fetched.value);
      ok := CfgEthernetParse(es, fetched.value);
    }
  }
}
