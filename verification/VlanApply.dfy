/**
 * The VLAN part of a configuration apply, on the switch: the loops over
 * bitmaps that remove VLANs and build the batch.
 */
module VlanApply {
  import opened Options
  import opened Bitmaps
  import opened Vlans

  // VLANs the removal pass must not touch.
  predicate Kept(v: nat, cfg: set<nat>) { v in cfg || v == FIRST_VLAN || v >= MAX_VLANS }

  ghost predicate PortsFit(list: seq<Entry>) {
    forall i :: 0 <= i < |list| && list[i].port.Some? ==> list[i].port.value < PORT_BITS
  }

  predicate Parses(list: seq<Entry>) { forall i :: 0 <= i < |list| ==> list[i].port.Some? }

  // The bitmaps of one VLAN's members, as read from the device.
  ghost predicate Shows(mem: set<nat>, tag: set<nat>, vid: nat, cur: map<Key, bool>) {
    forall p :: 0 <= p < MAX_PORTS ==>
      && (p in mem <==> Key(vid, p) in cur)
      && (p in tag <==> At(cur, Key(vid, p)) == Some(true))
  }

  /** The wanted ports and tags, or failure when a name does not parse. */
  method WantedPorts(list: seq<Entry>) returns (ok: bool, ports: Bitmap, tags: Bitmap)
    requires PortsFit(list)
    ensures fresh(ports) && fresh(tags) && fresh(ports.words) && fresh(tags.words)
    ensures ports.Size() == PORT_BITS == tags.Size()
    ensures ok == Parses(list)
    ensures ok ==> ports.Bits() == Ports(list) && tags.Bits() == Tags(list)
  {
    ports := new Bitmap(PORT_BITS);
    tags := new Bitmap(PORT_BITS);
    for i := 0 to |list|
      invariant fresh(ports.words) && fresh(tags.words) && ports.words != tags.words
      invariant Parses(list[..i]) && ports.Bits() == Ports(list[..i]) && tags.Bits() == Tags(list[..i])
    {
      var e := list[i];
      assert list[..i + 1] == list[..i] + [e];
      if e.port.None? {
        assert !Parses(list);
        return false, ports, tags;
      }
      ports.SetBit(e.port.value);
      if e.tagged {
        tags.SetBit(e.port.value);
      }
      PortsGrow(list[..i], e);
    }
    assert list[..|list|] == list;
    ok := true;
  }

  lemma PortsGrow(list: seq<Entry>, e: Entry)
    requires e.port.Some?
    ensures Ports(list + [e]) == Ports(list) + {e.port.value}
    ensures Tags(list + [e]) == Tags(list) + (if e.tagged then {e.port.value} else {})
  {
    forall p | p in Ports(list + [e]) ensures p in Ports(list) + {e.port.value} {
      var x :| x in list + [e] && x.port == Some(p);
      assert x in list || x == e;
    }
    forall p | p in Tags(list + [e]) ensures p in Tags(list) || (e.tagged && p == e.port.value) {
      var x :| x in list + [e] && x.port == Some(p) && x.tagged;
      assert x in list || x == e;
    }
    assert e in list + [e];
  }

  /** Members the device has and the configuration does not. */
  method DeletePass(vid: nat, ports: Bitmap, mem: Bitmap, ghost cur: map<Key, bool>, ghost list: seq<Entry>)
    returns (ds: seq<Key>)
    requires ports.Bits() == Ports(list) && ports.Size() >= MAX_PORTS && mem.Size() >= MAX_PORTS
    requires forall p :: 0 <= p < MAX_PORTS ==> (p in mem.Bits() <==> Key(vid, p) in cur)
    ensures forall k :: k in ds <==> IsDelete(k, map[vid := list], cur)
  {
    ds := [];
    var i := mem.FindFirst(MAX_PORTS);
    while i < MAX_PORTS
      invariant i <= MAX_PORTS && (i < MAX_PORTS ==> i in mem.Bits())
      invariant forall k :: k in ds <==> k.port < i && IsDelete(k, map[vid := list], cur)
      decreases MAX_PORTS - i
    {
      var wanted := ports.TestBit(i);
      if !wanted {
        ds := ds + [Key(vid, i)];
      }
      var i' := mem.FindNext(MAX_PORTS, i + 1);
      forall k: Key | k.port < i' && IsDelete(k, map[vid := list], cur) ensures k.port <= i {
        assert Key(vid, k.port) == k && k.port in mem.Bits();
      }
      i := i';
    }
  }

  /** The VLAN itself, and members that are new or change their tagging. */
  method UpdatePass(vid: nat, ports: Bitmap, tags: Bitmap, mem: Bitmap, tag: Bitmap,
                    ghost cur: map<Key, bool>, ghost list: seq<Entry>)
    returns (us: seq<Update>)
    requires ports.Bits() == Ports(list) && tags.Bits() == Tags(list) && Shows(mem.Bits(), tag.Bits(), vid, cur)
    requires ports.Size() >= MAX_PORTS && tags.Size() >= MAX_PORTS && mem.Size() >= MAX_PORTS && tag.Size() >= MAX_PORTS
    ensures forall u :: u in us <==> IsUpdate(u, map[vid := list], cur)
  {
    us := [AddVlan(vid)];
    var i := ports.FindFirst(MAX_PORTS);
    while i < MAX_PORTS
      invariant i <= MAX_PORTS && (i < MAX_PORTS ==> i in ports.Bits())
      invariant UpTo(us, i, vid, list, cur)
      decreases MAX_PORTS - i
    {
      var tagged := tags.TestBit(i);
      var member := mem.TestBit(i);
      var was := tag.TestBit(i);
      ghost var k, before := Key(vid, i), us;
      assert member <==> k in cur;
      assert was <==> At(cur, k) == Some(true);
      Recorded(cur, k, member, was);
      if !(member && tagged == was) {
        us := us + [SetMember(Key(vid, i), tagged)];
      }
      var i' := ports.FindNext(MAX_PORTS, i + 1);
      UpToNext(before, us, i, i', vid, list, cur, tagged);
      i := i';
    }
  }

  lemma Recorded(cur: map<Key, bool>, k: Key, member: bool, tagged: bool)
    requires (member <==> k in cur) && (tagged <==> At(cur, k) == Some(true))
    ensures forall t: bool :: At(cur, k) == Some(t) <==> member && tagged == t
  {
    if k in cur {
      var b := cur[k];
      assert At(cur, k) == Some(b) && At(cur, k).value == b;
      forall t: bool ensures Some(b) == Some(t) <==> b == t {
        assert Some(b).value == b && Some(t).value == t;
      }
    }
  }

  // The updates for ports below i.
  ghost predicate UpTo(us: seq<Update>, i: nat, vid: nat, list: seq<Entry>, cur: map<Key, bool>) {
    forall u :: u in us <==> (u.SetMember? ==> u.key.port < i) && IsUpdate(u, map[vid := list], cur)
  }

  lemma UpToNext(us: seq<Update>, us': seq<Update>, i: nat, i': nat, vid: nat, list: seq<Entry>, cur: map<Key, bool>, t: bool)
    requires UpTo(us, i, vid, list, cur) && i < i' <= MAX_PORTS
    requires Want(list, i) == Some(t) && forall p :: i < p < i' ==> p !in Ports(list)
    requires us' == if At(cur, Key(vid, i)) == Some(t) then us else us + [SetMember(Key(vid, i), t)]
    ensures UpTo(us', i', vid, list, cur)
  {
    forall u: Update ensures u in us' <==> (u.SetMember? ==> u.key.port < i') && IsUpdate(u, map[vid := list], cur) {
      assert u in us <==> (u.SetMember? ==> u.key.port < i) && IsUpdate(u, map[vid := list], cur);
      if u.SetMember? && IsUpdate(u, map[vid := list], cur) {
        assert u.key.port in Ports(list);
        assert u.key.port == i ==> u == SetMember(Key(vid, i), t);
      }
    }
  }

  // The VLANs left when those below i that are not kept are gone.
  ghost function Remaining(was: set<nat>, cfg: set<nat>, i: nat): set<nat> {
    set v | v in was && (Kept(v, cfg) || v >= i)
  }

  lemma RemainStarts(was: set<nat>, cfg: set<nat>, i: nat)
    requires forall v :: v in was ==> v >= i
    ensures Remaining(was, cfg, i) == was
  {
  }

  lemma RemainStep(was: set<nat>, cfg: set<nat>, i: nat, i': nat)
    requires i < i' && forall v :: v in was && v >= i + 1 ==> v >= i'
    ensures Remaining(was, cfg, i') == if Kept(i, cfg) then Remaining(was, cfg, i) else Remaining(was, cfg, i) - {i}
  {
  }

  lemma NoneBetween(was: set<nat>, read: set<nat>, from: nat, it: nat)
    requires read == (set v | v in was && v < MAX_VLANS) && IsNext(read, from, MAX_VLANS, it)
    ensures forall v :: v in was && v >= from ==> v >= it
    ensures it < MAX_VLANS ==> from <= it && it in was
    ensures it >= MAX_VLANS ==> it == MAX_VLANS
  {
    forall v | v in was && v >= from ensures v >= it {
      assert v < MAX_VLANS ==> v in read;
    }
  }

  lemma RemainBounds(was: set<nat>, cfg: set<nat>, i: nat)
    ensures Remaining(was, cfg, i) <= was && forall v :: v in was && Kept(v, cfg) ==> v in Remaining(was, cfg, i)
  {
  }

  class Switch {
    var vlans: set<nat>
    var members: map<Key, bool>

    ghost function View(): Device
      reads this
    {
      Device(vlans, members)
    }

    constructor (v: set<nat>, m: map<Key, bool>)
      ensures View() == Device(v, m)
    {
      vlans, members := v, m;
    }

    method VlanListGet() returns (bm: Bitmap)
      ensures fresh(bm) && fresh(bm.words) && bm.Size() == MAX_VLANS
      ensures bm.Bits() == set v | v in vlans && v < MAX_VLANS
    {
      bm := new Bitmap(MAX_VLANS);
      for v := 0 to MAX_VLANS
        invariant fresh(bm.words) && bm.Bits() == set x | x in vlans && x < v
      {
        if v in vlans {
          bm.SetBit(v);
        }
      }
    }

    /**
     * On success the VLANs that remain are those configured, VLAN 1 if it was
     * there, and those beyond the bitmap. Even a failure removes none of these.
     */
    method VlanListSet(cfg: Bitmap, faults: set<nat>) returns (ok: bool)
      requires cfg.Size() >= MAX_VLANS
      modifies this`vlans
      ensures vlans <= old(vlans) && forall v :: v in old(vlans) && Kept(v, cfg.Bits()) ==> v in vlans
      ensures ok ==> vlans == set v | v in old(vlans) && Kept(v, cfg.Bits())
      ensures faults == {} ==> ok
    {
      var bm := VlanListGet();
      ghost var was, bits := vlans, cfg.Bits();
      var calls := 0;
      var i := bm.FindFirst(MAX_VLANS);
      NoneBetween(was, bm.Bits(), 0, i);
      RemainStarts(was, bits, i);
      while i < MAX_VLANS
        invariant i <= MAX_VLANS && (i < MAX_VLANS ==> i in was) && cfg.Bits() == bits
        invariant fresh(bm.words) && bm.Bits() == set v | v in was && v < MAX_VLANS
        invariant vlans == Remaining(was, bits, i)
        decreases MAX_VLANS - i
      {
        RemainBounds(was, bits, i);
        var keep := cfg.TestBit(i);
        if !keep && i != FIRST_VLAN {
          if calls in faults {                 // clearing the VLAN's address
            return false;
          }
          if calls + 1 in faults {             // removing the VLAN
            return false;
          }
          calls := calls + 2;
          vlans := vlans - {i};
        }
        var i' := bm.FindNext(MAX_VLANS, i + 1);
        NoneBetween(was, bm.Bits(), i + 1, i');
        RemainStep(was, bits, i, i');
        i := i';
      }
      RemainBounds(was, bits, MAX_VLANS);
      ok := true;
    }

    method MembersGet(vid: nat) returns (mem: Bitmap, tag: Bitmap)
      ensures fresh(mem) && fresh(tag) && fresh(mem.words) && fresh(tag.words)
      ensures mem.Size() == READ_BITS == tag.Size() && Shows(mem.Bits(), tag.Bits(), vid, members)
    {
      mem := new Bitmap(READ_BITS);
      tag := new Bitmap(READ_BITS);
      for p := 0 to READ_BITS
        invariant fresh(mem.words) && fresh(tag.words) && mem.words != tag.words
        invariant forall q :: 0 <= q < p ==>
                    && (q in mem.Bits() <==> Key(vid, q) in members)
                    && (q in tag.Bits() <==> At(members, Key(vid, q)) == Some(true))
        invariant forall q :: p <= q ==> q !in mem.Bits() && q !in tag.Bits()
      {
        if Key(vid, p) in members {
          mem.SetBit(p);
          if members[Key(vid, p)] {
            tag.SetBit(p);
          }
        }
      }
    }

    /** The batch for one VLAN; nothing is sent yet. */
    method MemberlistSet(vid: nat, list: seq<Entry>) returns (ok: bool, b: Batch)
      requires PortsFit(list)
      ensures ok == Parses(list)
      ensures ok ==> IsBatch(b, map[vid := list], members)
    {
      b := Batch([], []);
      var ports, tags;
      ok, ports, tags := WantedPorts(list);
      if !ok {
        return;
      }
      var mem, tag := MembersGet(vid);
      var ds := DeletePass(vid, ports, mem, members, list);
      var us := UpdatePass(vid, ports, tags, mem, tag, members, list);
      b := Batch(ds, us);
    }

    /** The batch for every configured VLAN. */
    method BuildBatch(cfg: Bitmap, lists: seq<seq<Entry>>) returns (ok: bool, b: Batch)
      requires cfg.Size() >= MAX_VLANS && |lists| == MAX_VLANS
      requires forall v :: 0 <= v < MAX_VLANS ==> PortsFit(lists[v])
      ensures ok ==> IsBatch(b, Configured(cfg.Bits(), lists, MAX_VLANS), members)
      ensures ok <==> forall v :: 0 <= v < MAX_VLANS && v in cfg.Bits() ==> Parses(lists[v])
    {
      b := Batch([], []);
      var i := cfg.FindFirst(MAX_VLANS);
      ghost var bits := cfg.Bits();
      BuiltEmpty(bits, lists, i, members);
      while i < MAX_VLANS
        invariant i <= MAX_VLANS && (i < MAX_VLANS ==> i in bits) && cfg.Bits() == bits
        invariant Built(b, bits, lists, i, members)
        decreases MAX_VLANS - i
      {
        var one;
        ok, one := MemberlistSet(i, lists[i]);
        if !ok {
          return;
        }
        var i' := cfg.FindNext(MAX_VLANS, i + 1);
        BuiltStep(b, one, bits, lists, i, i', members);
        b := Batch(b.dels + one.dels, b.upds + one.upds);
        i := i';
      }
      ok := true;
    }

    /**
     * The whole apply. When it succeeds and the switch accepts the batch, the
     * VLANs are the configured ones plus an already existing VLAN 1, and every
     * configured VLAN has exactly its configured members below port 100, a
     * port tagged if any entry tags it. Other members stay.
     */
    method ConfigVlanApply(cfg: Bitmap, lists: seq<seq<Entry>>, faults: set<nat>, accepted: bool) returns (ok: bool)
      requires cfg.Size() >= MAX_VLANS && |lists| == MAX_VLANS
      requires forall v :: 0 <= v < MAX_VLANS ==> PortsFit(lists[v])
      modifies this
      ensures ok && accepted ==>
                forall v :: v < MAX_VLANS ==> (v in vlans <==> v in cfg.Bits() || (v == FIRST_VLAN && v in old(vlans)))
      ensures ok && accepted ==>
                forall k: Key :: At(members, k)
                  == if k.vid in cfg.Bits() && k.vid < MAX_VLANS && k.port < MAX_PORTS
                     then Want(lists[k.vid], k.port) else old(At(members, k))
      ensures ok && accepted ==>
                forall k: Key :: k.vid in cfg.Bits() && k.vid < 4096 && k.port < 100 ==>
                                   AsListed(At(members, k), lists[k.vid], k.port)
      ensures !(ok && accepted) ==> members == old(members) && vlans <= old(vlans)
      ensures ok ==> forall v :: 0 <= v < MAX_VLANS && v in cfg.Bits() ==> Parses(lists[v])
      ensures faults == {} && (forall v :: 0 <= v < MAX_VLANS && v in cfg.Bits() ==> Parses(lists[v])) ==> ok
    {
      ok := VlanListSet(cfg, faults);
      if !ok {
        return;
      }
      var b;
      ok, b := BuildBatch(cfg, lists);
      if !ok {
        return;
      }
      ghost var want := Configured(cfg.Bits(), lists, MAX_VLANS);
      ghost var d := View();
      if accepted {
        BatchAddsVlans(d, b, want);
        forall k: Key ensures At(Exec(d, b).members, k)
                  == if k.vid in want && k.port < MAX_PORTS then Want(want[k.vid], k.port) else At(d.members, k)
        {
          BatchLands(d, b, want, k);
        }
        forall k: Key | k.vid in want && k.port < MAX_PORTS ensures AsListed(At(Exec(d, b).members, k), want[k.vid], k.port) {
          BatchEntries(d, b, want, k.vid, k.port);
        }
        var r := Exec(Device(vlans, members), b);
        vlans, members := r.vlans, r.members;
      }
    }
  }

  // The lists of the configured VLANs below n.
  ghost function Configured(cfg: set<nat>, lists: seq<seq<Entry>>, n: nat): (m: Lists)
    requires n <= |lists|
  {
    map v | v in cfg && v < n :: lists[v]
  }

  lemma ConfiguredEmpty(cfg: set<nat>, lists: seq<seq<Entry>>, i: nat)
    requires i <= |lists| && forall k :: 0 <= k < i ==> k !in cfg
    ensures Configured(cfg, lists, i) == map[]
  {
  }

  lemma ConfiguredNext(cfg: set<nat>, lists: seq<seq<Entry>>, i: nat, i': nat)
    requires i < |lists| && i in cfg && i < i' <= |lists| && forall k :: i < k < i' ==> k !in cfg
    ensures Configured(cfg, lists, i') == Configured(cfg, lists, i) + map[i := lists[i]]
  {
  }

  // The batch for the configured VLANs below n, all of which parse.
  ghost predicate Built(b: Batch, cfg: set<nat>, lists: seq<seq<Entry>>, n: nat, cur: map<Key, bool>)
    requires n <= |lists|
  {
    IsBatch(b, Configured(cfg, lists, n), cur) && forall v :: 0 <= v < n && v in cfg ==> Parses(lists[v])
  }

  lemma BuiltEmpty(cfg: set<nat>, lists: seq<seq<Entry>>, n: nat, cur: map<Key, bool>)
    requires n <= |lists| && forall k :: 0 <= k < n ==> k !in cfg
    ensures Built(Batch([], []), cfg, lists, n, cur)
  {
    ConfiguredEmpty(cfg, lists, n);
  }

  lemma BuiltStep(b: Batch, one: Batch, cfg: set<nat>, lists: seq<seq<Entry>>, i: nat, i': nat, cur: map<Key, bool>)
    requires i < |lists| && i in cfg && i < i' <= |lists| && forall k :: i < k < i' ==> k !in cfg
    requires Built(b, cfg, lists, i, cur) && Parses(lists[i]) && IsBatch(one, map[i := lists[i]], cur)
    ensures Built(Batch(b.dels + one.dels, b.upds + one.upds), cfg, lists, i', cur)
  {
    ConfiguredNext(cfg, lists, i, i');
    BatchesJoin(b, one, Configured(cfg, lists, i), map[i := lists[i]], cur);
  }

  lemma BatchesJoin(a: Batch, b: Batch, x: Lists, y: Lists, cur: map<Key, bool>)
    requires IsBatch(a, x, cur) && IsBatch(b, y, cur) && x.Keys !! y.Keys
    ensures IsBatch(Batch(a.dels + b.dels, a.upds + b.upds), x + y, cur)
  {
    forall k: Key ensures k in a.dels + b.dels <==> IsDelete(k, x + y, cur) {
      assert k in a.dels <==> IsDelete(k, x, cur);
      assert k in b.dels <==> IsDelete(k, y, cur);
    }
    forall u: Update ensures u in a.upds + b.upds <==> IsUpdate(u, x + y, cur) {
      assert u in a.upds <==> IsUpdate(u, x, cur);
      assert u in b.upds <==> IsUpdate(u, y, cur);
    }
  }
}
