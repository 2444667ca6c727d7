/**
 * VLAN reconciliation: VLANs the configuration does not name are removed one
 * by one, then the member lists of the configured VLANs become one batched
 * gNMI Set (section 3.4 of the gNMI specification), deletes and updates.
 */
module Vlans {
  import opened Options

  const FIRST_VLAN: nat := 1
  const MAX_VLANS: nat := 4096
  const MAX_PORTS: nat := 100        // ports the loops look at
  const PORT_BITS: nat := 128        // bits in a configured port bitmap
  const READ_BITS: nat := 256        // bits in a bitmap read from the device

  datatype Key = Key(vid: nat, port: nat)

  // The switch: its VLANs, and the tagging of every member.
  datatype Device = Device(vlans: set<nat>, members: map<Key, bool>)

  datatype Update = AddVlan(vid: nat) | SetMember(key: Key, tagged: bool)

  datatype Batch = Batch(dels: seq<Key>, upds: seq<Update>)

  // One configured member; a name that does not parse has no port.
  datatype Entry = Entry(port: Option<nat>, tagged: bool)

  function At(m: map<Key, bool>, k: Key): Option<bool> { if k in m then Some(m[k]) else None }

  // ----- what a batch does

  function Delete(d: Device, k: Key): Device { d.(members := d.members - {k}) }

  function Update1(d: Device, u: Update): Device {
    match u
    case AddVlan(v) => d.(vlans := d.vlans + {v})
    case SetMember(k, t) => d.(members := d.members[k := t])
  }

  function Deletes(d: Device, ks: seq<Key>): Device {
    if ks == [] then d else Delete(Deletes(d, ks[..|ks| - 1]), ks[|ks| - 1])
  }

  function Updates(d: Device, us: seq<Update>): Device {
    if us == [] then d else Update1(Updates(d, us[..|us| - 1]), us[|us| - 1])
  }

  /** A Set processes its deletes, then its updates. */
  function Exec(d: Device, b: Batch): Device { Updates(Deletes(d, b.dels), b.upds) }

  lemma {:induction false} DeletesAt(d: Device, ks: seq<Key>, k: Key)
    ensures Deletes(d, ks).vlans == d.vlans
    ensures At(Deletes(d, ks).members, k) == if k in ks then None else At(d.members, k)
  {
    if ks != [] {
      DeletesAt(d, ks[..|ks| - 1], k);
      assert k in ks <==> k in ks[..|ks| - 1] || k == ks[|ks| - 1];
    }
  }

  // No member gets both taggings.
  ghost predicate OneTag(us: seq<Update>) {
    forall k, t, t' :: SetMember(k, t) in us && SetMember(k, t') in us ==> t == t'
  }

  ghost predicate Touches(us: seq<Update>, k: Key) { SetMember(k, true) in us || SetMember(k, false) in us }

  lemma {:induction false} UpdatesAt(d: Device, us: seq<Update>, k: Key)
    requires OneTag(us)
    ensures At(Updates(d, us).members, k)
         == if SetMember(k, true) in us then Some(true)
            else if SetMember(k, false) in us then Some(false) else At(d.members, k)
  {
    if us != [] {
      var front, last := us[..|us| - 1], us[|us| - 1];
      assert forall u :: u in us <==> u in front || u == last;
      UpdatesAt(d, front, k);
    }
  }

  lemma {:induction false} UpdatesVlan(d: Device, us: seq<Update>, v: nat)
    ensures v in Updates(d, us).vlans <==> v in d.vlans || AddVlan(v) in us
  {
    if us != [] {
      var front, last := us[..|us| - 1], us[|us| - 1];
      assert forall u :: u in us <==> u in front || u == last;
      UpdatesVlan(d, front, v);
    }
  }

  // ----- the batch for a set of VLANs

  // Ports of a member list, and those some entry tags.
  function Ports(list: seq<Entry>): set<nat> {
    set e | e in list && e.port.Some? :: e.port.value
  }

  function Tags(list: seq<Entry>): set<nat> {
    set e | e in list && e.port.Some? && e.tagged :: e.port.value
  }

  // What the configuration wants of a member of a configured VLAN.
  function Want(list: seq<Entry>, port: nat): Option<bool> {
    if port in Ports(list) then Some(port in Tags(list)) else None
  }

  // Some entry lists the port; some such entry tags it.
  ghost predicate ListedBy(list: seq<Entry>, port: nat) {
    exists i :: 0 <= i < |list| && list[i].port == Some(port)
  }

  ghost predicate TaggedBy(list: seq<Entry>, port: nat) {
    exists i :: 0 <= i < |list| && list[i].port == Some(port) && list[i].tagged
  }

  // A member's tagging is what the entries for its port say.
  ghost predicate AsListed(at: Option<bool>, list: seq<Entry>, port: nat) {
    && (at == Some(true) <==> TaggedBy(list, port))
    && (at == Some(false) <==> ListedBy(list, port) && !TaggedBy(list, port))
    && (at == None <==> !ListedBy(list, port))
  }

  /** Tagged if any entry for the port tags it, untagged if it is listed without, else no member. */
  lemma WantIsAsListed(list: seq<Entry>, port: nat)
    ensures AsListed(Want(list, port), list, port)
  {
    if port in Ports(list) {
      var e :| e in list && e.port.Some? && e.port.value == port;
      var i :| 0 <= i < |list| && list[i] == e;
      assert ListedBy(list, port);
    }
    if i :| 0 <= i < |list| && list[i].port == Some(port) {
      assert list[i] in list;
    }
    if port in Tags(list) {
      var e :| e in list && e.port.Some? && e.tagged && e.port.value == port;
      var i :| 0 <= i < |list| && list[i] == e;
      assert TaggedBy(list, port);
    }
    if i :| 0 <= i < |list| && list[i].port == Some(port) && list[i].tagged {
      assert list[i] in list;
    }
  }

  type Lists = map<nat, seq<Entry>>

  ghost predicate IsDelete(k: Key, lists: Lists, cur: map<Key, bool>) {
    k.vid in lists && k.port < MAX_PORTS && k in cur && Want(lists[k.vid], k.port) == None
  }

  ghost predicate IsUpdate(u: Update, lists: Lists, cur: map<Key, bool>) {
    match u
    case AddVlan(v) => v in lists
    case SetMember(k, t) =>
      k.vid in lists && k.port < MAX_PORTS && Want(lists[k.vid], k.port) == Some(t) && At(cur, k) != Some(t)
  }

  /** The batch holds exactly the differences between the member lists and the device. */
  ghost predicate IsBatch(b: Batch, lists: Lists, cur: map<Key, bool>) {
    && (forall k :: k in b.dels <==> IsDelete(k, lists, cur))
    && (forall u :: u in b.upds <==> IsUpdate(u, lists, cur))
  }

  lemma BatchIsConsistent(b: Batch, lists: Lists, cur: map<Key, bool>)
    requires IsBatch(b, lists, cur)
    ensures OneTag(b.upds) && forall k :: k in b.dels ==> !Touches(b.upds, k)
  {
    forall k, t, t' | SetMember(k, t) in b.upds && SetMember(k, t') in b.upds ensures t == t' {
      assert IsUpdate(SetMember(k, t), lists, cur) && IsUpdate(SetMember(k, t'), lists, cur);
    }
    forall k | k in b.dels ensures !Touches(b.upds, k) {
      assert IsDelete(k, lists, cur);
      assert !IsUpdate(SetMember(k, true), lists, cur) && !IsUpdate(SetMember(k, false), lists, cur);
    }
  }

  /** After an accepted batch every configured VLAN has exactly its configured members below port 100. */
  lemma BatchLands(d: Device, b: Batch, lists: Lists, k: Key)
    requires IsBatch(b, lists, d.members)
    ensures At(Exec(d, b).members, k)
         == if k.vid in lists && k.port < MAX_PORTS then Want(lists[k.vid], k.port) else At(d.members, k)
  {
    BatchIsConsistent(b, lists, d.members);
    DeletesAt(d, b.dels, k);
    UpdatesAt(Deletes(d, b.dels), b.upds, k);
    assert k in b.dels <==> IsDelete(k, lists, d.members);
    assert SetMember(k, true) in b.upds <==> IsUpdate(SetMember(k, true), lists, d.members);
    assert SetMember(k, false) in b.upds <==> IsUpdate(SetMember(k, false), lists, d.members);
  }

  /** In terms of the entries alone: every member of a configured VLAN below port 100. */
  lemma BatchEntries(d: Device, b: Batch, lists: Lists, vid: nat, port: nat)
    requires IsBatch(b, lists, d.members) && vid in lists && port < 100
    ensures AsListed(At(Exec(d, b).members, Key(vid, port)), lists[vid], port)
  {
    BatchLands(d, b, lists, Key(vid, port));
    WantIsAsListed(lists[vid], port);
  }

  lemma BatchAddsVlans(d: Device, b: Batch, lists: Lists)
    requires IsBatch(b, lists, d.members)
    ensures Exec(d, b).vlans == d.vlans + lists.Keys
  {
    forall v ensures v in Exec(d, b).vlans <==> v in d.vlans + lists.Keys {
      DeletesAt(d, b.dels, Key(0, 0));
      UpdatesVlan(Deletes(d, b.dels), b.upds, v);
      assert AddVlan(v) in b.upds <==> IsUpdate(AddVlan(v), lists, d.members);
    }
  }

  /** Applying the same configuration again changes no member. */
  lemma SecondBatchIsIdle(d: Device, b: Batch, b2: Batch, lists: Lists)
    requires IsBatch(b, lists, d.members) && IsBatch(b2, lists, Exec(d, b).members)
    ensures b2.dels == [] && forall u :: u in b2.upds ==> u.AddVlan?
  {
    if b2.dels != [] {
      var k := b2.dels[0];
      assert k in b2.dels;
      BatchLands(d, b, lists, k);
    }
    forall u | u in b2.upds ensures u.AddVlan? {
      assert IsUpdate(u, lists, Exec(d, b).members);
      if u.SetMember? {
        BatchLands(d, b, lists, u.key);
      }
    }
  }

  // ----- batch order

  datatype Op = Del(key: Key) | Upd(u: Update)

  function Apply(d: Device, o: Op): Device {
    match o case Del(k) => Delete(d, k) case Upd(u) => Update1(d, u)
  }

  function InOrder(d: Device, os: seq<Op>): Device {
    if os == [] then d else Apply(InOrder(d, os[..|os| - 1]), os[|os| - 1])
  }

  // The operations of a batch in some order, possibly repeated.
  ghost predicate Orders(os: seq<Op>, b: Batch) {
    && (forall k :: Del(k) in os <==> k in b.dels)
    && (forall u :: Upd(u) in os <==> u in b.upds)
  }

  ghost predicate Disjoint(os: seq<Op>) {
    forall k, t :: Upd(SetMember(k, t)) in os ==> Del(k) !in os && Upd(SetMember(k, !t)) !in os
  }

  lemma {:induction false} InOrderAt(d: Device, os: seq<Op>, k: Key, v: nat)
    requires Disjoint(os)
    ensures At(InOrder(d, os).members, k)
         == if Upd(SetMember(k, true)) in os then Some(true)
            else if Upd(SetMember(k, false)) in os then Some(false)
            else if Del(k) in os then None else At(d.members, k)
    ensures v in InOrder(d, os).vlans <==> v in d.vlans || Upd(AddVlan(v)) in os
  {
    if os != [] {
      var front, last := os[..|os| - 1], os[|os| - 1];
      assert forall o :: o in os <==> o in front || o == last;
      InOrderAt(d, front, k, v);
    }
  }

  /** Deletes and updates have disjoint keys, so every order of the batch gives the same device. */
  lemma OrderIsFree(d: Device, b: Batch, lists: Lists, os: seq<Op>)
    requires IsBatch(b, lists, d.members) && Orders(os, b)
    ensures InOrder(d, os) == Exec(d, b)
  {
    BatchIsConsistent(b, lists, d.members);
    forall k, t | Upd(SetMember(k, t)) in os ensures Del(k) !in os && Upd(SetMember(k, !t)) !in os {
      assert SetMember(k, t) in b.upds;
    }
    var x, y := InOrder(d, os), Exec(d, b);
    forall k: Key ensures At(x.members, k) == At(y.members, k) {
      InOrderAt(d, os, k, 0);
      DeletesAt(d, b.dels, k);
      UpdatesAt(Deletes(d, b.dels), b.upds, k);
    }
    forall v: nat ensures v in x.vlans <==> v in y.vlans {
      InOrderAt(d, os, Key(0, 0), v);
      DeletesAt(d, b.dels, Key(0, 0));
      UpdatesVlan(Deletes(d, b.dels), b.upds, v);
    }
    SameMembers(x.members, y.members);
    assert x.vlans == y.vlans;
  }

  lemma SameMembers(a: map<Key, bool>, b: map<Key, bool>)
    requires forall k: Key :: At(a, k) == At(b, k)
    ensures a == b
  {
    assert forall k :: k in a ==> At(a, k) == At(b, k);
    assert forall k :: k in b ==> At(a, k) == At(b, k);
  }
}
