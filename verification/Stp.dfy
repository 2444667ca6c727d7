/**
 * Spanning tree: the apply step that compares a per-VLAN cache with the
 * configuration and programs what differs, and the restore that follows a
 * failed apply and reads the cache back from the device.
 *
 * The device keeps a global entry and a list of VLAN entries. A request names
 * the calls that the device refuses; each call is made at most once per apply.
 * Two of them are refused silently: the caller ignores the outcome of deleting
 * the global entry and of disabling a VLAN.
 */
module Stp {
  import opened Options

  const FIRST_VLAN: nat := 1
  const MAX_VLANS: nat := 4096

  datatype Attr = Attr(enabled: bool, forwardDelay: nat, helloTime: nat, maxAge: nat, priority: nat)
  {
    predicate NoDelays() { forwardDelay == helloTime == maxAge == 0 }
  }

  const ZERO := Attr(false, 0, 0, 0, 0)

  // What the device can be in.
  datatype Mode = Off | Rpvst | Pvst | Mst

  // What a configuration can ask for.
  datatype Wanted = WantNone | WantRpvst | WantOther

  datatype Call = DeleteGlobal | SetMode | EnablePorts | SetVlan(vid: nat)

  datatype Config = Config(wanted: Wanted, vlans: seq<Attr>)

  // `attr` is what the device reports for its global entry, `onSet` what it
  // reports for a new one. A VLAN not in the list has no entry.
  datatype Device = Device(mode: Mode, attr: Attr, onSet: Attr, vlans: seq<Option<Attr>>)

  // `log` lists the calls made so far.
  datatype World = World(mode: Mode, modeAttr: Attr, cached: seq<Attr>, dev: Device, log: seq<Call>)
  {
    ghost predicate Valid() { |cached| == |dev.vlans| == MAX_VLANS }
  }

  // Two entries mean the same when both are off, or they are equal.
  predicate Same(a: Attr, b: Attr) {
    a.enabled == b.enabled && (a.enabled ==> a == b)
  }

  // What a device entry amounts to.
  function Meant(o: Option<Attr>): Attr { if o.Some? then o.value else ZERO }

  ghost predicate AllSame(a: seq<Attr>, b: seq<Attr>)
    requires |a| == |b|
  {
    forall v :: FIRST_VLAN <= v < |a| ==> Same(a[v], b[v])
  }

  // The device's VLANs are as in b.
  ghost predicate Obeys(d: seq<Option<Attr>>, b: seq<Attr>)
    requires |d| == |b|
  {
    forall v :: FIRST_VLAN <= v < |d| ==> Same(Meant(d[v]), b[v])
  }

  ghost predicate AllOff(a: seq<Attr>) {
    forall v :: FIRST_VLAN <= v < |a| ==> !a[v].enabled
  }

  function Blank(n: nat): (s: seq<Attr>)
    ensures |s| == n && forall v :: 0 <= v < n ==> s[v] == ZERO
  {
    seq(n, _ => ZERO)
  }

  function NoEntries(n: nat): (s: seq<Option<Attr>>)
    ensures |s| == n && forall v :: 0 <= v < n ==> s[v] == None
  {
    seq(n, _ => None)
  }

  // The device's entry after a VLAN call; disabling leaves it in the list.
  function Told(have: Option<Attr>, want: Attr, refused: bool): Option<Attr> {
    if refused then have
    else if want.enabled then Some(want)
    else Some(Meant(have).(enabled := false))
  }

  datatype Outcome = Outcome(cached: seq<Attr>, dev: seq<Option<Attr>>, log: seq<Call>, ok: bool)

  /** The VLAN loop from `v` on; an enabling call that is refused ends it. */
  function Vlans(cached: seq<Attr>, dev: seq<Option<Attr>>, log: seq<Call>, want: seq<Attr>, v: nat,
                 refused: set<Call>): Outcome
    requires |cached| == |dev| == |want|
    decreases |want| - v
  {
    if v >= |want| then Outcome(cached, dev, log, true)
    else if Same(cached[v], want[v]) then Vlans(cached, dev, log, want, v + 1, refused)
    else if want[v].enabled && SetVlan(v) in refused then Outcome(cached, dev, log + [SetVlan(v)], false)
    else
      Vlans(cached[v := want[v]], dev[v := Told(dev[v], want[v], SetVlan(v) in refused)],
            log + [SetVlan(v)], want, v + 1, refused)
  }

  // The mode is programmed again unless the cache shows rpvst with no attributes.
  predicate Remode(w: World) {
    w.mode != Rpvst || w.modeAttr != ZERO
  }

  // Deleting the global entry takes every VLAN entry with it.
  function Deleted(w: World, refused: set<Call>): World {
    var d := w.(log := w.log + [DeleteGlobal]);
    if DeleteGlobal in refused then d
    else d.(dev := w.dev.(mode := Off, attr := ZERO, vlans := NoEntries(|w.dev.vlans|)))
  }

  function InRpvst(d: Device): Device { d.(mode := Rpvst, attr := d.onSet) }

  // The mode part of an rpvst apply.
  function Moded(w: World, refused: set<Call>): (World, bool) {
    if !Remode(w) then (w, true)
    else
      var d := Deleted(w, refused);
      if SetMode in refused then (d.(log := d.log + [SetMode]), false)
      else
        var e := d.(dev := InRpvst(d.dev), log := d.log + [SetMode] + [EnablePorts]);
        if EnablePorts in refused then (e, false) else (e.(mode := Rpvst, modeAttr := ZERO), true)
  }

  function Apply(w: World, c: Config, refused: set<Call>): (World, bool)
    requires w.Valid() && |c.vlans| == MAX_VLANS
  {
    match c.wanted
    case WantOther => (w, false)
    case WantNone =>
      if w.mode == Off then (w, true)
      else (Deleted(w, refused).(mode := Off, cached := Blank(|w.cached|)), true)
    case WantRpvst =>
      var (m, ok) := Moded(w, refused);
      if !ok then (m, false)
      else
        var r := Vlans(m.cached, m.dev.vlans, m.log, c.vlans, FIRST_VLAN, refused);
        (m.(cached := r.cached, dev := m.dev.(vlans := r.dev), log := r.log), r.ok)
  }

  /* ---- the VLAN loop ---- */

  /**
   * The loop succeeds exactly when no VLAN it has to enable is refused, and
   * then the cache means what was asked for everywhere from `v` on.
   */
  lemma {:induction false} VlansSettle(cached: seq<Attr>, dev: seq<Option<Attr>>, log: seq<Call>, want: seq<Attr>,
                                       v: nat, refused: set<Call>, r: Outcome)
    requires |cached| == |dev| == |want| && r == Vlans(cached, dev, log, want, v, refused)
    ensures |r.cached| == |r.dev| == |want|
    ensures r.ok <==> forall u :: v <= u < |want| && want[u].enabled && !Same(cached[u], want[u]) ==> SetVlan(u) !in refused
    ensures forall u :: 0 <= u < |want| && u < v ==> r.cached[u] == cached[u] && r.dev[u] == dev[u]
    ensures r.ok ==> forall u :: v <= u < |want| ==> Same(r.cached[u], want[u])
    decreases |want| - v
  {
    if v < |want| {
      if Same(cached[v], want[v]) {
        VlansSettle(cached, dev, log, want, v + 1, refused, r);
      } else if !(want[v].enabled && SetVlan(v) in refused) {
        VlansSettle(cached[v := want[v]], dev[v := Told(dev[v], want[v], SetVlan(v) in refused)],
                    log + [SetVlan(v)], want, v + 1, refused, r);
      }
    }
  }

  // An entry the cache already has right is not sent; the others are.
  lemma {:induction false} VlansTell(cached: seq<Attr>, dev: seq<Option<Attr>>, log: seq<Call>, want: seq<Attr>,
                                     v: nat, refused: set<Call>, r: Outcome)
    requires |cached| == |dev| == |want| && r == Vlans(cached, dev, log, want, v, refused) && r.ok
    ensures |r.dev| == |want|
    ensures forall u :: v <= u < |want| ==>
                          r.dev[u] == if Same(cached[u], want[u]) then dev[u]
                                      else Told(dev[u], want[u], SetVlan(u) in refused)
    decreases |want| - v
  {
    VlansSettle(cached, dev, log, want, v, refused, r);
    if v < |want| {
      if Same(cached[v], want[v]) {
        VlansTell(cached, dev, log, want, v + 1, refused, r);
        VlansSettle(cached, dev, log, want, v + 1, refused, r);
      } else {
        var c', d' := cached[v := want[v]], dev[v := Told(dev[v], want[v], SetVlan(v) in refused)];
        VlansTell(c', d', log + [SetVlan(v)], want, v + 1, refused, r);
        VlansSettle(c', d', log + [SetVlan(v)], want, v + 1, refused, r);
      }
    }
  }

  lemma {:induction false} VlansIdle(cached: seq<Attr>, dev: seq<Option<Attr>>, log: seq<Call>, want: seq<Attr>, v: nat, refused: set<Call>)
    requires |cached| == |dev| == |want|
    requires forall u :: v <= u < |want| ==> Same(cached[u], want[u])
    ensures Vlans(cached, dev, log, want, v, refused) == Outcome(cached, dev, log, true)
    decreases |want| - v
  {
    if v < |want| {
      VlansIdle(cached, dev, log, want, v + 1, refused);
    }
  }

  /* ---- one apply ---- */

  /**
   * After a successful rpvst apply the cache means what was configured, for
   * every VLAN; after one without spanning tree it shows nothing enabled,
   * unless it was off already with something enabled.
   */
  lemma ApplyCaches(w: World, c: Config, refused: set<Call>, r: (World, bool))
    requires w.Valid() && |c.vlans| == MAX_VLANS && r == Apply(w, c, refused)
    ensures r.0.Valid()
    ensures r.1 && c.wanted == WantRpvst ==>
              r.0.mode == Rpvst && r.0.modeAttr == ZERO && AllSame(r.0.cached, c.vlans)
    ensures r.1 && c.wanted == WantNone ==>
              r.0.mode == Off && (AllOff(r.0.cached) <==> w.mode != Off || AllOff(w.cached))
  {
    if c.wanted == WantRpvst && Moded(w, refused).1 {
      var m := Moded(w, refused).0;
      VlansSettle(m.cached, m.dev.vlans, m.log, c.vlans, FIRST_VLAN, refused,
                  Vlans(m.cached, m.dev.vlans, m.log, c.vlans, FIRST_VLAN, refused));
    }
  }

  /** Exactly which refusals an rpvst apply reports. */
  lemma ApplySucceeds(w: World, c: Config, refused: set<Call>)
    requires w.Valid() && |c.vlans| == MAX_VLANS && c.wanted == WantRpvst
    ensures Apply(w, c, refused).1 <==>
            && (Remode(w) ==> SetMode !in refused && EnablePorts !in refused)
            && forall v :: FIRST_VLAN <= v < MAX_VLANS && c.vlans[v].enabled && !Same(w.cached[v], c.vlans[v])
                           ==> SetVlan(v) !in refused
  {
    var m := Moded(w, refused).0;
    VlansSettle(m.cached, m.dev.vlans, m.log, c.vlans, FIRST_VLAN, refused,
                Vlans(m.cached, m.dev.vlans, m.log, c.vlans, FIRST_VLAN, refused));
  }

  /**
   * The cache after a successful rpvst apply, field by field: every VLAN is on
   * or off as configured, and one that is on has the configured values.
   */
  lemma ApplyConfigures(w: World, c: Config, refused: set<Call>, r: (World, bool))
    requires w.Valid() && |c.vlans| == MAX_VLANS && r == Apply(w, c, refused) && r.1 && c.wanted == WantRpvst
    ensures r.0.Valid()
    ensures forall v :: 1 <= v < 4096 ==> r.0.cached[v].enabled == c.vlans[v].enabled
    ensures forall v :: 1 <= v < 4096 && c.vlans[v].enabled ==>
                          && r.0.cached[v].priority == c.vlans[v].priority
                          && r.0.cached[v].forwardDelay == c.vlans[v].forwardDelay
                          && r.0.cached[v].helloTime == c.vlans[v].helloTime
                          && r.0.cached[v].maxAge == c.vlans[v].maxAge
  {
    ApplyCaches(w, c, refused, r);
  }

  // The VLAN has to be sent: it is on in the cache or in the configuration, and some field differs.
  ghost predicate Differs(cached: Attr, want: Attr) {
    && (cached.enabled || want.enabled)
    && (cached.enabled != want.enabled || cached.priority != want.priority || cached.forwardDelay != want.forwardDelay
        || cached.helloTime != want.helloTime || cached.maxAge != want.maxAge)
  }

  // One call for each VLAN that differs from v on, in order, and no other.
  ghost predicate Sends(calls: seq<Call>, cached: seq<Attr>, want: seq<Attr>, v: nat)
    requires |cached| == |want|
  {
    && (forall i :: 0 <= i < |calls| ==> calls[i].SetVlan? && v <= calls[i].vid)
    && (forall i, j :: 0 <= i < j < |calls| ==> calls[i].vid < calls[j].vid)
    && forall u: nat :: SetVlan(u) in calls <==> v <= u < |want| && Differs(cached[u], want[u])
  }

  lemma {:induction false} VlansCall(cached: seq<Attr>, dev: seq<Option<Attr>>, log: seq<Call>, want: seq<Attr>,
                                     v: nat, refused: set<Call>, r: Outcome) returns (calls: seq<Call>)
    requires |cached| == |dev| == |want| && r == Vlans(cached, dev, log, want, v, refused) && r.ok
    ensures r.log == log + calls && Sends(calls, cached, want, v)
    decreases |want| - v
  {
    if v >= |want| {
      calls := [];
    } else if Same(cached[v], want[v]) {
      calls := VlansCall(cached, dev, log, want, v + 1, refused, r);
    } else {
      var rest := VlansCall(cached[v := want[v]], dev[v := Told(dev[v], want[v], SetVlan(v) in refused)],
                            log + [SetVlan(v)], want, v + 1, refused, r);
      calls := [SetVlan(v)] + rest;
      assert log + calls == log + [SetVlan(v)] + rest;
    }
  }

  /**
   * The calls of a successful rpvst apply: the mode is programmed unless the
   * cache shows rpvst with all values zero, and then exactly the VLANs that
   * differ are sent.
   */
  lemma ApplyCalls(w: World, c: Config, refused: set<Call>, r: World) returns (calls: seq<Call>)
    requires w.Valid() && |c.vlans| == MAX_VLANS && Apply(w, c, refused) == (r, true) && c.wanted == WantRpvst
    ensures Sends(calls, w.cached, c.vlans, FIRST_VLAN)
    ensures r.log == w.log
                     + (if w.mode == Rpvst && !w.modeAttr.enabled && w.modeAttr.priority == w.modeAttr.forwardDelay == 0
                           && w.modeAttr.helloTime == w.modeAttr.maxAge == 0
                        then [] else [DeleteGlobal, SetMode, EnablePorts])
                     + calls
  {
    var m := Moded(w, refused).0;
    calls := VlansCall(m.cached, m.dev.vlans, m.log, c.vlans, FIRST_VLAN, refused,
                       Vlans(m.cached, m.dev.vlans, m.log, c.vlans, FIRST_VLAN, refused));
    assert m.log == w.log + if Remode(w) then [DeleteGlobal, SetMode, EnablePorts] else [];
  }

  /** Another mode than none or rpvst is an error and touches nothing; none is one call, or no call when off already. */
  lemma OtherModes(w: World, c: Config, refused: set<Call>)
    requires w.Valid() && |c.vlans| == MAX_VLANS
    ensures c.wanted == WantOther ==> Apply(w, c, refused) == (w, false)
    ensures c.wanted == WantNone ==>
              Apply(w, c, refused).0.log == if w.mode == Off then w.log else w.log + [DeleteGlobal]
  {
  }

  /** Applying the same configuration again makes no call: cache, device and log stay. */
  lemma RepeatIsIdle(w: World, c: Config, refused: set<Call>, later: set<Call>)
    requires w.Valid() && |c.vlans| == MAX_VLANS && Apply(w, c, refused).1
    ensures Apply(w, c, refused).0.Valid()
    ensures Apply(Apply(w, c, refused).0, c, later) == (Apply(w, c, refused).0, true)
  {
    var r := Apply(w, c, refused);
    ApplyCaches(w, c, refused, r);
    if c.wanted == WantRpvst {
      VlansIdle(r.0.cached, r.0.dev.vlans, r.0.log, c.vlans, FIRST_VLAN, later);
    }
  }

  // The device lost every VLAN entry while the cache kept its own.
  predicate Wiped(w: World, refused: set<Call>) {
    Remode(w) && DeleteGlobal !in refused
  }

  // What the device holds for v when the VLAN loop starts.
  function Base(w: World, refused: set<Call>, v: nat): Attr
    requires v < |w.dev.vlans|
  {
    if Wiped(w, refused) then ZERO else Meant(w.dev.vlans[v])
  }

  // One VLAN ends as wanted: skipped rightly, or sent and not silently refused.
  predicate LandsAt(cached: Attr, base: Attr, want: Attr, refused: bool) {
    if Same(cached, want) then Same(base, want)
    else want.enabled || !refused || !base.enabled
  }

  /**
   * Exactly when a successful rpvst apply leaves the device as configured,
   * whatever cache and device it starts from: no VLAN is skipped that the
   * device has wrong, be it because the mode was programmed again or because
   * the cache was wrong, and no VLAN that is on has its disabling refused,
   * which nobody notices.
   */
  lemma ApplyLands(w: World, c: Config, refused: set<Call>, r: (World, bool))
    requires w.Valid() && |c.vlans| == MAX_VLANS && r == Apply(w, c, refused)
    requires c.wanted == WantRpvst && r.1
    ensures r.0.Valid()
    ensures Obeys(r.0.dev.vlans, c.vlans) <==>
            forall v :: FIRST_VLAN <= v < MAX_VLANS ==>
                          LandsAt(w.cached[v], Base(w, refused, v), c.vlans[v], SetVlan(v) in refused)
  {
    ApplyCaches(w, c, refused, r);
    var m := Moded(w, refused).0;
    var out := Vlans(m.cached, m.dev.vlans, m.log, c.vlans, FIRST_VLAN, refused);
    ApplySucceeds(w, c, refused);
    VlansTell(m.cached, m.dev.vlans, m.log, c.vlans, FIRST_VLAN, refused, out);
    forall v: nat | FIRST_VLAN <= v < MAX_VLANS
      ensures Same(Meant(out.dev[v]), c.vlans[v]) <==>
              LandsAt(w.cached[v], Base(w, refused, v), c.vlans[v], SetVlan(v) in refused)
    {
      LandsOne(w.cached[v], m.dev.vlans[v], c.vlans[v], SetVlan(v) in refused, out.dev[v]);
    }
  }

  lemma LandsOne(cached: Attr, dev: Option<Attr>, want: Attr, refused: bool, now: Option<Attr>)
    requires want.enabled && !Same(cached, want) ==> !refused
    requires now == if Same(cached, want) then dev else Told(dev, want, refused)
    ensures Same(Meant(now), want) <==> LandsAt(cached, Meant(dev), want, refused)
  {
  }

  /** A VLAN already right in the cache loses its entry when the mode is programmed anew. */
  lemma RemodeLosesVlan(w: World, c: Config, v: nat)
    requires w.Valid() && |c.vlans| == MAX_VLANS && c.wanted == WantRpvst
    requires Remode(w) && FIRST_VLAN <= v < MAX_VLANS && c.vlans[v].enabled && w.cached[v] == c.vlans[v]
    ensures Apply(w, c, {}).1 && Apply(w, c, {}).0.Valid()
    ensures Apply(w, c, {}).0.cached[v].enabled && !Meant(Apply(w, c, {}).0.dev.vlans[v]).enabled
  {
    var r := Apply(w, c, {});
    ApplyCaches(w, c, {}, r);
    ApplySucceeds(w, c, {});
    var m := Moded(w, {}).0;
    VlansTell(m.cached, m.dev.vlans, m.log, c.vlans, FIRST_VLAN, {},
              Vlans(m.cached, m.dev.vlans, m.log, c.vlans, FIRST_VLAN, {}));
  }

  /** Turning spanning tree off is never reported as failing; this is when it happened. */
  lemma OffLands(w: World, c: Config, refused: set<Call>)
    requires w.Valid() && |c.vlans| == MAX_VLANS && c.wanted == WantNone
    ensures Apply(w, c, refused).1
    ensures Apply(w, c, refused).0.dev.mode == Off <==>
            w.dev.mode == Off || (w.mode != Off && DeleteGlobal !in refused)
  {
  }

  /* ---- reading the cache back ---- */

  // Every listed VLAN is taken to be enabled, and only its priority is read.
  function ReadVlan(o: Option<Attr>): Attr {
    if o.None? then ZERO else ZERO.(enabled := true, priority := o.value.priority)
  }

  // How far a read-back gets: to the end, not even to the mode, or to some of the listed VLANs.
  datatype ReadBack = All | ModeFails | VlansFail(seen: set<nat>)

  predicate Sees(rb: ReadBack, v: nat) { rb.All? || (rb.VlansFail? && v in rb.seen) }

  function ReadSome(d: seq<Option<Attr>>, rb: ReadBack): (s: seq<Attr>)
    ensures |s| == |d| && forall v :: 0 <= v < |d| ==> s[v] == if Sees(rb, v) then ReadVlan(d[v]) else ZERO
  {
    seq(|d|, v requires 0 <= v < |d| => if Sees(rb, v) then ReadVlan(d[v]) else ZERO)
  }

  // The cache after a read-back, which clears it first. A mode the reader does not know ends it.
  function Read(d: Device, log: seq<Call>, rb: ReadBack): World {
    if d.mode == Mst || rb.ModeFails? then World(Off, ZERO, Blank(|d.vlans|), d, log)
    else World(d.mode, if d.mode == Off then ZERO else d.attr.(enabled := false), ReadSome(d.vlans, rb), d, log)
  }

  function Reread(d: Device, log: seq<Call>): World { Read(d, log, All) }

  /** A cache that was read back is right about the VLANs exactly when every listed one is enabled, with no delays. */
  lemma RereadAgrees(d: Device, log: seq<Call>)
    ensures Obeys(d.vlans, Reread(d, log).cached) <==>
            forall v :: FIRST_VLAN <= v < |d.vlans| && d.vlans[v].Some? ==>
                          if d.mode == Mst then !d.vlans[v].value.enabled
                          else d.vlans[v].value.enabled && d.vlans[v].value.NoDelays()
  {
    forall v | FIRST_VLAN <= v < |d.vlans| && d.mode != Mst
      ensures Same(Meant(d.vlans[v]), ReadVlan(d.vlans[v])) <==>
              (d.vlans[v].Some? ==> d.vlans[v].value.enabled && d.vlans[v].value.NoDelays())
    {
    }
  }

  /* ---- runs of configure requests ---- */

  // How the parts of the apply before and after this one fare.
  datatype Elsewhere = Fine | FailsBefore | FailsAfter

  // How a restore ends: refused by the device, or done and read back so far.
  datatype Restore = NotRestored | Restored(rb: ReadBack)

  // `saved` and `restore` say how the save or the restore that ends the request fares.
  datatype Request = Request(config: Config, refused: set<Call>, elsewhere: Elsewhere, saved: bool, restore: Restore)

  datatype Sys = Sys(w: World, startup: Device)

  // The client can read the device, and without a mode there are no VLAN entries.
  ghost predicate Readable(d: Device) {
    && d.mode != Mst && |d.vlans| == MAX_VLANS
    && (d.mode == Off ==> forall v :: FIRST_VLAN <= v < MAX_VLANS ==> d.vlans[v] == None)
  }

  // The spanning tree part of a request, if the apply gets there.
  function Reach(s: Sys, q: Request): (World, bool)
    requires s.w.Valid() && |q.config.vlans| == MAX_VLANS
  {
    if q.elsewhere == FailsBefore then (s.w, false)
    else
      var (w, ok) := Apply(s.w, q.config, q.refused);
      (w, ok && q.elsewhere == Fine)
  }

  /**
   * One request. On success the device is saved. On failure the saved
   * configuration is restored and the cache read back, as far as that goes. A
   * restore the device refuses leaves everything as the apply left it.
   */
  function Next(s: Sys, q: Request): Sys
    requires s.w.Valid() && |q.config.vlans| == MAX_VLANS
  {
    var (w, ok) := Reach(s, q);
    if ok then Sys(w, if q.saved then w.dev else s.startup)
    else
      match q.restore
      case NotRestored => Sys(w, s.startup)
      case Restored(rb) => Sys(Read(s.startup, w.log, rb), s.startup)
  }

  // Every VLAN that is configured on has some delay, as the parser's defaults give it.
  ghost predicate Timed(a: seq<Attr>) {
    forall v :: FIRST_VLAN <= v < |a| && a[v].enabled ==> !a[v].NoDelays()
  }

  ghost predicate Legal(q: Request) {
    && |q.config.vlans| == MAX_VLANS && Timed(q.config.vlans)
    // no silent refusal
    && DeleteGlobal !in q.refused
    && forall v :: FIRST_VLAN <= v < MAX_VLANS && !q.config.vlans[v].enabled ==> SetVlan(v) !in q.refused
  }

  // A cached entry is what the VLAN loop will find, or no configured one can be taken for it.
  predicate Tracks(cached: Attr, base: Attr) {
    (cached.enabled && cached.NoDelays()) || Same(base, cached)
  }

  /**
   * What every state of a run satisfies: the cache can be relied on for each
   * VLAN, given what the device will hold once the mode has been seen to.
   */
  ghost predicate Tracked(w: World) {
    && w.Valid() && Readable(w.dev)
    && (forall v :: FIRST_VLAN <= v < MAX_VLANS ==> Tracks(w.cached[v], Base(w, {}, v)))
    && (w.mode == Off ==> AllOff(w.cached))
    && (!Remode(w) ==> w.dev.mode == Rpvst)
  }

  // No VLAN is enabled outside `seen`.
  ghost predicate QuietBut(d: Device, seen: set<nat>) {
    forall v :: FIRST_VLAN <= v < |d.vlans| && v !in seen ==> !Meant(d.vlans[v]).enabled
  }

  // A read-back that misses VLANs does no harm when the mode will be programmed
  // again or what it missed is off.
  ghost predicate Suffices(d: Device, rb: ReadBack) {
    rb.VlansFail? ==> d.mode != Rpvst || d.attr.(enabled := false) != ZERO || QuietBut(d, rb.seen)
  }

  /** Exactly which read-backs leave a cache that can be relied on. */
  lemma ReadTracks(d: Device, log: seq<Call>, rb: ReadBack)
    requires Readable(d)
    ensures Tracked(Read(d, log, rb)) <==> Suffices(d, rb)
  {
    var w := Read(d, log, rb);
    forall v | FIRST_VLAN <= v < MAX_VLANS
      ensures Tracks(w.cached[v], Base(w, {}, v)) <==>
              Remode(w) || Sees(rb, v) || !Meant(d.vlans[v]).enabled
    {
    }
  }

  /**
   * Nothing less will do: a cache that cannot be relied on has a request,
   * refused nothing, that succeeds and leaves the device otherwise.
   */
  lemma TrackedIsNeeded(w: World) returns (c: Config)
    requires w.Valid() && Readable(w.dev) && !Tracked(w)
    requires (w.mode == Off ==> AllOff(w.cached)) && (!Remode(w) ==> w.dev.mode == Rpvst)
    ensures |c.vlans| == MAX_VLANS && c.wanted == WantRpvst && Timed(c.vlans)
    ensures Apply(w, c, {}).1 && Apply(w, c, {}).0.Valid() && !Obeys(Apply(w, c, {}).0.dev.vlans, c.vlans)
  {
    var v: nat :| FIRST_VLAN <= v < MAX_VLANS && !Tracks(w.cached[v], Base(w, {}, v));
    c := Config(WantRpvst, Blank(MAX_VLANS)[v := w.cached[v]]);
    ApplySucceeds(w, c, {});
    ApplyLands(w, c, {}, Apply(w, c, {}));
    assert !LandsAt(w.cached[v], Base(w, {}, v), c.vlans[v], SetVlan(v) in {});
  }

  // The VLAN loop keeps track at every exit.
  lemma {:induction false} VlansTrack(cached: seq<Attr>, dev: seq<Option<Attr>>, log: seq<Call>, want: seq<Attr>,
                                      v: nat, refused: set<Call>, r: Outcome)
    requires |cached| == |dev| == |want| && r == Vlans(cached, dev, log, want, v, refused)
    requires forall u :: FIRST_VLAN <= u < |want| ==> Tracks(cached[u], Meant(dev[u]))
    requires forall u :: FIRST_VLAN <= u < |want| && !want[u].enabled ==> SetVlan(u) !in refused
    ensures |r.cached| == |r.dev| == |want|
    ensures forall u :: FIRST_VLAN <= u < |want| ==> Tracks(r.cached[u], Meant(r.dev[u]))
    decreases |want| - v
  {
    if v < |want| {
      if Same(cached[v], want[v]) {
        VlansTrack(cached, dev, log, want, v + 1, refused, r);
      } else if !(want[v].enabled && SetVlan(v) in refused) {
        VlansTrack(cached[v := want[v]], dev[v := Told(dev[v], want[v], SetVlan(v) in refused)],
                   log + [SetVlan(v)], want, v + 1, refused, r);
      }
    }
  }

  // Programming the mode keeps track, and leaves nothing to reprogram when it succeeds.
  lemma ModedTracks(w: World, refused: set<Call>, m: (World, bool))
    requires Tracked(w) && DeleteGlobal !in refused && m == Moded(w, refused)
    ensures Tracked(m.0) && (m.1 ==> m.0.mode == Rpvst && m.0.modeAttr == ZERO)
  {
  }

  // The device enables no VLAN.
  ghost predicate Quiet(d: Device) { QuietBut(d, {}) }

  /**
   * An apply keeps track at every exit. A successful rpvst one leaves the
   * device as configured. Cache and device agree after a success, but for a
   * request for no spanning tree to a client that takes a device with VLANs
   * enabled to be off.
   */
  lemma ApplyTracks(w: World, c: Config, refused: set<Call>, r: (World, bool))
    requires Tracked(w) && Legal(Request(c, refused, Fine, true, NotRestored)) && r == Apply(w, c, refused)
    ensures Tracked(r.0)
    ensures r.1 && c.wanted == WantRpvst ==> r.0.dev.mode == Rpvst && Obeys(r.0.dev.vlans, c.vlans)
    ensures r.1 ==> (Obeys(r.0.dev.vlans, r.0.cached) <==> c.wanted == WantRpvst || w.mode != Off || Quiet(w.dev))
  {
    if c.wanted == WantRpvst {
      var m := Moded(w, refused);
      ModedTracks(w, refused, m);
      if m.1 {
        var out := Vlans(m.0.cached, m.0.dev.vlans, m.0.log, c.vlans, FIRST_VLAN, refused);
        VlansTrack(m.0.cached, m.0.dev.vlans, m.0.log, c.vlans, FIRST_VLAN, refused, out);
        VlansSettle(m.0.cached, m.0.dev.vlans, m.0.log, c.vlans, FIRST_VLAN, refused, out);
        if r.1 {
          forall v | FIRST_VLAN <= v < MAX_VLANS
            ensures Same(out.cached[v], c.vlans[v]) && Same(Meant(out.dev[v]), out.cached[v])
          {
            TimedIsTrusted(out.cached[v], Meant(out.dev[v]), c.vlans[v]);
          }
        }
      }
    }
  }

  lemma TimedIsTrusted(cached: Attr, dev: Attr, want: Attr)
    requires Tracks(cached, dev) && Same(cached, want) && (want.enabled ==> !want.NoDelays())
    ensures Same(dev, cached)
  {
  }

  ghost predicate IsRun(ss: seq<Sys>, qs: seq<Request>) {
    && |ss| == |qs| + 1
    && (exists d :: Readable(d) && ss[0].w == Reread(d, [])) && Readable(ss[0].startup)
    && forall i :: 0 <= i < |qs| ==>
         && Legal(qs[i]) && ss[i].w.Valid() && ss[i + 1] == Next(ss[i], qs[i])
         && (!Reach(ss[i], qs[i]).1 && qs[i].restore.Restored? ==> Suffices(ss[i].startup, qs[i].restore.rb))
  }

  lemma {:induction false} RunTracks(ss: seq<Sys>, qs: seq<Request>, i: nat)
    requires IsRun(ss, qs) && i < |ss|
    ensures Tracked(ss[i].w) && Readable(ss[i].startup)
  {
    if i == 0 {
      var d :| Readable(d) && ss[0].w == Reread(d, []);
      ReadTracks(d, [], All);
    } else {
      RunTracks(ss, qs, i - 1);
      var s, q := ss[i - 1], qs[i - 1];
      ApplyTracks(s.w, q.config, q.refused, Apply(s.w, q.config, q.refused));
      if q.restore.Restored? {
        ReadTracks(s.startup, Reach(s, q).0.log, q.restore.rb);
      }
    }
  }

  /**
   * Along every run, from whatever device the client starts on, with requests
   * failing here or elsewhere, saves failing, and restores that are refused,
   * read back, or fail to read the mode or, where that suffices, some VLANs:
   * each successful rpvst request leaves the device as configured. Cache and
   * device agree after each success, with the one exception ApplyTracks names.
   */
  lemma RunSyncs(ss: seq<Sys>, qs: seq<Request>, i: nat)
    requires IsRun(ss, qs) && i < |qs| && ss[i].w.Valid() && Reach(ss[i], qs[i]).1
    ensures var w := ss[i + 1].w;
            && w.Valid()
            && (qs[i].config.wanted == WantRpvst ==> w.dev.mode == Rpvst && Obeys(w.dev.vlans, qs[i].config.vlans))
            && (Obeys(w.dev.vlans, w.cached) <==>
                qs[i].config.wanted == WantRpvst || ss[i].w.mode != Off || Quiet(ss[i].w.dev))
  {
    RunTracks(ss, qs, i);
    var s, q := ss[i], qs[i];
    ApplyTracks(s.w, q.config, q.refused, Apply(s.w, q.config, q.refused));
  }

  /** The same of the device, field by field: what each successful rpvst request of a run leaves on the switch. */
  lemma RunConfigures(ss: seq<Sys>, qs: seq<Request>, i: nat, v: nat)
    requires IsRun(ss, qs) && i < |qs| && ss[i].w.Valid() && Reach(ss[i], qs[i]).1
    requires qs[i].config.wanted == WantRpvst && 1 <= v < 4096
    ensures ss[i + 1].w.Valid() && ss[i + 1].w.dev.mode == Rpvst
    ensures var o, want := ss[i + 1].w.dev.vlans[v], qs[i].config.vlans[v];
            && (want.enabled <==> o.Some? && o.value.enabled)
            && (want.enabled ==>
                  && o.value.priority == want.priority && o.value.forwardDelay == want.forwardDelay
                  && o.value.helloTime == want.helloTime && o.value.maxAge == want.maxAge)
  {
    RunSyncs(ss, qs, i);
    assert Same(Meant(ss[i + 1].w.dev.vlans[v]), qs[i].config.vlans[v]);
  }

  /** A saved request followed by one that fails and is restored: the device is as the first left it. */
  lemma SavedComesBack(s: Sys, first: Request, second: Request)
    requires s.w.Valid() && |first.config.vlans| == |second.config.vlans| == MAX_VLANS
    requires Reach(s, first).1 && first.saved
    ensures Next(s, first).w.Valid()
    ensures !Reach(Next(s, first), second).1 && second.restore.Restored? ==>
              Next(Next(s, first), second).w.dev == Next(s, first).w.dev
  {
    ApplyCaches(s.w, first.config, first.refused, Apply(s.w, first.config, first.refused));
  }

  /** A restore that misses an enabled VLAN: a later request to turn everything off leaves it on. */
  lemma MissedVlanStaysOn(d: Device, seen: set<nat>, v: nat)
    requires Readable(d) && d.mode == Rpvst && d.attr == ZERO && FIRST_VLAN <= v < MAX_VLANS
    requires v !in seen && Meant(d.vlans[v]).enabled
    ensures var c, w := Config(WantRpvst, Blank(MAX_VLANS)), Read(d, [], VlansFail(seen));
            Apply(w, c, {}).1 && Apply(w, c, {}).0.Valid() && Meant(Apply(w, c, {}).0.dev.vlans[v]).enabled
  {
    var c, w := Config(WantRpvst, Blank(MAX_VLANS)), Read(d, [], VlansFail(seen));
    ApplySucceeds(w, c, {});
    ApplyCaches(w, c, {}, Apply(w, c, {}));
    var out := Vlans(w.cached, d.vlans, [], c.vlans, FIRST_VLAN, {});
    VlansTell(w.cached, d.vlans, [], c.vlans, FIRST_VLAN, {}, out);
  }

  /**
   * Without a delay the promise fails: a VLAN listed but disabled is read back
   * as enabled, and a request that enables it with no delays and the same
   * priority then makes no call for it.
   */
  lemma NoDelaysIsSkipped(d: Device, c: Config, v: nat)
    requires Readable(d) && d.mode == Rpvst && d.attr == ZERO
    requires |c.vlans| == MAX_VLANS && c.wanted == WantRpvst && FIRST_VLAN <= v < MAX_VLANS
    requires d.vlans[v].Some? && !d.vlans[v].value.enabled
    requires c.vlans[v] == ReadVlan(d.vlans[v])
    ensures Apply(Reread(d, []), c, {}).1 && Apply(Reread(d, []), c, {}).0.Valid()
    ensures !Obeys(Apply(Reread(d, []), c, {}).0.dev.vlans, c.vlans)
  {
    var w := Reread(d, []);
    ApplySucceeds(w, c, {});
    ApplyLands(w, c, {}, Apply(w, c, {}));
    assert !LandsAt(w.cached[v], Base(w, {}, v), c.vlans[v], SetVlan(v) in {});
  }

  /**
   * A device in rpvst that reports values for its global entry: read back, a
   * VLAN configured exactly as it was read loses its entry.
   */
  lemma RestoreLosesVlan(d: Device, c: Config, v: nat)
    requires Readable(d) && d.mode == Rpvst && d.attr.(enabled := false) != ZERO
    requires |c.vlans| == MAX_VLANS && c.wanted == WantRpvst && FIRST_VLAN <= v < MAX_VLANS
    requires d.vlans[v].Some? && c.vlans[v] == ReadVlan(d.vlans[v])
    ensures Apply(Reread(d, []), c, {}).1 && Apply(Reread(d, []), c, {}).0.Valid()
    ensures !Meant(Apply(Reread(d, []), c, {}).0.dev.vlans[v]).enabled
  {
    RemodeLosesVlan(Reread(d, []), c, v);
  }

  /* ---- the mode ---- */

  /**
   * Exactly when a request with no silent refusal leaves the cache right
   * about the mode: always on success; after a restore, when the mode was
   * read or is off; after a refused restore, when the apply did not stop
   * between changing the device's mode and recording it.
   */
  lemma ModeKnown(s: Sys, q: Request)
    requires s.w.Valid() && |q.config.vlans| == MAX_VLANS && DeleteGlobal !in q.refused
    requires s.w.mode == s.w.dev.mode
    ensures var n := Next(s, q);
            n.w.mode == n.w.dev.mode <==>
            if Reach(s, q).1 then true
            else if q.restore.Restored? then
              s.startup.mode == Off || (s.startup.mode != Mst && !q.restore.rb.ModeFails?)
            else
              || q.elsewhere == FailsBefore || q.config.wanted != WantRpvst || !Remode(s.w)
              || (if SetMode in q.refused then s.w.mode == Off
                  else EnablePorts in q.refused ==> s.w.mode == Rpvst)
  {
  }

  /**
   * A refused ports call whose restore fails too leaves the device in rpvst
   * and the cache off; a later request for no spanning tree then succeeds
   * without a call.
   */
  lemma StuckInRpvst(s: Sys, c: Config, none: Config)
    requires s.w.Valid() && |c.vlans| == |none.vlans| == MAX_VLANS
    requires s.w.mode == Off && c.wanted == WantRpvst && none.wanted == WantNone
    ensures var f := Next(s, Request(c, {EnablePorts}, Fine, true, NotRestored));
            && f.w.Valid() && Reach(f, Request(none, {}, Fine, true, NotRestored)) == (f.w, true) && f.w.dev.mode == Rpvst
  {
  }

  /* ---- the platform state ---- */

  class StpState {
    var mode: Mode
    var modeAttr: Attr
    const cached: array<Attr>
    // The switch, seen only through the calls below.
    var devMode: Mode
    var devAttr: Attr
    const devFresh: Attr
    const dev: array<Option<Attr>>
    var log: seq<Call>

    ghost predicate Valid() {
      cached.Length == dev.Length == MAX_VLANS && (cached as object) != dev
    }

    function Now(): World
      reads this, cached, dev
    {
      World(mode, modeAttr, cached[..], Device(devMode, devAttr, devFresh, dev[..]), log)
    }

    constructor (w: World)
      requires w.Valid()
      ensures Valid() && Now() == w && fresh(cached) && fresh(dev)
    {
      mode, modeAttr, log := w.mode, w.modeAttr, w.log;
      devMode, devAttr, devFresh := w.dev.mode, w.dev.attr, w.dev.onSet;
      cached := new Attr[|w.cached|](i requires 0 <= i < |w.cached| => w.cached[i]);
      var entries := w.dev.vlans;
      dev := new Option<Attr>[|entries|](i requires 0 <= i < |entries| => entries[i]);
      new;
      assert cached[..] == w.cached && dev[..] == w.dev.vlans;
    }

    method ClearCache()
      modifies cached
      ensures cached[..] == Blank(cached.Length)
    {
      forall i | 0 <= i < cached.Length {
        cached[i] := ZERO;
      }
    }

    method DropGlobal(refused: set<Call>)
      requires Valid()
      modifies this`devMode, this`devAttr, this`log, dev
      ensures Now() == Deleted(old(Now()), refused)
    {
      log := log + [DeleteGlobal];
      if DeleteGlobal !in refused {
        forall i | 0 <= i < dev.Length {
          dev[i] := None;
        }
        assert dev[..] == NoEntries(dev.Length);
        devMode, devAttr := Off, ZERO;
      }
    }

    method ApplyMode(refused: set<Call>) returns (ok: bool)
      requires Valid()
      modifies this`mode, this`modeAttr, this`devMode, this`devAttr, this`log, dev
      ensures (Now(), ok) == Moded(old(Now()), refused)
    {
      if mode != Rpvst || modeAttr != ZERO {
        DropGlobal(refused);
        log := log + [SetMode];
        if SetMode in refused {
          return false;
        }
        devMode, devAttr := Rpvst, devFresh;
        log := log + [EnablePorts];
        if EnablePorts in refused {
          return false;
        }
        mode, modeAttr := Rpvst, ZERO;
      }
      return true;
    }

    method ApplyVlans(want: seq<Attr>, refused: set<Call>) returns (ok: bool)
      requires Valid() && |want| == MAX_VLANS
      modifies this`log, cached, dev
      ensures Outcome(cached[..], dev[..], log, ok) ==
              Vlans(old(cached[..]), old(dev[..]), old(log), want, FIRST_VLAN, refused)
    {
      ghost var goal := Vlans(cached[..], dev[..], log, want, FIRST_VLAN, refused);
      var v := FIRST_VLAN;
      while v < |want|
        invariant FIRST_VLAN <= v <= |want|
        invariant Vlans(cached[..], dev[..], log, want, v, refused) == goal
      {
        if Same(cached[v], want[v]) {
          v := v + 1;
          continue;
        }
        log := log + [SetVlan(v)];
        ghost var c, d := cached[..], dev[..];
        if want[v].enabled && SetVlan(v) in refused {
          return false;
        }
        dev[v] := Told(dev[v], want[v], SetVlan(v) in refused);
        cached[v] := want[v];
        assert cached[..] == c[v := want[v]] && dev[..] == d[v := Told(d[v], want[v], SetVlan(v) in refused)];
        v := v + 1;
      }
      return true;
    }

    /** The apply step of the configuration transaction. */
    method ConfigStpApply(c: Config, refused: set<Call>) returns (ok: bool)
      requires Valid() && |c.vlans| == MAX_VLANS
      modifies this`mode, this`modeAttr, this`devMode, this`devAttr, this`log, cached, dev
      ensures (Now(), ok) == Apply(old(Now()), c, refused)
    {
      match c.wanted
      case WantNone =>
        if mode != Off {
          DropGlobal(refused);
          mode := Off;
          ClearCache();
        }
        return true;
      case WantRpvst =>
        ok := ApplyMode(refused);
        if ok {
          ok := ApplyVlans(c.vlans, refused);
        }
      case WantOther =>
        return false;
    }

    /** The part of a restore that reads spanning tree back, as far as it gets. */
    method StateInit(rb: ReadBack) returns (ok: bool)
      requires Valid()
      modifies this`mode, this`modeAttr, cached
      ensures Now() == Read(old(Now()).dev, log, rb) && ok == (devMode != Mst && rb.All?)
    {
      ghost var d := Now().dev;
      mode, modeAttr := Off, ZERO;
      ClearCache();
      if devMode == Mst || rb.ModeFails? {
        return false;
      }
      mode := devMode;
      modeAttr := if devMode == Off then ZERO else devAttr.(enabled := false);
      for v := 0 to dev.Length
        invariant forall u :: 0 <= u < v ==> cached[u] == if Sees(rb, u) then ReadVlan(dev[u]) else ZERO
        invariant forall u :: v <= u < dev.Length ==> cached[u] == ZERO
        invariant Now().dev == d && mode == d.mode && modeAttr == if d.mode == Off then ZERO else d.attr.(enabled := false)
      {
        if dev[v].Some? && Sees(rb, v) {
          cached[v] := cached[v].(enabled := true);
          cached[v] := cached[v].(priority := dev[v].value.priority);
        }
      }
      assert cached[..] == ReadSome(d.vlans, rb);
      return rb.All?;
    }
  }
}
