/**
 * PoE on one port: five settings compared with the cache and sent one by one,
 * stopping at the first refusal.
 */
module Poe {
  import opened Options

  datatype Detection = TwoPt | TwoPtLegacy | FourPt | FourPtLegacy | Bt | BtLegacy | Legacy

  datatype Priority = Low | Medium | High | Critical

  // An unknown name selects the default.
  function DetectionOf(s: string): Detection {
    if s == "2pt-dot3af" then TwoPt
    else if s == "2pt-dot3af+legacy" then TwoPtLegacy
    else if s == "4pt-dot3af" then FourPt
    else if s == "4pt-dot3af+legacy" then FourPtLegacy
    else if s == "dot3bt" then Bt
    else if s == "dot3bt+legacy" then BtLegacy
    else if s == "legacy" then Legacy
    else FourPt
  }

  function PriorityOf(s: string): Priority {
    if s == "low" then Low
    else if s == "medium" then Medium
    else if s == "high" then High
    else if s == "critical" then Critical
    else Low
  }

  /** The names a configuration can give, each with its own setting; any other name selects the default. */
  lemma NamesMean(s: string)
    ensures (DetectionOf("2pt-dot3af"), DetectionOf("2pt-dot3af+legacy")) == (TwoPt, TwoPtLegacy)
    ensures (DetectionOf("4pt-dot3af"), DetectionOf("4pt-dot3af+legacy")) == (FourPt, FourPtLegacy)
    ensures (DetectionOf("dot3bt"), DetectionOf("dot3bt+legacy"), DetectionOf("legacy")) == (Bt, BtLegacy, Legacy)
    ensures s !in {"2pt-dot3af", "2pt-dot3af+legacy", "4pt-dot3af", "4pt-dot3af+legacy", "dot3bt", "dot3bt+legacy", "legacy"}
            ==> DetectionOf(s) == FourPt
    ensures (PriorityOf("low"), PriorityOf("medium"), PriorityOf("high"), PriorityOf("critical")) == (Low, Medium, High, Critical)
    ensures s !in {"low", "medium", "high", "critical"} ==> PriorityOf(s) == Low
  {
    assert |"2pt-dot3af"| == 10 && |"2pt-dot3af+legacy"| == 17 && |"4pt-dot3af"| == 10 && |"4pt-dot3af+legacy"| == 17;
    assert "2pt-dot3af"[0] != "4pt-dot3af"[0] && "2pt-dot3af+legacy"[0] != "4pt-dot3af+legacy"[0];
    assert |"dot3bt"| == 6 && |"dot3bt+legacy"| == 13 && |"legacy"| == 6 && "dot3bt"[0] != "legacy"[0];
    assert |"low"| == 3 && |"medium"| == 6 && |"high"| == 4 && |"critical"| == 8;
  }

  datatype Config = Config(detection: Option<string>, priority: Option<string>, limit: Option<nat>,
                           adminUp: bool, doReset: bool)

  // A port's settings. `limit` matters only when `byUser` is set.
  datatype Settings = Settings(detection: Detection, priority: Priority, limit: nat, byUser: bool, adminUp: bool)

  datatype Call = SetDetection | SetPriority | SetLimit | SetAdmin | Reset

  // The settings a configuration asks for, given those in force.
  function Target(c: Config, s: Settings): Settings {
    Settings(
      if c.detection.Some? then DetectionOf(c.detection.value) else s.detection,
      if c.priority.Some? then PriorityOf(c.priority.value) else s.priority,
      if c.limit.Some? then c.limit.value else 0,
      c.limit.Some?,
      c.adminUp)
  }

  // The call is needed to get from the cached settings to the target.
  predicate Needed(k: Call, c: Config, s: Settings) {
    var t := Target(c, s);
    match k
    case SetDetection => s.detection != t.detection
    case SetPriority => s.priority != t.priority
    case SetLimit => s.limit != t.limit || s.byUser != t.byUser
    case SetAdmin => s.adminUp != t.adminUp
    case Reset => c.doReset
  }

  // What an accepted call does to the cached settings.
  function Cached(k: Call, t: Settings, s: Settings): Settings {
    match k
    case SetDetection => s.(detection := t.detection)
    case SetPriority => s.(priority := t.priority)
    case SetLimit => s.(limit := t.limit, byUser := t.byUser)
    case SetAdmin => s.(adminUp := t.adminUp)
    case Reset => s
  }

  // The device is not sent a limit unless the user defines one.
  function Sent(k: Call, t: Settings, d: Settings): Settings {
    if k == SetLimit && !t.byUser then d.(byUser := false) else Cached(k, t, d)
  }

  /** Cache and device mean the same. */
  predicate Agree(s: Settings, d: Settings) {
    && s.detection == d.detection && s.priority == d.priority && s.adminUp == d.adminUp
    && s.byUser == d.byUser && (s.byUser ==> s.limit == d.limit)
  }

  datatype World = World(cache: Settings, dev: Settings, log: seq<Call>)

  // One setting: skipped when not needed, abandoned for good at a refusal.
  function Step(k: Call, c: Config, r: (World, bool), refused: set<Call>): (World, bool) {
    var (w, ok) := r;
    if !ok || !Needed(k, c, w.cache) then r
    else if k in refused then (w.(log := w.log + [k]), false)
    else
      var t := Target(c, w.cache);
      (World(Cached(k, t, w.cache), Sent(k, t, w.dev), w.log + [k]), true)
  }

  function Apply(c: Config, w: World, refused: set<Call>): (World, bool) {
    var d := Step(SetDetection, c, (w, true), refused);
    var p := Step(SetPriority, c, d, refused);
    var l := Step(SetLimit, c, p, refused);
    var a := Step(SetAdmin, c, l, refused);
    Step(Reset, c, a, refused)
  }

  lemma StepAgrees(k: Call, c: Config, r: (World, bool), refused: set<Call>)
    requires Agree(r.0.cache, r.0.dev)
    ensures Agree(Step(k, c, r, refused).0.cache, Step(k, c, r, refused).0.dev)
  {
  }

  /** Whatever is refused, cache and device still agree at the exit. */
  lemma ApplyAgrees(c: Config, w: World, refused: set<Call>)
    requires Agree(w.cache, w.dev)
    ensures Agree(Apply(c, w, refused).0.cache, Apply(c, w, refused).0.dev)
  {
    var d := Step(SetDetection, c, (w, true), refused);
    var p := Step(SetPriority, c, d, refused);
    var l := Step(SetLimit, c, p, refused);
    var a := Step(SetAdmin, c, l, refused);
    StepAgrees(SetDetection, c, (w, true), refused);
    StepAgrees(SetPriority, c, d, refused);
    StepAgrees(SetLimit, c, p, refused);
    StepAgrees(SetAdmin, c, l, refused);
    StepAgrees(Reset, c, a, refused);
  }

  // The order of the calls.
  function Rank(k: Call): nat {
    match k
    case SetDetection => 0
    case SetPriority => 1
    case SetLimit => 2
    case SetAdmin => 3
    case Reset => 4
  }

  // Settings moved to the target by the first n calls.
  function Mixed(n: nat, s: Settings, t: Settings): Settings {
    Settings(
      if n > 0 then t.detection else s.detection,
      if n > 1 then t.priority else s.priority,
      if n > 2 then t.limit else s.limit,
      if n > 2 then t.byUser else s.byUser,
      if n > 3 then t.adminUp else s.adminUp)
  }

  // No needed call among the first n is refused.
  predicate Clear(n: nat, c: Config, s: Settings, refused: set<Call>) {
    forall k :: Rank(k) < n && Needed(k, c, s) ==> k !in refused
  }

  // How far the settings have come after the first n calls.
  predicate Reached(n: nat, c: Config, s: Settings, refused: set<Call>, r: (World, bool)) {
    && r.1 == Clear(n, c, s, refused)
    && (r.1 ==> r.0.cache == Mixed(n, s, Target(c, s)))
  }

  lemma SameNeed(k: Call, c: Config, s: Settings)
    ensures Target(c, Mixed(Rank(k), s, Target(c, s))) == Target(c, s)
    ensures Needed(k, c, Mixed(Rank(k), s, Target(c, s))) == Needed(k, c, s)
  {
  }

  lemma ClearSteps(k: Call, c: Config, s: Settings, refused: set<Call>)
    ensures Clear(Rank(k) + 1, c, s, refused) == (Clear(Rank(k), c, s, refused) && (Needed(k, c, s) ==> k !in refused))
  {
    assert forall j :: Rank(j) == Rank(k) ==> j == k;
  }

  lemma StepReaches(k: Call, c: Config, s: Settings, refused: set<Call>, r: (World, bool))
    requires Reached(Rank(k), c, s, refused, r)
    ensures Reached(Rank(k) + 1, c, s, refused, Step(k, c, r, refused))
  {
    SameNeed(k, c, s);
    ClearSteps(k, c, s, refused);
    if r.1 {
      MixedSteps(k, c, s);
    }
  }

  lemma MixedSteps(k: Call, c: Config, s: Settings)
    ensures var m := Mixed(Rank(k), s, Target(c, s));
            Mixed(Rank(k) + 1, s, Target(c, s)) == if Needed(k, c, s) then Cached(k, Target(c, s), m) else m
  {
  }

  // The device obeyed the configuration.
  predicate Obeys(d: Settings, c: Config) {
    && (c.detection.Some? ==> d.detection == DetectionOf(c.detection.value))
    && (c.priority.Some? ==> d.priority == PriorityOf(c.priority.value))
    && d.byUser == c.limit.Some? && (c.limit.Some? ==> d.limit == c.limit.value)
    && d.adminUp == c.adminUp
  }

  /**
   * Success is exactly that no needed call was refused. Then the cache is the
   * target, the device obeys the configuration, and a setting the
   * configuration leaves open has not moved.
   */
  lemma ApplyReaches(c: Config, w: World, refused: set<Call>, r: (World, bool))
    requires r == Apply(c, w, refused)
    ensures r.1 <==> forall k :: Needed(k, c, w.cache) ==> k !in refused
    ensures r.1 ==> r.0.cache == Target(c, w.cache)
    ensures r.1 && Agree(w.cache, w.dev) ==>
              && Obeys(r.0.dev, c)
              && (c.detection.None? ==> r.0.dev.detection == w.dev.detection)
              && (c.priority.None? ==> r.0.dev.priority == w.dev.priority)
  {
    var d := Step(SetDetection, c, (w, true), refused);
    var p := Step(SetPriority, c, d, refused);
    var l := Step(SetLimit, c, p, refused);
    var a := Step(SetAdmin, c, l, refused);
    StepReaches(SetDetection, c, w.cache, refused, (w, true));
    StepReaches(SetPriority, c, w.cache, refused, d);
    StepReaches(SetLimit, c, w.cache, refused, p);
    StepReaches(SetAdmin, c, w.cache, refused, l);
    StepReaches(Reset, c, w.cache, refused, a);
    if Agree(w.cache, w.dev) {
      ApplyAgrees(c, w, refused);
    }
  }

  /** Asking again resends nothing; only a requested reset happens again. */
  lemma RepeatOnlyResets(c: Config, w: World, refused: set<Call>, later: set<Call>, r: World)
    requires Apply(c, w, refused) == (r, true)
    ensures Apply(c, r, later) == if c.doReset then (r.(log := r.log + [Reset]), Reset !in later) else (r, true)
  {
    ApplyReaches(c, w, refused, (r, true));
  }

  // The device's limit moves only when the user defines one.
  lemma StepLimit(k: Call, c: Config, r: (World, bool), refused: set<Call>)
    ensures var n := Step(k, c, r, refused);
            n.0.dev.limit == if k == SetLimit && r.1 && n.1 && c.limit.Some? && Needed(k, c, r.0.cache)
                             then c.limit.value else r.0.dev.limit
    ensures Step(k, c, r, refused).1 ==> r.1
    ensures k != SetLimit ==> Step(k, c, r, refused).0.cache.limit == r.0.cache.limit &&
                              Step(k, c, r, refused).0.cache.byUser == r.0.cache.byUser
  {
  }

  /**
   * Leaf for leaf the cache can differ from the device in one place: a limit
   * that went back to class-based is cached as zero but never erased.
   */
  lemma LimitLingers(c: Config, w: World, refused: set<Call>, r: World)
    requires w.cache == w.dev && Apply(c, w, refused) == (r, true)
    ensures r.cache == r.dev <==> c.limit.Some? || w.dev.limit == 0
  {
    ApplyAgrees(c, w, refused);
    ApplyReaches(c, w, refused, (r, true));
    if c.limit.None? {
      assert r.dev.limit == w.dev.limit by {
        var d := Step(SetDetection, c, (w, true), refused);
        var p := Step(SetPriority, c, d, refused);
        var l := Step(SetLimit, c, p, refused);
        var a := Step(SetAdmin, c, l, refused);
        StepLimit(SetDetection, c, (w, true), refused);
        StepLimit(SetPriority, c, d, refused);
        StepLimit(SetLimit, c, p, refused);
        StepLimit(SetAdmin, c, l, refused);
        StepLimit(Reset, c, a, refused);
      }
    }
  }

  /** A port with a user-defined limit goes back to class-based: the old limit stays on the device. */
  lemma LimitStays(s: Settings, limit: nat)
    requires s.byUser && s.limit == limit > 0
    ensures var c := Config(None, None, None, s.adminUp, false);
            var (r, ok) := Apply(c, World(s, s, []), {});
            ok && r.cache.limit == 0 && r.dev.limit == limit && Agree(r.cache, r.dev)
  {
    var c := Config(None, None, None, s.adminUp, false);
    var w := World(s, s, []);
    assert Step(SetDetection, c, (w, true), {}) == (w, true);
    assert Step(SetPriority, c, (w, true), {}) == (w, true);
  }

  class Port {
    var cache: Settings
    // The switch, seen only through the calls below.
    var dev: Settings
    var log: seq<Call>

    ghost function Now(): World
      reads this
    {
      World(cache, dev, log)
    }

    constructor (w: World)
      ensures Now() == w
    {
      cache, dev, log := w.cache, w.dev, w.log;
    }

    method Ask(k: Call, t: Settings, refused: set<Call>) returns (ok: bool)
      modifies this`dev, this`log
      ensures ok == (k !in refused) && log == old(log) + [k]
      ensures dev == if ok then Sent(k, t, old(dev)) else old(dev)
    {
      log := log + [k];
      ok := k !in refused;
      if ok {
        dev := Sent(k, t, dev);
      }
    }

    method ApplyDetection(c: Config, refused: set<Call>) returns (ok: bool)
      modifies this
      ensures (Now(), ok) == Step(SetDetection, c, (old(Now()), true), refused)
    {
      if c.detection.Some? {
        var mode := DetectionOf(c.detection.value);
        if cache.detection != mode {
          ok := Ask(SetDetection, cache.(detection := mode), refused);
          if ok {
            cache := cache.(detection := mode);
          }
          return;
        }
      }
      return true;
    }

    method ApplyPriority(c: Config, refused: set<Call>) returns (ok: bool)
      modifies this
      ensures (Now(), ok) == Step(SetPriority, c, (old(Now()), true), refused)
    {
      if c.priority.Some? {
        var priority := PriorityOf(c.priority.value);
        if cache.priority != priority {
          ok := Ask(SetPriority, cache.(priority := priority), refused);
          if ok {
            cache := cache.(priority := priority);
          }
          return;
        }
      }
      return true;
    }

    method ApplyLimit(c: Config, refused: set<Call>) returns (ok: bool)
      modifies this
      ensures (Now(), ok) == Step(SetLimit, c, (old(Now()), true), refused)
    {
      var limit, byUser := 0, false;
      if c.limit.Some? {
        limit, byUser := c.limit.value, true;
      }
      if cache.limit != limit || cache.byUser != byUser {
        ok := Ask(SetLimit, cache.(limit := limit, byUser := byUser), refused);
        if ok {
          cache := cache.(limit := limit, byUser := byUser);
        }
        return;
      }
      return true;
    }

    method ApplyAdmin(c: Config, refused: set<Call>) returns (ok: bool)
      modifies this
      ensures (Now(), ok) == Step(SetAdmin, c, (old(Now()), true), refused)
    {
      if cache.adminUp != c.adminUp {
        ok := Ask(SetAdmin, cache.(adminUp := c.adminUp), refused);
        if ok {
          cache := cache.(adminUp := c.adminUp);
        }
        return;
      }
      return true;
    }

    /** The apply step for one port. */
    method ConfigPoePortApply(c: Config, refused: set<Call>) returns (ok: bool)
      modifies this
      ensures (Now(), ok) == Apply(c, old(Now()), refused)
    {
      ok := ApplyDetection(c, refused);
      if !ok {
        return;
      }
      ok := ApplyPriority(c, refused);
      if !ok {
        return;
      }
      ok := ApplyLimit(c, refused);
      if !ok {
        return;
      }
      ok := ApplyAdmin(c, refused);
      if !ok {
        return;
      }
      if c.doReset {
        ok := Ask(Reset, cache, refused);
      }
    }
  }
}
