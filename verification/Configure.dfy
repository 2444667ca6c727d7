/**
 * The configure transaction: parse, apply, then save or restore, with the
 * active and latest uuids, the saved id, and the poll threads; together with
 * the connect and telemetry handlers that touch the same state.
 *
 * A configuration is its device content plus its metrics section. The answers
 * of the platform arrive with the event.
 */
module Configure {
  import opened Options

  datatype Poll = Poll(enabled: bool, interval: nat)

  const OFF := Poll(false, 0)

  datatype Metrics = Metrics(state: Poll, health: Poll, telemetry: Poll)

  datatype Config = Config(content: int, metrics: Metrics)

  datatype Event =
    | BadParams
    | ParseFails(uuid: int)
    | ApplyFails(uuid: int, debris: int, restored: bool)
    | Applied(uuid: int, cfg: Config, saved: bool, idStored: bool, metricsSaved: bool)
    | Connect(metricsReadable: bool)
    // the interval is a floating-point number, stored with its fraction cut off
    | Telemetry(valid: bool, nonzero: bool, stored: nat)

  datatype Reply = Reply(applied: bool, uuid: int)

  // `book` records the content last applied under each uuid.
  datatype World = World(
    uuidActive: int, uuidLatest: int, running: int, startup: int, savedId: Option<int>,
    metrics: Metrics, savedMetrics: Option<Metrics>,
    statePoll: Option<nat>, healthPoll: Option<nat>, telemetryPoll: Option<nat>,
    replies: seq<Reply>, book: map<int, int>)

  function Start(p: Poll): Option<nat> { if p.enabled then Some(p.interval) else None }

  // The metrics file holds no telemetry.
  function ToFile(m: Metrics): Metrics { m.(telemetry := OFF) }

  function LoadId(saved: Option<int>): int { if saved.Some? then saved.value else 1 }

  function Step(w: World, e: Event): World {
    match e
    case BadParams =>
      w.(replies := w.replies + [Reply(false, 0)])
    case ParseFails(uuid) =>
      w.(uuidLatest := uuid, replies := w.replies + [Reply(false, 0)])
    case ApplyFails(uuid, debris, restored) =>
      w.(uuidLatest := uuid, running := if restored then w.startup else debris,
         replies := w.replies + [Reply(false, uuid)])
    case Applied(uuid, cfg, saved, idStored, metricsSaved) =>
      var m := cfg.metrics;
      w.(uuidLatest := uuid, uuidActive := uuid, running := cfg.content,
         startup := if saved then cfg.content else w.startup,
         savedId := if saved && idStored then Some(uuid) else w.savedId,
         metrics := m, savedMetrics := if metricsSaved then Some(ToFile(m)) else w.savedMetrics,
         statePoll := Start(m.state), healthPoll := Start(m.health), telemetryPoll := Start(m.telemetry),
         replies := w.replies + [Reply(true, uuid)], book := w.book[uuid := cfg.content])
    case Connect(readable) =>
      var w1 := w.(uuidActive := LoadId(w.savedId));
      if !readable || w.savedMetrics.None? then w1
      else
        var m := w.savedMetrics.value;
        w1.(metrics := m, statePoll := Start(m.state), healthPoll := Start(m.health))
    case Telemetry(valid, nonzero, stored) =>
      if !valid then w
      else
        var p := Poll(nonzero, stored);
        w.(metrics := w.metrics.(telemetry := p), telemetryPoll := Start(p))
  }

  function Run(w: World, es: seq<Event>): World
    decreases es
  {
    if es == [] then w else Run(Step(w, es[0]), es[1..])
  }

  // ----- the uuid names the configuration

  /** Running and startup are both the configuration named by the active uuid, which is the saved id. */
  ghost predicate Named(w: World) {
    && w.uuidActive in w.book && w.running == w.startup == w.book[w.uuidActive]
    && LoadId(w.savedId) == w.uuidActive
  }

  /** Exactly when one event keeps the names right. */
  ghost predicate KeepsNames(w: World, e: Event) {
    match e
    case ApplyFails(_, debris, restored) => restored || debris == w.startup
    case Applied(uuid, cfg, saved, idStored, _) =>
      && (saved || w.startup == cfg.content)
      && ((saved && idStored) || LoadId(w.savedId) == uuid)
    case _ => true
  }

  lemma StepKeepsNames(w: World, e: Event)
    requires Named(w)
    ensures Named(Step(w, e)) <==> KeepsNames(w, e)
  {
  }

  // The platform's saves and restores succeed.
  predicate Dependable(e: Event) {
    match e
    case ApplyFails(_, _, restored) => restored
    case Applied(_, _, saved, idStored, _) => saved && idStored
    case _ => true
  }

  /** Over every run in which saves and restores succeed, whatever else fails. */
  lemma {:induction false} RunKeepsNames(w: World, es: seq<Event>, out: World)
    requires Named(w) && out == Run(w, es) && forall i :: 0 <= i < |es| ==> Dependable(es[i])
    ensures Named(out)
    decreases es
  {
    if es != [] {
      StepKeepsNames(w, es[0]);
      RunKeepsNames(Step(w, es[0]), es[1..], out);
    }
  }

  /**
   * A request answered APPLIED whose save failed is undone by the restore
   * that a later, rejected request triggers, while its uuid stays active.
   */
  lemma UnsavedIsUndone(w: World, a: Config, uuid: int, later: int, debris: int)
    requires Named(w) && a.content != w.startup
    ensures var out := Run(w, [Applied(uuid, a, false, false, true), ApplyFails(later, debris, true)]);
            && out.replies == w.replies + [Reply(true, uuid), Reply(false, later)]
            && out.uuidActive == uuid && uuid in out.book && out.running != out.book[uuid]
  {
    var w1 := Step(w, Applied(uuid, a, false, false, true));
    var w2 := Step(w1, ApplyFails(later, debris, true));
    var es := [Applied(uuid, a, false, false, true), ApplyFails(later, debris, true)];
    assert es[1..] == [ApplyFails(later, debris, true)] && es[1..][1..] == [];
    assert Run(w1, es[1..]) == Run(w2, []);
  }

  // ----- replies

  predicate IsConfigure(e: Event) { !e.Connect? && !e.Telemetry? }

  /**
   * Every configure request is answered once. A rejection leaves the active
   * uuid, the metrics and the polls alone; an APPLIED carries the uuid that is
   * now active.
   */
  lemma StepReplies(w: World, e: Event)
    ensures var w' := Step(w, e);
            if !IsConfigure(e) then w'.replies == w.replies
            else
              && |w'.replies| == |w.replies| + 1 && w'.replies[..|w.replies|] == w.replies
              && var r := w'.replies[|w.replies|];
                 if r.applied then r.uuid == w'.uuidActive
                 else
                   && w'.uuidActive == w.uuidActive && w'.metrics == w.metrics && w'.book == w.book
                   && (w'.statePoll, w'.healthPoll, w'.telemetryPoll) == (w.statePoll, w.healthPoll, w.telemetryPoll)
  {
  }

  // Requests answered APPLIED, and the uuid of the last one.
  function Accepted(rs: seq<Reply>, u: int): int {
    if rs == [] then u
    else
      var n := |rs| - 1;
      if rs[n].applied then rs[n].uuid else Accepted(rs[..n], u)
  }

  /** Without a reconnect, the active uuid is that of the last APPLIED reply. */
  lemma {:induction false} ActiveIsLastApplied(w: World, es: seq<Event>, u: int, out: World)
    requires w.uuidActive == Accepted(w.replies, u) && out == Run(w, es)
    requires forall i :: 0 <= i < |es| ==> !es[i].Connect?
    ensures out.uuidActive == Accepted(out.replies, u)
    decreases es
  {
    if es != [] {
      StepReplies(w, es[0]);
      ActiveIsLastApplied(Step(w, es[0]), es[1..], u, out);
    }
  }

  // ----- polls

  /** The state and health polls run exactly as the metrics say. */
  ghost predicate PollsAgree(w: World) {
    w.statePoll == Start(w.metrics.state) && w.healthPoll == Start(w.metrics.health)
  }

  ghost predicate TelemetryAgrees(w: World) { w.telemetryPoll == Start(w.metrics.telemetry) }

  // What is read back from the metrics file has telemetry off.
  ghost predicate FileOk(w: World) { w.savedMetrics.Some? ==> w.savedMetrics.value.telemetry == OFF }

  lemma StepKeepsPolls(w: World, e: Event)
    requires PollsAgree(w) && FileOk(w)
    ensures PollsAgree(Step(w, e)) && FileOk(Step(w, e))
    ensures TelemetryAgrees(w) && !e.Connect? ==> TelemetryAgrees(Step(w, e))
  {
  }

  // The polls and stored metrics are those of this state and health section.
  ghost predicate Follows(w: World, m: Metrics) {
    && w.metrics.state == m.state && w.metrics.health == m.health
    && w.statePoll == (if m.state.enabled then Some(m.state.interval) else None)
    && w.healthPoll == (if m.health.enabled then Some(m.health.interval) else None)
  }

  /**
   * What an applied request puts in force: the stored metrics are those of the
   * configuration, each poll runs at its own interval exactly if its own section
   * enables it, the file holds state and health with telemetry off, and the
   * configuration is the running one under the request's uuid.
   */
  lemma AppliedUses(w: World, uuid: int, cfg: Config, saved: bool, idStored: bool, metricsSaved: bool)
    ensures var w' := Step(w, Applied(uuid, cfg, saved, idStored, metricsSaved));
            && w'.metrics == cfg.metrics && Follows(w', cfg.metrics)
            && w'.telemetryPoll == (if cfg.metrics.telemetry.enabled then Some(cfg.metrics.telemetry.interval) else None)
            && (metricsSaved ==> w'.savedMetrics == Some(Metrics(cfg.metrics.state, cfg.metrics.health, Poll(false, 0))))
            && (!metricsSaved ==> w'.savedMetrics == w.savedMetrics)
            && w'.running == cfg.content && w'.uuidActive == w'.uuidLatest == uuid
            && w'.startup == (if saved then cfg.content else w.startup)
            && w'.savedId == (if saved && idStored then Some(uuid) else w.savedId)
  {
  }

  /**
   * A readable reconnect restores exactly the saved state and health sections;
   * any reconnect takes the saved id as the active uuid, or 1.
   */
  lemma ConnectUses(w: World, readable: bool)
    ensures var w' := Step(w, Connect(readable));
            && w'.uuidActive == (if w.savedId.Some? then w.savedId.value else 1)
            && w'.telemetryPoll == w.telemetryPoll
            && (if readable && w.savedMetrics.Some? then Follows(w', w.savedMetrics.value)
                else w'.metrics == w.metrics && w'.statePoll == w.statePoll && w'.healthPoll == w.healthPoll)
  {
  }

  /** A valid telemetry request sets the telemetry poll and nothing else; an invalid one changes nothing. */
  lemma TelemetryUses(w: World, nonzero: bool, stored: nat)
    ensures var w' := Step(w, Telemetry(true, nonzero, stored));
            && w'.telemetryPoll == (if nonzero then Some(stored) else None)
            && w'.metrics.telemetry == Poll(nonzero, stored)
            && w' == w.(telemetryPoll := w'.telemetryPoll, metrics := w.metrics.(telemetry := w'.metrics.telemetry))
    ensures Step(w, Telemetry(false, nonzero, stored)) == w
  {
  }

  /** Rejections: a request that cannot be read or parsed is answered with uuid 0, one that fails to apply with its own. */
  lemma RejectionReplies(w: World, uuid: int, debris: int, restored: bool)
    ensures Step(w, BadParams) == w.(replies := w.replies + [Reply(false, 0)])
    ensures Step(w, ParseFails(uuid)) == w.(uuidLatest := uuid, replies := w.replies + [Reply(false, 0)])
    ensures Step(w, ApplyFails(uuid, debris, restored)).replies == w.replies + [Reply(false, uuid)]
    ensures Step(w, ApplyFails(uuid, debris, restored)).running == if restored then w.startup else debris
  {
  }

  // What keeps the last applied configuration in charge of the polls.
  ghost predicate Governs(w: World, m: Metrics) {
    && Follows(w, m)
    && w.savedMetrics.Some? && w.savedMetrics.value.state == m.state && w.savedMetrics.value.health == m.health
  }

  /**
   * Until the next applied request the state and health polls stay those of the
   * last one whose metrics were saved, whatever is rejected, reconnected or
   * asked of telemetry in between.
   */
  lemma {:induction false} PollsFollowLastApplied(w: World, m: Metrics, es: seq<Event>, out: World)
    requires Governs(w, m) && out == Run(w, es) && forall i :: 0 <= i < |es| ==> !es[i].Applied?
    ensures Governs(out, m)
    decreases es
  {
    if es != [] {
      match es[0] {
        case Connect(readable) => ConnectUses(w, readable);
        case Telemetry(valid, nonzero, stored) => TelemetryUses(w, nonzero, stored);
        case _ =>
      }
      PollsFollowLastApplied(Step(w, es[0]), m, es[1..], out);
    }
  }

  /** In every reachable state, whatever failed on the way. */
  lemma {:induction false} RunKeepsPolls(w: World, es: seq<Event>, out: World)
    requires PollsAgree(w) && FileOk(w) && out == Run(w, es)
    ensures PollsAgree(out) && FileOk(out)
    ensures TelemetryAgrees(w) && (forall i :: 0 <= i < |es| ==> !es[i].Connect?) ==> TelemetryAgrees(out)
    decreases es
  {
    if es != [] {
      var w1 := Step(w, es[0]);
      StepKeepsPolls(w, es[0]);
      RunKeepsPolls(w1, es[1..], out);
    }
  }

  /**
   * A reconnect keeps the telemetry poll in step exactly when no saved
   * metrics are read back or the poll was not running. Parsing never enables
   * telemetry, so a successful configure stops the poll.
   */
  lemma TelemetryAcross(w: World, e: Event)
    requires FileOk(w) && TelemetryAgrees(w)
    requires e.Applied? ==> e.cfg.metrics.telemetry == OFF
    ensures e.Connect? ==>
              (TelemetryAgrees(Step(w, e)) <==>
               !e.metricsReadable || w.savedMetrics.None? || w.telemetryPoll.None?)
    ensures e.Applied? ==> Step(w, e).telemetryPoll.None? && TelemetryAgrees(Step(w, e))
  {
  }

  /** A reconnect while telemetry streams: the metrics say off and the poll goes on. */
  lemma ReconnectDrifts(w: World, m: Metrics, seconds: nat)
    requires w.savedMetrics == Some(ToFile(m))
    ensures var out := Run(w, [Telemetry(true, true, seconds), Connect(true)]);
            out.telemetryPoll == Some(seconds) && out.metrics.telemetry == OFF && !TelemetryAgrees(out)
  {
    var es := [Telemetry(true, true, seconds), Connect(true)];
    assert es[1..] == [Connect(true)] && es[1..][1..] == [];
    assert Run(Step(w, es[0]), es[1..]) == Run(Step(Step(w, es[0]), Connect(true)), []);
  }

  // ----- the handlers

  class Client {
    var uuidActive: int
    var uuidLatest: int
    var running: int
    var startup: int
    var savedId: Option<int>
    var metrics: Metrics
    var savedMetrics: Option<Metrics>
    var statePoll: Option<nat>
    var healthPoll: Option<nat>
    var telemetryPoll: Option<nat>
    var replies: seq<Reply>
    ghost var book: map<int, int>

    ghost function View(): World
      reads this
    {
      World(uuidActive, uuidLatest, running, startup, savedId, metrics, savedMetrics,
            statePoll, healthPoll, telemetryPoll, replies, book)
    }

    constructor (content: int, saved: Option<int>)
      ensures Named(View()) && PollsAgree(View()) && TelemetryAgrees(View()) && FileOk(View())
      ensures running == content && replies == []
    {
      uuidActive, uuidLatest := LoadId(saved), 0;
      running, startup, savedId := content, content, saved;
      metrics, savedMetrics := Metrics(OFF, OFF, OFF), None;
      statePoll, healthPoll, telemetryPoll := None, None, None;
      replies, book := [], map[LoadId(saved) := content];
    }

    method StartPolls()
      modifies this`statePoll, this`healthPoll
      ensures statePoll == Start(metrics.state) && healthPoll == Start(metrics.health)
    {
      statePoll, healthPoll := None, None;
      if metrics.state.enabled {
        statePoll := Some(metrics.state.interval);
      }
      if metrics.health.enabled {
        healthPoll := Some(metrics.health.interval);
      }
    }

    /** configure_handle, from the parsed outcome of each platform call. */
    method Handle(e: Event)
      requires IsConfigure(e)
      modifies this
      ensures View() == Step(old(View()), e)
    {
      match e {
        case BadParams =>
          replies := replies + [Reply(false, 0)];
        case ParseFails(uuid) =>
          uuidLatest := uuid;
          replies := replies + [Reply(false, 0)];
        case ApplyFails(uuid, debris, restored) =>
          uuidLatest := uuid;
          running := debris;
          if restored {
            running := startup;
          }
          replies := replies + [Reply(false, uuidLatest)];
        case Applied(uuid, cfg, saved, idStored, metricsSaved) =>
          uuidLatest := uuid;
          running := cfg.content;
          uuidActive := uuidLatest;
          if saved {
            startup := running;
            if idStored {
              savedId := Some(uuidActive);
            }
          }
          if metricsSaved {
            savedMetrics := Some(ToFile(cfg.metrics));
          }
          UseMetrics(cfg.metrics);
          book := book[uuid := cfg.content];
          replies := replies + [Reply(true, uuidLatest)];
      }
    }

    method UseMetrics(m: Metrics)
      modifies this`metrics, this`statePoll, this`healthPoll, this`telemetryPoll
      ensures metrics == m
      ensures statePoll == Start(m.state) && healthPoll == Start(m.health) && telemetryPoll == Start(m.telemetry)
    {
      telemetryPoll := None;
      metrics := m;
      StartPolls();
      if metrics.telemetry.enabled {
        telemetryPoll := Some(metrics.telemetry.interval);
      }
    }

    method HandleConnect(readable: bool)
      modifies this
      ensures View() == Step(old(View()), Connect(readable))
    {
      uuidActive := if savedId.Some? then savedId.value else 1;
      if readable && savedMetrics.Some? {
        metrics := savedMetrics.value;
        StartPolls();
      }
    }

    method HandleTelemetry(valid: bool, nonzero: bool, stored: nat)
      modifies this
      ensures View() == Step(old(View()), Telemetry(valid, nonzero, stored))
    {
      if !valid {
        return;
      }
      telemetryPoll := None;
      metrics := metrics.(telemetry := Poll(nonzero, stored));
      if metrics.telemetry.enabled {
        telemetryPoll := Some(metrics.telemetry.interval);
      }
    }
  }
}
