/** services/ingestion/service.py: charge, store, publish, meter, alert. */
module Ingestion {
  import opened Wrappers
  import opened Enums
  import opened Calendar
  import opened Events
  import opened Quota
  import opened Sentinel

  /**
   The environment of a run. Every await and every clock reading has its own tick; `fails` says which
   awaits raise, `clock` what the clock reads.
   */
  datatype Env = Env(fails: nat -> bool, clock: nat -> Moment)

  /** Which of the two optional collaborators are configured. */
  datatype Wiring = Wiring(quota: bool, sentinel: bool)

  /** Everything the pipeline writes. */
  datatype World = World(
    quotas: Quotas, stored: seq<Event>, bus: seq<Event>, singles: nat, batched: nat, alerts: seq<Alert>, tick: nat)

  const EMPTY := World(Quotas(map[], map[]), [], [], 0, 0, [], 0)

  datatype Verdict = Accepted | Refused(outcome: Outcome) | StoreFailed | PublishFailed | AlertFailed

  predicate DistinctIds(es: seq<Event>) {
    forall i, j :: 0 <= i < j < |es| ==> es[i].id != es[j].id
  }

  /** The alerts that a list of events triggers, in order. */
  function AlertsOf(es: seq<Event>): seq<Alert> {
    if es == [] then [] else OpenedAll(EvaluateEvent(es[0])) + AlertsOf(es[1..])
  }

  function OpenedAll(creates: seq<AlertCreate>): seq<Alert> {
    seq(|creates|, i requires 0 <= i < |creates| => Opened(creates[i]))
  }

  /** How many of `n` consecutive awaits from `tick` on succeed before one raises. */
  function Survives(env: Env, tick: nat, n: nat): (k: nat)
    ensures k <= n
    decreases n
  {
    if n == 0 || env.fails(tick) then 0 else 1 + Survives(env, tick + 1, n - 1)
  }

  lemma {:induction false} SurvivesExactly(env: Env, tick: nat, n: nat)
    ensures var k := Survives(env, tick, n);
            (forall i :: tick <= i < tick + k ==> !env.fails(i)) && (k < n ==> env.fails(tick + k))
    decreases n
  {
    if n > 0 && !env.fails(tick) {
      SurvivesExactly(env, tick + 1, n - 1);
    }
  }

  /** The tick after those awaits, the one that raised included. */
  function After(tick: nat, k: nat, n: nat): nat {
    if k < n then tick + k + 1 else tick + k
  }

  lemma {:induction false} SurvivesInParts(env: Env, tick: nat, a: nat, b: nat)
    ensures var k := Survives(env, tick, a);
            Survives(env, tick, a + b) == if k < a then k else a + Survives(env, tick + a, b)
    decreases a
  {
    if a > 0 {
      SurvivesInParts(env, tick + 1, a - 1, b);
    }
  }

  lemma {:induction false} AlertsAppend(a: seq<Event>, b: seq<Event>)
    ensures AlertsOf(a + b) == AlertsOf(a) + AlertsOf(b)
  {
    if a == [] {
      assert a + b == b;
    } else {
      assert (a + b)[1..] == a[1..] + b;
      AlertsAppend(a[1..], b);
    }
  }

  function ChargeFault(env: Env, tick: nat): Fault {
    if env.fails(tick) then LoadFails else if env.fails(tick + 1) then CommitFails else NoFault
  }

  /** A call of the quota service that starts at `tick`: one await loads the row, a second one commits. */
  function CallAt(env: Env, tick: nat, kind: Kind): Op {
    Op(kind, env.clock(tick), env.clock(tick + 1), ChargeFault(env, tick))
  }

  function ChargeOne(w: World, wiring: Wiring, env: Env, tenant: string): (World, Outcome) {
    if !wiring.quota then (w, Admitted)
    else
      var (quotas, outcome) := w.quotas.Call(tenant, CallAt(env, w.tick, Charge));
      (w.(quotas := quotas, tick := w.tick + 2), outcome)
  }

  /** Charges events one after the other until one is refused. */
  function ChargeAll(w: World, wiring: Wiring, env: Env, es: seq<Event>): (World, Outcome)
    decreases |es|
  {
    if es == [] then (w, Admitted)
    else
      var (next, outcome) := ChargeOne(w, wiring, env, es[0].tenant);
      if outcome != Admitted then (next, outcome) else ChargeAll(next, wiring, env, es[1..])
  }

  /** One call of the pipeline: a whole batch, or a single event if `batch` is false. */
  function Pipeline(w: World, wiring: Wiring, env: Env, es: seq<Event>, batch: bool): (World, Verdict) {
    var (charged, outcome) := ChargeAll(w, wiring, env, es);
    if outcome != Admitted then (charged, Refused(outcome))
    else if env.fails(charged.tick) || !DistinctIds(charged.stored + es) then
      (charged.(tick := charged.tick + 1), StoreFailed)
    else
      Announce(charged.(stored := charged.stored + es, tick := charged.tick + 1), wiring, env, es, batch)
  }

  /** Publishes events until an await raises. */
  function Publishing(w: World, env: Env, es: seq<Event>): (World, bool) {
    var k := Survives(env, w.tick, |es|);
    (w.(bus := w.bus + es[..k], tick := After(w.tick, k, |es|)), k == |es|)
  }

  /** Commits alerts until an await raises. */
  function Alerting(w: World, env: Env, due: seq<Alert>): (World, bool) {
    var k := Survives(env, w.tick, |due|);
    (w.(alerts := w.alerts + due[..k], tick := After(w.tick, k, |due|)), k == |due|)
  }

  function RunSentinels(w: World, wiring: Wiring, env: Env, es: seq<Event>): (World, bool) {
    if wiring.sentinel then Alerting(w, env, AlertsOf(es)) else (w, true)
  }

  /** The part of the pipeline that follows a successful store. */
  function Announce(w: World, wiring: Wiring, env: Env, es: seq<Event>, batch: bool): (World, Verdict) {
    var (published, ok) := Publishing(w, env, es);
    if !ok then (published, PublishFailed)
    else
      var metered := if batch then published.(batched := published.batched + |es|)
                     else published.(singles := published.singles + |es|);
      var (alerted, done) := RunSentinels(metered, wiring, env, es);
      (alerted, if done then Accepted else AlertFailed)
  }

  lemma PublishingInParts(w: World, env: Env, a: seq<Event>, b: seq<Event>)
    ensures var (next, ok) := Publishing(w, env, a);
            Publishing(w, env, a + b) == if ok then Publishing(next, env, b) else (next, false)
  {
    var k := Survives(env, w.tick, |a|);
    var j := Survives(env, w.tick + |a|, |b|);
    SurvivesInParts(env, w.tick, |a|, |b|);
    assert w.bus + (a + b)[..|a| + j] == w.bus + a[..|a|] + b[..j];
    assert (a + b)[..k] == a[..k];
  }

  lemma AlertingInParts(w: World, env: Env, a: seq<Alert>, b: seq<Alert>)
    ensures var (next, ok) := Alerting(w, env, a);
            Alerting(w, env, a + b) == if ok then Alerting(next, env, b) else (next, false)
  {
    var k := Survives(env, w.tick, |a|);
    var j := Survives(env, w.tick + |a|, |b|);
    SurvivesInParts(env, w.tick, |a|, |b|);
    assert w.alerts + (a + b)[..|a| + j] == w.alerts + a[..|a|] + b[..j];
    assert (a + b)[..k] == a[..k];
  }

  lemma AlertsOfOne(e: Event)
    ensures AlertsOf([e]) == OpenedAll(EvaluateEvent(e))
  {
    assert [e][1..] == [] && OpenedAll(EvaluateEvent(e)) + [] == OpenedAll(EvaluateEvent(e));
  }

  lemma AlertingNext(w: World, env: Env, due: seq<Alert>, i: nat)
    requires i < |due|
    ensures var (next, ok) := Alerting(w, env, [due[i]]);
            Alerting(w, env, due[i..]) == if ok then Alerting(next, env, due[i + 1..]) else (next, false)
  {
    AlertingInParts(w, env, [due[i]], due[i + 1..]);
    assert due[i..] == [due[i]] + due[i + 1..];
  }

  lemma NothingToAlert(w: World, env: Env)
    ensures Alerting(w, env, []) == (w, true)
  {
    assert w.alerts + [] == w.alerts;
  }

  lemma RunSentinelsInParts(w: World, wiring: Wiring, env: Env, a: seq<Event>, b: seq<Event>)
    ensures var (next, ok) := RunSentinels(w, wiring, env, a);
            RunSentinels(w, wiring, env, a + b) == if ok then RunSentinels(next, wiring, env, b) else (next, false)
  {
    AlertsAppend(a, b);
    AlertingInParts(w, env, AlertsOf(a), AlertsOf(b));
  }

  // ---- How a call ends ----

  /** The alert of one event, as `AlertedFor` describes it. */
  lemma AlertsOfEvent(e: Event, before: seq<Alert>)
    ensures AlertedFor(e, before, before + AlertsOf([e]))
  {
    AlertsOfOne(e);
  }

  /** What a list of events does to the alert table, one event after the other. */
  predicate AlertedForAll(es: seq<Event>, before: seq<Alert>, after: seq<Alert>)
    decreases |es|
  {
    if es == [] then after == before
    else
      exists k :: |before| <= k <= |after| && AlertedFor(es[0], before, after[..k]) &&
                  AlertedForAll(es[1..], after[..k], after)
  }

  lemma {:induction false} AlertsOfEvents(es: seq<Event>, before: seq<Alert>)
    ensures AlertedForAll(es, before, before + AlertsOf(es))
    decreases |es|
  {
    var after := before + AlertsOf(es);
    if es == [] {
      assert after == before;
    } else {
      var middle, rest := before + AlertsOf([es[0]]), AlertsOf(es[1..]);
      AlertsOfEvent(es[0], before);
      AlertsOfEvents(es[1..], middle);
      assert es == [es[0]] + es[1..];
      AlertsAppend([es[0]], es[1..]);
      InTwoParts(before, AlertsOf([es[0]]), rest);
      assert after == middle + rest && AlertedFor(es[0], before, after[..|middle|]);
    }
  }

  lemma InTwoParts(before: seq<Alert>, a: seq<Alert>, b: seq<Alert>)
    ensures before + (a + b) == before + a + b && (before + a + b)[..|before + a|] == before + a
  {
  }

  /** No two of the events share an identifier. */
  ghost predicate Unrepeated(es: seq<Event>) {
    forall i, j :: 0 <= i < |es| && 0 <= j < |es| && es[i].id == es[j].id ==> i == j
  }

  /**
   How a call that has stored its events ends: they are published in order until one fails; if none does they are
   metered, by one counter or the other, and their alerts opened in order until one fails.
   */
  predicate Announced(w: World, wiring: Wiring, es: seq<Event>, batch: bool, n: World, v: Verdict) {
    && n.stored == w.stored && n.quotas == w.quotas
    && match v
       case Accepted =>
         && n.bus == w.bus + es && Metered(w, es, batch, n)
         && n.alerts == if wiring.sentinel then w.alerts + AlertsOf(es) else w.alerts
       case PublishFailed =>
         && |w.bus| <= |n.bus| < |w.bus + es| && n.bus == (w.bus + es)[..|n.bus|]
         && n.singles == w.singles && n.batched == w.batched && n.alerts == w.alerts
       case AlertFailed =>
         && n.bus == w.bus + es && Metered(w, es, batch, n) && wiring.sentinel
         && |w.alerts| <= |n.alerts| < |w.alerts + AlertsOf(es)|
         && n.alerts == (w.alerts + AlertsOf(es))[..|n.alerts|]
       case _ => false
  }

  predicate Metered(w: World, es: seq<Event>, batch: bool, n: World) {
    if batch then n.singles == w.singles && n.batched == w.batched + |es|
    else n.singles == w.singles + |es| && n.batched == w.batched
  }

  /** How a call of the pipeline ends: a refused charge or a failed store writes nothing but charges. */
  lemma PipelineEnds(w: World, wiring: Wiring, env: Env, es: seq<Event>, batch: bool)
    ensures var (n, v) := Pipeline(w, wiring, env, es, batch);
            if v.Refused? || v.StoreFailed? then n == w.(quotas := n.quotas, tick := n.tick)
            else
              && Unrepeated(w.stored + es)
              && Announced(w.(quotas := n.quotas, stored := w.stored + es), wiring, es, batch, n, v)
  {
    var (charged, outcome) := ChargeAll(w, wiring, env, es);
    ChargingKeeps(w, wiring, env, es);
    if outcome == Admitted && !env.fails(charged.tick) && DistinctIds(charged.stored + es) {
      AnnounceEnds(charged.(stored := charged.stored + es, tick := charged.tick + 1), wiring, env, es, batch);
    }
  }

  lemma SingleEnds(w: World, wiring: Wiring, env: Env, e: Event)
    ensures var (n, v) := Pipeline(w, wiring, env, [e], false);
            && (v == Accepted ==>
                  && n.stored == w.stored + [e] && n.bus == w.bus + [e]
                  && n.singles == w.singles + 1 && n.batched == w.batched)
            && if v == Accepted && wiring.sentinel then AlertedFor(e, w.alerts, n.alerts) else n.alerts == w.alerts
  {
    PipelineEnds(w, wiring, env, [e], false);
    AlertsOfEvent(e, w.alerts);
    AlertsOfOne(e);
  }

  lemma BatchEnds(w: World, wiring: Wiring, env: Env, es: seq<Event>)
    ensures var (n, v) := Pipeline(w, wiring, env, es, true);
            v == Accepted ==>
              && n.stored == w.stored + es && n.bus == w.bus + es
              && n.singles == w.singles && n.batched == w.batched + |es|
              && if wiring.sentinel then AlertedForAll(es, w.alerts, n.alerts) else n.alerts == w.alerts
  {
    PipelineEnds(w, wiring, env, es, true);
    AlertsOfEvents(es, w.alerts);
  }

  /** If no await fails, only a refused charge or a repeated identifier keeps a call from being accepted. */
  lemma NothingFails(w: World, wiring: Wiring, env: Env, es: seq<Event>, batch: bool)
    requires forall t :: !env.fails(t)
    ensures var v := Pipeline(w, wiring, env, es, batch).1;
            v == Accepted || v.Refused? || (v == StoreFailed && !Unrepeated(w.stored + es))
  {
    var charged := ChargeAll(w, wiring, env, es).0;
    ChargingKeeps(w, wiring, env, es);
    var stored := charged.(stored := charged.stored + es, tick := charged.tick + 1);
    SurvivesExactly(env, stored.tick, |es|);
    SurvivesExactly(env, Publishing(stored, env, es).0.tick, |AlertsOf(es)|);
  }

  lemma {:induction false} ChargingKeeps(w: World, wiring: Wiring, env: Env, es: seq<Event>)
    ensures var next := ChargeAll(w, wiring, env, es).0;
            next == w.(quotas := next.quotas, tick := next.tick)
    decreases |es|
  {
    if es != [] {
      var (next, outcome) := ChargeOne(w, wiring, env, es[0].tenant);
      if outcome == Admitted {
        ChargingKeeps(next, wiring, env, es[1..]);
      }
    }
  }

  lemma AnnounceEnds(w: World, wiring: Wiring, env: Env, es: seq<Event>, batch: bool)
    ensures var (n, v) := Announce(w, wiring, env, es, batch);
            Announced(w, wiring, es, batch, n, v)
  {
    PublishingEnds(w, env, es);
    AlertingEnds(w.alerts, Survives(env, Publishing(w, env, es).0.tick, |AlertsOf(es)|), AlertsOf(es));
  }

  lemma PublishingEnds(w: World, env: Env, es: seq<Event>)
    ensures var (n, ok) := Publishing(w, env, es);
            && n == w.(bus := n.bus, tick := n.tick)
            && if ok then n.bus == w.bus + es
               else |w.bus| <= |n.bus| < |w.bus + es| && n.bus == (w.bus + es)[..|n.bus|]
  {
    var k := Survives(env, w.tick, |es|);
    assert es[..|es|] == es && (w.bus + es)[..|w.bus| + k] == w.bus + es[..k];
  }

  lemma AlertingEnds(before: seq<Alert>, k: nat, due: seq<Alert>)
    requires k <= |due|
    ensures before + due[..k] == (before + due)[..|before| + k] && due[..|due|] == due
  {
  }

  class IngestionService {
    const env: Env
    const quota: QuotaService?
    const sentinel: SentinelService?
    var stored: seq<Event>
    var bus: seq<Event>
    var singles: nat
    var batched: nat
    var tick: nat

    constructor (env: Env, quota: QuotaService?, sentinel: SentinelService?)
      ensures this.env == env && this.quota == quota && this.sentinel == sentinel
      ensures stored == [] && bus == [] && singles == batched == tick == 0
    {
      this.env, this.quota, this.sentinel := env, quota, sentinel;
      stored, bus, singles, batched, tick := [], [], 0, 0, 0;
    }

    ghost function Wired(): Wiring {
      Wiring(quota != null, sentinel != null)
    }

    ghost function View(): World
      reads this, quota, sentinel
    {
      World(if quota == null then Quotas(map[], map[]) else quota.View(), stored, bus, singles, batched,
            if sentinel == null then [] else sentinel.alerts, tick)
    }

    method Await() returns (failed: bool)
      modifies this`tick
      ensures failed == env.fails(old(tick)) && tick == old(tick) + 1
    {
      failed := env.fails(tick);
      tick := tick + 1;
    }

    /** Charges one event to its tenant, if quotas are configured. */
    method CheckQuota(tenant: string) returns (outcome: Outcome)
      modifies this`tick, quota
      ensures (View(), outcome) == ChargeOne(old(View()), Wired(), env, tenant)
    {
      if quota == null {
        return Admitted;
      }
      outcome := quota.CheckAndIncrement(tenant, env.clock(tick), env.clock(tick + 1), ChargeFault(env, tick));
      tick := tick + 2;
    }

    /** One commit that adds all the records, or raises and adds none. */
    method Store(es: seq<Event>) returns (ok: bool)
      modifies this`stored, this`tick
      ensures ok == (!env.fails(old(tick)) && DistinctIds(old(stored) + es))
      ensures ok ==> Unrepeated(stored)
      ensures !ok && !env.fails(old(tick)) ==> !Unrepeated(old(stored) + es)
      ensures stored == if ok then old(stored) + es else old(stored)
      ensures tick == old(tick) + 1
    {
      var failed := Await();
      if failed || !DistinctIds(stored + es) {
        return false;
      }
      stored := stored + es;
      return true;
    }

    method Publish(e: Event) returns (ok: bool)
      modifies this`bus, this`tick
      ensures (View(), ok) == Publishing(old(View()), env, [e])
    {
      assert [e][..0] == [] && [e][..1] == [e] && bus + [] == bus;
      var failed := Await();
      if !failed {
        bus := bus + [e];
      }
      return !failed;
    }

    /** Opens the event's alerts one after the other, if a sentinel service is configured. */
    method RunSentinel(e: Event) returns (ok: bool)
      modifies this`tick, sentinel
      ensures (View(), ok) == RunSentinels(old(View()), Wired(), env, [e])
      ensures sentinel == null || (forall t :: !env.fails(t)) ==> ok
      ensures sentinel != null ==>
        if ok then AlertedFor(e, old(sentinel.alerts), sentinel.alerts) else sentinel.alerts == old(sentinel.alerts)
    {
      AlertsOfEvent(e, View().alerts);
      assert sentinel != null ==> AlertsOf([e])[..0] == [] && View().alerts + [] == View().alerts;
      if sentinel == null {
        return true;
      }
      var creates := EvaluateEvent(e);
      ghost var due := OpenedAll(creates);
      AlertsOfOne(e);
      for i := 0 to |creates|
        invariant Alerting(View(), env, due[i..]) == Alerting(old(View()), env, due)
      {
        AlertingNext(View(), env, due, i);
        ok := CommitAlert(creates[i]);
        if !ok {
          return;
        }
      }
      NothingToAlert(View(), env);
      assert due[|creates|..] == [];
      return true;
    }

    method CommitAlert(create: AlertCreate) returns (ok: bool)
      requires sentinel != null
      modifies this`tick, sentinel
      ensures (View(), ok) == Alerting(old(View()), env, [Opened(create)])
    {
      ghost var due := [Opened(create)];
      assert due[..0] == [] && due[..1] == due && View().alerts + [] == View().alerts;
      var failed := Await();
      var r := sentinel.CreateAlert(create, if failed then Some("alert not committed") else None);
      return r.Ok?;
    }

    /** Charge, store, publish, meter and alert one event; the first step that fails ends the call. */
    method Ingest(e: Event) returns (verdict: Verdict)
      modifies this, quota, sentinel
      ensures (View(), verdict) == Pipeline(old(View()), Wired(), env, [e], false)
      ensures verdict == Accepted ==>
        stored == old(stored) + [e] && bus == old(bus) + [e] && singles == old(singles) + 1 && batched == old(batched)
      ensures sentinel != null ==>
        if verdict == Accepted then AlertedFor(e, old(sentinel.alerts), sentinel.alerts)
        else sentinel.alerts == old(sentinel.alerts)
    {
      SingleEnds(View(), Wired(), env, e);
      assert [e][1..] == [];
      var outcome := CheckQuota(e.tenant);
      assert ChargeAll(old(View()), Wired(), env, [e]) == (View(), outcome);
      if outcome != Admitted {
        return Refused(outcome);
      }
      ghost var charged := View();
      var ok := Store([e]);
      if !ok {
        assert View() == charged.(tick := charged.tick + 1);
        return StoreFailed;
      }
      ghost var w := View();
      assert w == charged.(stored := charged.stored + [e], tick := charged.tick + 1);
      verdict := AnnounceOne(e);
    }

    /** What follows the store of one event. */
    method AnnounceOne(e: Event) returns (verdict: Verdict)
      modifies this, quota, sentinel
      ensures (View(), verdict) == Announce(old(View()), Wired(), env, [e], false)
    {
      var ok := Publish(e);
      if !ok {
        return PublishFailed;
      }
      singles := singles + 1;
      ok := RunSentinel(e);
      return if ok then Accepted else AlertFailed;
    }

    /** Charge all the events, store them in one commit, then publish, meter and alert. */
    method IngestBatch(es: seq<Event>) returns (verdict: Verdict)
      modifies this, quota, sentinel
      ensures if es == [] then verdict == Accepted && View() == old(View())
              else (View(), verdict) == Pipeline(old(View()), Wired(), env, es, true)
      ensures verdict == Accepted ==>
        stored == old(stored) + es && bus == old(bus) + es && singles == old(singles) && batched == old(batched) + |es|
      ensures verdict == Accepted && sentinel != null ==> AlertedForAll(es, old(sentinel.alerts), sentinel.alerts)
    {
      BatchEnds(View(), Wired(), env, es);
      if es == [] {
        return Accepted;
      }
      var outcome := CheckAll(es);
      if outcome != Admitted {
        return Refused(outcome);
      }
      var ok := Store(es);
      if !ok {
        return StoreFailed;
      }
      verdict := AnnounceBatch(es);
    }

    /** Charges the events in order, up to the first that is refused. */
    method CheckAll(es: seq<Event>) returns (outcome: Outcome)
      modifies this`tick, quota
      ensures (View(), outcome) == ChargeAll(old(View()), Wired(), env, es)
    {
      for i := 0 to |es|
        invariant ChargeAll(View(), Wired(), env, es[i..]) == ChargeAll(old(View()), Wired(), env, es)
      {
        assert es[i..][1..] == es[i + 1..];
        outcome := CheckQuota(es[i].tenant);
        if outcome != Admitted {
          return;
        }
      }
      return Admitted;
    }

    /** What follows the store of a batch. */
    method AnnounceBatch(es: seq<Event>) returns (verdict: Verdict)
      modifies this, quota, sentinel
      ensures (View(), verdict) == Announce(old(View()), Wired(), env, es, true)
    {
      var ok := PublishAll(es);
      if !ok {
        return PublishFailed;
      }
      batched := batched + |es|;
      ok := AlertAll(es);
      return if ok then Accepted else AlertFailed;
    }

    method PublishAll(es: seq<Event>) returns (ok: bool)
      modifies this`bus, this`tick
      ensures (View(), ok) == Publishing(old(View()), env, es)
    {
      for i := 0 to |es|
        invariant Publishing(View(), env, es[i..]) == Publishing(old(View()), env, es)
      {
        PublishingInParts(View(), env, [es[i]], es[i + 1..]);
        assert es[i..] == [es[i]] + es[i + 1..];
        ok := Publish(es[i]);
        if !ok {
          return;
        }
      }
      assert es[|es|..] == [] && bus + [] == bus;
      return true;
    }

    method AlertAll(es: seq<Event>) returns (ok: bool)
      modifies this`tick, sentinel
      ensures (View(), ok) == RunSentinels(old(View()), Wired(), env, es)
    {
      for i := 0 to |es|
        invariant RunSentinels(View(), Wired(), env, es[i..]) == RunSentinels(old(View()), Wired(), env, es)
      {
        RunSentinelsInParts(View(), Wired(), env, [es[i]], es[i + 1..]);
        assert es[i..] == [es[i]] + es[i + 1..];
        ok := RunSentinel(es[i]);
        if !ok {
          return;
        }
      }
      assert es[|es|..] == [] && View().alerts + [] == View().alerts;
      return true;
    }
  }
}
