/** services/notify/service.py: webhook delivery and the failure streak of each webhook. */
module Notification {
  import opened Wrappers
  import opened Counting

  /** What posting to a webhook gives: a status code, or an exception. */
  datatype Response = Status(code: int) | NoResponse(message: string)

  datatype Delivery = Delivery(
    webhookId: nat, success: bool, status: Option<int>, error: Option<string>, deliveredAt: int)

  datatype DispatchResult = DispatchResult(deliveries: seq<Delivery>, successful: nat, failed: nat)

  /** Without an HTTP client every delivery fails. */
  predicate Succeeds(client: bool, r: Response) {
    client && r.Status? && 200 <= r.code < 300
  }

  /** The length of the run of failures at the end of a history of deliveries. */
  function Streak(history: seq<bool>): nat {
    if history == [] || history[|history| - 1] then 0 else 1 + Streak(history[..|history| - 1])
  }

  /** The streak is exactly the run of failures back to the last success, or to the beginning. */
  lemma {:induction false} StreakIsLastFailures(history: seq<bool>)
    ensures var n := |history| - Streak(history);
            && 0 <= n
            && (forall i :: n <= i < |history| ==> !history[i])
            && (n > 0 ==> history[n - 1])
  {
    if history != [] && !history[|history| - 1] {
      StreakIsLastFailures(history[..|history| - 1]);
    }
  }

  class WebhookEndpoint {
    const id: nat
    const tenant: string
    const eventTypes: seq<string>
    var isActive: bool
    var failureCount: nat
    var lastDeliveredAt: Option<int>
    /** The outcome of every delivery that has been committed. */
    ghost var history: seq<bool>

    constructor (id: nat, tenant: string, eventTypes: seq<string>)
      ensures this.id == id && this.tenant == tenant && this.eventTypes == eventTypes
      ensures isActive && failureCount == 0 && lastDeliveredAt == None && history == []
    {
      this.id, this.tenant, this.eventTypes := id, tenant, eventTypes;
      isActive, failureCount, lastDeliveredAt, history := true, 0, None, [];
    }

    predicate Subscribed(kind: string) {
      "*" in eventTypes || kind in eventTypes
    }

    /** The counter is the current streak of failures. */
    ghost predicate InStep()
      reads this
    {
      failureCount == Streak(history)
    }

    /** Selected by a dispatch to a tenant of a sentinel type. */
    predicate Matches(tenant: string, kind: string)
      reads this
    {
      this.tenant == tenant && isActive && Subscribed(kind)
    }
  }

  /** The rows of `m` have ever smaller ids, all below `n`. */
  predicate NewestToOldest(m: seq<WebhookEndpoint>, n: nat) {
    m == [] || (m[0].id < n && NewestToOldest(m[1..], m[0].id))
  }

  lemma {:induction false} Weaken(m: seq<WebhookEndpoint>, n: nat)
    requires NewestToOldest(m, n)
    ensures NewestToOldest(m, n + 1)
  {
  }

  /** Ever smaller ids mean that no webhook occurs twice. */
  lemma {:induction false} Distinct(m: seq<WebhookEndpoint>, n: nat)
    requires NewestToOldest(m, n)
    ensures forall i :: 0 <= i < |m| ==> m[i].id < n
    ensures forall i, j :: 0 <= i < j < |m| ==> m[i] != m[j] && m[i].id > m[j].id
  {
    if m != [] {
      Distinct(m[1..], m[0].id);
      forall i | 0 < i < |m|
        ensures m[i].id < m[0].id
      {
        assert m[i] == m[1..][i - 1];
      }
      forall i, j | 0 <= i < j < |m|
        ensures m[i] != m[j] && m[i].id > m[j].id
      {
        if i > 0 {
          assert m[i] == m[1..][i - 1] && m[j] == m[1..][j - 1];
        }
      }
    }
  }

  class NotificationService {
    const client: bool
    /** The webhook table in creation order. */
    var webhooks: seq<WebhookEndpoint>

    constructor (client: bool)
      ensures Valid() && webhooks == [] && this.client == client
    {
      this.client, webhooks := client, [];
    }

    ghost predicate Valid()
      reads this, webhooks
    {
      && (forall i :: 0 <= i < |webhooks| ==> webhooks[i].id == i)
      && (forall w :: w in webhooks ==> w.InStep())
    }

    method RegisterWebhook(tenant: string, eventTypes: seq<string>) returns (webhook: WebhookEndpoint)
      requires Valid()
      modifies this`webhooks
      ensures Valid() && fresh(webhook) && webhooks == old(webhooks) + [webhook]
      ensures webhook.tenant == tenant && webhook.eventTypes == eventTypes && webhook.isActive
      ensures webhook.failureCount == 0 && webhook.lastDeliveredAt == None && webhook.history == []
    {
      webhook := new WebhookEndpoint(|webhooks|, tenant, eventTypes);
      webhooks := webhooks + [webhook];
    }

    method DeactivateWebhook(id: nat) returns (found: bool)
      requires Valid()
      modifies webhooks
      ensures Valid() && found == (id < |webhooks|)
      ensures forall w :: w in webhooks ==>
        && w.isActive == (old(w.isActive) && w.id != id) && w.history == old(w.history)
        && w.failureCount == old(w.failureCount) && w.lastDeliveredAt == old(w.lastDeliveredAt)
    {
      if id >= |webhooks| {
        return false;
      }
      webhooks[id].isActive := false;
      return true;
    }

    /** The webhooks of a tenant, active and subscribed, newest first, among the first `n` rows. */
    function Matching(tenant: string, kind: string, n: nat): (m: seq<WebhookEndpoint>)
      requires n <= |webhooks|
      reads this, webhooks
      ensures forall i :: 0 <= i < |m| ==> m[i] in webhooks
    {
      if n == 0 then []
      else
        (if webhooks[n - 1].Matches(tenant, kind) then [webhooks[n - 1]] else []) + Matching(tenant, kind, n - 1)
    }

    /** A dispatch selects a row of the table exactly if it is an active subscriber of that tenant. */
    lemma {:induction false} MatchingExactly(tenant: string, kind: string, n: nat)
      requires n <= |webhooks|
      ensures var m := Matching(tenant, kind, n);
              forall w :: w in m <==>
                w in webhooks[..n] && w.tenant == tenant && w.isActive && ("*" in w.eventTypes || kind in w.eventTypes)
    {
      if n > 0 {
        MatchingExactly(tenant, kind, n - 1);
        assert webhooks[..n] == webhooks[..n - 1] + [webhooks[n - 1]];
      }
    }

    lemma {:induction false} MatchingNewestFirst(tenant: string, kind: string, n: nat)
      requires Valid() && n <= |webhooks|
      ensures NewestToOldest(Matching(tenant, kind, n), n)
    {
      if n > 0 {
        MatchingNewestFirst(tenant, kind, n - 1);
        var older := Matching(tenant, kind, n - 1);
        Weaken(older, n - 1);
        assert [] + older == older && ([webhooks[n - 1]] + older)[1..] == older;
      }
    }

    /** Posts to one webhook and counts the outcome. A commit that raises leaves the webhook as it was stored. */
    method Deliver(webhook: WebhookEndpoint, response: Response, now: int, commitFault: Option<string>)
      returns (r: Result<Delivery>)
      modifies webhook
      ensures webhook.isActive == old(webhook.isActive) && (old(webhook.InStep()) ==> webhook.InStep())
      ensures match commitFault
              case Some(m) => r == Raised(m) && unchanged(webhook)
              case None =>
                var ok := client && response.Status? && 200 <= response.code < 300;
                && r.Ok? && r.value.webhookId == webhook.id && r.value.success == ok && r.value.deliveredAt == now
                && (r.value.error.None? <==> ok || !client)
                && (client && response.NoResponse? ==> r.value.error == Some(response.message))
                && r.value.status == (if client && response.Status? then Some(response.code) else None)
                && webhook.history == old(webhook.history) + [ok]
                && webhook.failureCount == (if ok then 0 else old(webhook.failureCount) + 1)
                && webhook.lastDeliveredAt == Some(now)
    {
      var success, status, error := false, None, None;
      if client {
        match response {
          case Status(code) =>
            status := Some(code);
            success := 200 <= code < 300;
            error := if success then None else Some("HTTP status");
          case NoResponse(message) =>
            error := Some(message);
        }
      }
      if commitFault.Some? {
        return Raised(commitFault.value);
      }
      webhook.lastDeliveredAt := Some(now);
      webhook.failureCount := if success then 0 else webhook.failureCount + 1;
      webhook.history := webhook.history + [success];
      assert webhook.history[..|webhook.history| - 1] == old(webhook.history);
      return Ok(Delivery(webhook.id, success, status, error, now));
    }

    /** One delivery each, in order, up to the first commit that raises. */
    method DeliverAll(
      m: seq<WebhookEndpoint>, responses: nat -> Response, clock: nat -> int, faults: nat -> Option<string>)
      returns (deliveries: seq<Delivery>)
      requires forall i, j :: 0 <= i < j < |m| ==> m[i] != m[j]
      requires forall i :: 0 <= i < |m| ==> m[i].InStep()
      modifies m
      ensures |deliveries| <= |m|
      ensures forall i :: 0 <= i < |deliveries| ==> faults(i).None?
      ensures |deliveries| < |m| ==> faults(|deliveries|).Some?
      ensures forall i :: 0 <= i < |m| ==>
        if i < |deliveries| then DeliveredOnce(m[i], Succeeds(client, responses(i)), clock(i)) else unchanged(m[i])
      ensures forall i :: 0 <= i < |m| ==> m[i].InStep()
      ensures forall i :: 0 <= i < |deliveries| ==> DeliveryOf(deliveries[i], m[i], responses(i), clock(i))
    {
      deliveries := [];
      for i := 0 to |m|
        invariant |deliveries| == i
        invariant forall j :: 0 <= j < |m| ==>
          if j < i then DeliveredOnce(m[j], Succeeds(client, responses(j)), clock(j)) else unchanged(m[j])
        invariant forall j :: 0 <= j < |m| ==> m[j].InStep()
        invariant forall j :: 0 <= j < i ==>
          faults(j).None? && DeliveryOf(deliveries[j], m[j], responses(j), clock(j))
      {
        var delivered := Deliver(m[i], responses(i), clock(i), faults(i));
        if delivered.Raised? {
          return;
        }
        deliveries := deliveries + [delivered.value];
      }
    }

    /** What a dispatch reports of one delivery. */
    predicate DeliveryOf(d: Delivery, w: WebhookEndpoint, response: Response, at: int) {
      && d.webhookId == w.id && d.deliveredAt == at
      && d.success == (client && response.Status? && 200 <= response.code < 300)
      && d.status == if client && response.Status? then Some(response.code) else None
    }

    /** The only change to `w` is one more recorded delivery. */
    twostate predicate DeliveredOnce(w: WebhookEndpoint, ok: bool, at: int)
      reads w
    {
      && w.isActive == old(w.isActive)
      && w.history == old(w.history) + [ok]
      && w.failureCount == (if ok then 0 else old(w.failureCount) + 1)
      && w.lastDeliveredAt == Some(at)
    }

    /** The webhooks to deliver to. */
    method Select(tenant: string, kind: string) returns (m: seq<WebhookEndpoint>)
      requires Valid()
      ensures forall i :: 0 <= i < |m| ==> m[i] in webhooks
      ensures forall w :: w in webhooks ==>
        (w in m <==> w.tenant == tenant && w.isActive && ("*" in w.eventTypes || kind in w.eventTypes))
      ensures forall i, j :: 0 <= i < j < |m| ==> m[i] != m[j] && m[i].id > m[j].id
    {
      m := Matching(tenant, kind, |webhooks|);
      MatchingExactly(tenant, kind, |webhooks|);
      assert webhooks[..|webhooks|] == webhooks;
      MatchingNewestFirst(tenant, kind, |webhooks|);
      Distinct(m, |webhooks|);
    }

    /**
     Delivers to every matching webhook. `responses`, `clock` and `faults` give what happens at each delivery
     of this dispatch. A commit that raises ends the dispatch; the deliveries before it stand.
     */
    method Dispatch(
      tenant: string, kind: string, responses: nat -> Response, clock: nat -> int, faults: nat -> Option<string>)
      returns (r: Result<DispatchResult>, ghost m: seq<WebhookEndpoint>, ghost done: nat)
      requires Valid()
      modifies webhooks
      ensures Valid() && webhooks == old(webhooks) && done <= |m|
      ensures forall i :: 0 <= i < |m| ==> m[i] in old(webhooks)
      ensures forall w :: w in old(webhooks) ==>
        (w in m <==> w.tenant == tenant && old(w.isActive) && ("*" in w.eventTypes || kind in w.eventTypes))
      ensures forall i, j :: 0 <= i < j < |m| ==> m[i].id > m[j].id
      ensures forall i :: 0 <= i < done ==> faults(i).None?
      ensures if r.Ok? then done == |m| else done < |m| && faults(done) == Some(r.message)
      ensures forall i :: 0 <= i < |m| ==>
        if i < done then DeliveredOnce(m[i], Succeeds(client, responses(i)), clock(i)) else unchanged(m[i])
      ensures forall w :: w in webhooks && w !in m ==> unchanged(w)
      ensures r.Ok? ==>
        && |r.value.deliveries| == |m| == r.value.successful + r.value.failed
        && (forall i :: 0 <= i < |m| ==> DeliveryOf(r.value.deliveries[i], m[i], responses(i), clock(i)))
        && r.value.successful ==
           |set i | 0 <= i < |m| && client && responses(i).Status? && 200 <= responses(i).code < 300|
    {
      var matching := Select(tenant, kind);
      var deliveries := DeliverAll(matching, responses, clock, faults);
      m, done := matching, |deliveries|;
      forall w | w in webhooks
        ensures w.InStep()
      {
        assert old(w.InStep());
      }
      if |deliveries| < |matching| {
        return Raised(faults(|deliveries|).value), m, done;
      }
      var successful := Successes(deliveries);
      SuccessfulResponses(deliveries, client, responses);
      return Ok(DispatchResult(deliveries, successful, |deliveries| - successful)), m, done;
    }
  }

  function Successes(deliveries: seq<Delivery>): (n: nat)
    ensures n == |set i | 0 <= i < |deliveries| && deliveries[i].success|
    ensures n <= |deliveries|
  {
    SuccessfulPositions(deliveries);
    if deliveries == [] then 0 else (if deliveries[0].success then 1 else 0) + Successes(deliveries[1..])
  }

  lemma SuccessfulResponses(deliveries: seq<Delivery>, client: bool, responses: nat -> Response)
    requires forall i :: 0 <= i < |deliveries| ==> deliveries[i].success == Succeeds(client, responses(i))
    ensures Successes(deliveries) ==
            |set i | 0 <= i < |deliveries| && client && responses(i).Status? && 200 <= responses(i).code < 300|
  {
    assert (set i | 0 <= i < |deliveries| && deliveries[i].success) ==
           set i | 0 <= i < |deliveries| && client && responses(i).Status? && 200 <= responses(i).code < 300;
  }

  lemma SuccessfulPositions(deliveries: seq<Delivery>)
    ensures deliveries != [] ==>
              |set i | 0 <= i < |deliveries| && deliveries[i].success| ==
              (if deliveries[0].success then 1 else 0)
              + |set i | 0 <= i < |deliveries[1..]| && deliveries[1..][i].success|
  {
    if deliveries != [] {
      var succeeded := (d: Delivery) => d.success;
      WherePrepend(deliveries[0], deliveries[1..], succeeded);
      assert deliveries == [deliveries[0]] + deliveries[1..];
      assert Where(deliveries, succeeded) == set i | 0 <= i < |deliveries| && deliveries[i].success;
      assert Where(deliveries[1..], succeeded) ==
             set i | 0 <= i < |deliveries[1..]| && deliveries[1..][i].success;
    }
  }
}
