/**
  The daily cost guard of the LLM client (apps/edr/llm.py). A call checks the budget, awaits the
  provider, and only then records what it cost, so calls interleave between check and record.
*/
module CostGuard {
  type Day = nat

  // ---------------------------------------------------------------------------------------------
  // Estimates
  // ---------------------------------------------------------------------------------------------

  datatype Rates = Rates(input: real, output: real)

  /** USD per million tokens; an unknown model is priced at the heavy rate. */
  function RatesOf(model: string): (r: Rates)
    ensures 0.0 < r.input <= 3.0 && 0.0 < r.output <= 15.0
  {
    if model == "claude-haiku-4-5" then Rates(0.25, 1.25)
    else if model == "claude-sonnet-4-6" then Rates(3.0, 15.0)
    else if model == "deepseek-v4-flash" then Rates(0.27, 1.10)
    else if model == "deepseek-v4-pro" then Rates(0.55, 2.19)
    else Rates(3.0, 15.0)
  }

  function EstimateCost(model: string, inputTokens: nat, outputTokens: nat): real {
    (inputTokens as real * RatesOf(model).input + outputTokens as real * RatesOf(model).output) / 1000000.0
  }

  /** A call that stays within its token estimates costs no more than its cost estimate. */
  lemma EstimateIsMonotone(model: string, inA: nat, outA: nat, inB: nat, outB: nat)
    requires inA <= inB && outA <= outB
    ensures 0.0 <= EstimateCost(model, inA, outA) <= EstimateCost(model, inB, outB)
  {
    var r := RatesOf(model);
    ProductMonotone(inA as real, inB as real, r.input);
    ProductMonotone(outA as real, outB as real, r.output);
  }

  lemma ProductMonotone(a: real, b: real, c: real)
    requires 0.0 <= a <= b && 0.0 <= c
    ensures 0.0 <= a * c <= b * c
  {}

  // ---------------------------------------------------------------------------------------------
  // The tracker
  // ---------------------------------------------------------------------------------------------

  /** The tracker's state as a value. */
  datatype Ledger = Ledger(dailyCost: real, lastReset: Day, modelCalls: map<string, nat>, modelCosts: map<string, real>)

  function Reset(l: Ledger, today: Day): Ledger {
    if today != l.lastReset then l.(dailyCost := 0.0, lastReset := today) else l
  }

  predicate WithinBudget(l: Ledger, today: Day, estimate: real, cap: real) {
    Reset(l, today).dailyCost + estimate < cap
  }

  function CostOf(costs: map<string, real>, model: string): real {
    if model in costs then costs[model] else 0.0
  }

  function CallsOf(calls: map<string, nat>, model: string): nat {
    if model in calls then calls[model] else 0
  }

  function Record(l: Ledger, today: Day, cost: real, model: string): Ledger {
    var r := Reset(l, today);
    Ledger(r.dailyCost + cost, r.lastReset,
           if model == "" then r.modelCalls else r.modelCalls[model := CallsOf(r.modelCalls, model) + 1],
           if model == "" then r.modelCosts else r.modelCosts[model := CostOf(r.modelCosts, model) + cost])
  }

  class CostTracker {
    var dailyCost: real
    var lastReset: Day
    var modelCalls: map<string, nat>
    var modelCosts: map<string, real>
    var tokenUsage: map<string, (nat, nat)>

    function View(): Ledger
      reads this
    {
      Ledger(dailyCost, lastReset, modelCalls, modelCosts)
    }

    constructor (today: Day)
      ensures View() == Ledger(0.0, today, map[], map[])
      ensures tokenUsage == map[]
    {
      dailyCost, lastReset, modelCalls, modelCosts, tokenUsage := 0.0, today, map[], map[], map[];
    }

    method CheckReset(today: Day)
      modifies this`dailyCost, this`lastReset
      ensures View() == Reset(old(View()), today)
    {
      if today != lastReset {
        dailyCost := 0.0;
        lastReset := today;
      }
    }

    /** False stands for the raised CostCapExceededError. */
    method CheckBudget(today: Day, estimate: real, cap: real) returns (ok: bool)
      modifies this`dailyCost, this`lastReset
      ensures View() == Reset(old(View()), today)
      ensures ok <==> WithinBudget(old(View()), today, estimate, cap)
    {
      CheckReset(today);
      var projected := dailyCost + estimate;
      ok := projected < cap;
    }

    method RecordCost(today: Day, cost: real, model: string)
      modifies this
      ensures View() == Record(old(View()), today, cost, model)
      ensures tokenUsage == old(tokenUsage)
    {
      CheckReset(today);
      dailyCost := dailyCost + cost;
      if model != "" {
        modelCalls := modelCalls[model := (if model in modelCalls then modelCalls[model] else 0) + 1];
        modelCosts := modelCosts[model := (if model in modelCosts then modelCosts[model] else 0.0) + cost];
      }
    }

    method RecordTokens(requestId: string, inputTokens: nat, outputTokens: nat)
      modifies this`tokenUsage
      ensures tokenUsage.Keys == old(tokenUsage).Keys + {requestId}
      ensures
        var before := if requestId in old(tokenUsage) then old(tokenUsage)[requestId] else (0, 0);
        tokenUsage[requestId] == (before.0 + inputTokens, before.1 + outputTokens)
      ensures forall r :: r in old(tokenUsage) && r != requestId ==> tokenUsage[r] == old(tokenUsage)[r]
    {
      if requestId !in tokenUsage {
        tokenUsage := tokenUsage[requestId := (0, 0)];
      }
      var used := tokenUsage[requestId];
      tokenUsage := tokenUsage[requestId := (used.0 + inputTokens, used.1 + outputTokens)];
    }
  }

  // ---------------------------------------------------------------------------------------------
  // Interleaved calls
  // ---------------------------------------------------------------------------------------------

  /** A call that passed the check and has not recorded yet. */
  datatype Flight = Flight(estimate: real, actual: real, model: string)

  /** The service: the ledger, the calls in flight, and every cost ever recorded (history). */
  datatype System = System(ledger: Ledger, flights: seq<Flight>, recorded: seq<real>)

  datatype Event =
    | Start(today: Day, call: Flight)   // check_budget passes or raises; the token cap may also raise
    | Finish(today: Day, index: nat)    // the provider answered: record_cost
    | Fail(index: nat)                  // the provider call raised: nothing is recorded
    | Fallback(today: Day, call: Flight) // no API key: check and record without an await between

  function Without(flights: seq<Flight>, index: nat): seq<Flight>
    requires index < |flights|
  {
    flights[..index] + flights[index + 1..]
  }

  function Step(cap: real, s: System, e: Event): System {
    match e
    case Start(today, call) =>
      var checked := s.(ledger := Reset(s.ledger, today));
      if WithinBudget(s.ledger, today, call.estimate, cap) then checked.(flights := s.flights + [call]) else checked
    case Finish(today, i) =>
      if i >= |s.flights| then s
      else System(Record(s.ledger, today, s.flights[i].actual, s.flights[i].model), Without(s.flights, i),
                  s.recorded + [s.flights[i].actual])
    case Fail(i) =>
      if i >= |s.flights| then s else s.(flights := Without(s.flights, i))
    case Fallback(today, call) =>
      if WithinBudget(s.ledger, today, call.estimate, cap)
      then s.(ledger := Record(Reset(s.ledger, today), today, call.actual, call.model),
              recorded := s.recorded + [call.actual])
      else s.(ledger := Reset(s.ledger, today))
  }

  function Initial(today: Day): System {
    System(Ledger(0.0, today, map[], map[]), [], [])
  }

  function After(cap: real, today: Day, events: seq<Event>): System
    decreases |events|
  {
    if events == [] then Initial(today)
    else Step(cap, After(cap, today, events[..|events| - 1]), events[|events| - 1])
  }

  ghost function Estimates(flights: seq<Flight>): real {
    if flights == [] then 0.0 else Estimates(flights[..|flights| - 1]) + flights[|flights| - 1].estimate
  }

  /** Every call's estimate is at most `c`, and its cost lies between zero and its estimate. */
  ghost predicate Honest(e: Event, c: real) {
    (e.Start? || e.Fallback?) ==> 0.0 <= e.call.actual <= e.call.estimate <= c
  }

  ghost predicate FlightsHonest(flights: seq<Flight>, c: real) {
    forall i :: 0 <= i < |flights| ==> 0.0 <= flights[i].actual <= flights[i].estimate <= c
  }

  lemma {:induction false} EstimatesWithout(flights: seq<Flight>, i: nat)
    requires i < |flights|
    ensures Estimates(Without(flights, i)) == Estimates(flights) - flights[i].estimate
  {
    var n := |flights| - 1;
    if i == n {
      assert Without(flights, i) == flights[..n];
    } else {
      EstimatesWithout(flights[..n], i);
      assert Without(flights, i)[..n - 1] == Without(flights[..n], i);
    }
  }

  /** n times c. */
  function Times(n: nat, c: real): real {
    if n == 0 then 0.0 else Times(n - 1, c) + c
  }

  lemma {:induction false} TimesIsProduct(n: nat, c: real)
    ensures Times(n, c) == n as real * c
  {
    if n > 0 {
      TimesIsProduct(n - 1, c);
      assert n as real * c == (n - 1) as real * c + c;
    }
  }

  lemma {:induction false} TimesMonotone(m: nat, n: nat, c: real)
    requires m <= n && 0.0 <= c
    ensures 0.0 <= Times(m, c) <= Times(n, c)
    decreases m + n
  {
    if m > 0 {
      TimesMonotone(m - 1, n - 1, c);
    } else if n > 0 {
      TimesMonotone(0, n - 1, c);
    }
  }

  lemma {:induction false} EstimatesBounded(flights: seq<Flight>, c: real)
    requires FlightsHonest(flights, c)
    ensures 0.0 <= Estimates(flights) <= Times(|flights|, c)
  {
    if flights != [] {
      EstimatesBounded(flights[..|flights| - 1], c);
    }
  }

  ghost predicate Bounded(s: System, cap: real, c: real, k: nat)
    requires k >= 1
  {
    && 0.0 <= s.ledger.dailyCost
    && s.ledger.dailyCost + Estimates(s.flights) < cap + Times(k - 1, c)
  }

  lemma EstimatesWith(flights: seq<Flight>, call: Flight)
    ensures Estimates(flights + [call]) == Estimates(flights) + call.estimate
  {
    assert (flights + [call])[..|flights|] == flights;
  }

  /** A call that passes the check leaves room for all the others at their largest. */
  lemma PassedCheckFits(cap: real, l: Ledger, today: Day, flights: seq<Flight>, estimate: real, c: real, k: nat)
    requires WithinBudget(l, today, estimate, cap) && FlightsHonest(flights, c) && 0.0 <= c
    requires |flights| + 1 <= k
    ensures Reset(l, today).dailyCost + Estimates(flights) + estimate < cap + Times(k - 1, c)
  {
    EstimatesBounded(flights, c);
    TimesMonotone(|flights|, k - 1, c);
  }

  /** The calls in flight while an event is handled; a fallback call is one of them. */
  function Load(cap: real, s: System, e: Event): nat {
    if e.Fallback? then |s.flights| + 1 else |Step(cap, s, e).flights|
  }

  lemma StepKeepsBound(cap: real, s: System, e: Event, c: real, k: nat)
    requires 0.0 < cap && 0.0 <= c && k >= 1
    requires Bounded(s, cap, c, k) && FlightsHonest(s.flights, c) && Honest(e, c)
    requires Load(cap, s, e) <= k
    ensures Bounded(Step(cap, s, e), cap, c, k) && FlightsHonest(Step(cap, s, e).flights, c)
  {
    match e
    case Start(today, call) =>
      if WithinBudget(s.ledger, today, call.estimate, cap) {
        EstimatesWith(s.flights, call);
        PassedCheckFits(cap, s.ledger, today, s.flights, call.estimate, c, k);
      }
    case Finish(today, i) =>
      if i < |s.flights| { EstimatesWithout(s.flights, i); ResetNeverRaises(s, today, cap, c, k); }
    case Fail(i) =>
      if i < |s.flights| { EstimatesWithout(s.flights, i); }
    case Fallback(today, call) =>
      if WithinBudget(s.ledger, today, call.estimate, cap) {
        PassedCheckFits(cap, s.ledger, today, s.flights, call.estimate, c, k);
      }
  }

  lemma ResetNeverRaises(s: System, today: Day, cap: real, c: real, k: nat)
    requires k >= 1 && Bounded(s, cap, c, k)
    ensures 0.0 <= Reset(s.ledger, today).dailyCost <= s.ledger.dailyCost
  {}

  /** A run in which at most `k` calls are in flight at a time and every call is honest. */
  ghost predicate Admissible(cap: real, today: Day, events: seq<Event>, c: real, k: nat) {
    forall n :: 0 <= n < |events| ==>
      Honest(events[n], c) && Load(cap, After(cap, today, events[..n]), events[n]) <= k
  }

  lemma AdmissiblePrefix(cap: real, today: Day, events: seq<Event>, c: real, k: nat)
    requires events != [] && Admissible(cap, today, events, c, k)
    ensures Admissible(cap, today, events[..|events| - 1], c, k)
  {
    var front := events[..|events| - 1];
    forall n | 0 <= n < |front|
      ensures Honest(front[n], c) && Load(cap, After(cap, today, front[..n]), front[n]) <= k
    {
      assert front[..n] == events[..n] && front[n] == events[n];
    }
  }

  lemma {:induction false} AlwaysBounded(cap: real, today: Day, events: seq<Event>, c: real, k: nat)
    requires 0.0 < cap && 0.0 <= c && k >= 1
    requires Admissible(cap, today, events, c, k)
    ensures
      var s := After(cap, today, events);
      Bounded(s, cap, c, k) && FlightsHonest(s.flights, c)
    decreases |events|
  {
    if events == [] {
      TimesMonotone(0, k - 1, c);
    } else {
      AdmissiblePrefix(cap, today, events, c, k);
      AlwaysBounded(cap, today, events[..|events| - 1], c, k);
      StepKeepsBound(cap, After(cap, today, events[..|events| - 1]), events[|events| - 1], c, k);
    }
  }

  /** What the daily figure and the calls in flight can reach. */
  ghost predicate SpendBelow(s: System, limit: real) {
    0.0 <= s.ledger.dailyCost && s.ledger.dailyCost + Estimates(s.flights) < limit
  }

  lemma BoundAsProduct(s: System, cap: real, c: real, k: nat)
    requires k >= 1 && Bounded(s, cap, c, k)
    ensures SpendBelow(s, cap + (k - 1) as real * c)
  {
    TimesIsProduct(k - 1, c);
  }

  /**
    The overspend bound. However calls interleave, fail, or cross midnight: if each costs at most
    its estimate, no estimate exceeds `c`, and at most `k` are in flight, then today's cost plus
    everything still in flight stays strictly below cap + (k-1)c.
  */
  lemma OverspendBound(cap: real, today: Day, events: seq<Event>, c: real, k: nat)
    requires 0.0 < cap && 0.0 <= c && k >= 1
    requires Admissible(cap, today, events, c, k)
    ensures SpendBelow(After(cap, today, events), cap + (k - 1) as real * c)
  {
    AlwaysBounded(cap, today, events, c, k);
    BoundAsProduct(After(cap, today, events), cap, c, k);
  }

  /** Calls made one at a time never reach the cap. */
  lemma OneAtATimeStaysBelowCap(cap: real, today: Day, events: seq<Event>, c: real)
    requires 0.0 < cap && 0.0 <= c
    requires Admissible(cap, today, events, c, 1)
    ensures After(cap, today, events).ledger.dailyCost < cap
  {
    AlwaysBounded(cap, today, events, c, 1);
    EstimatesBounded(After(cap, today, events).flights, c);
  }

  // ---------------------------------------------------------------------------------------------
  // The bound is tight
  // ---------------------------------------------------------------------------------------------

  lemma AfterSnoc(cap: real, today: Day, events: seq<Event>, e: Event)
    ensures After(cap, today, events + [e]) == Step(cap, After(cap, today, events), e)
  {
    assert (events + [e])[..|events|] == events;
  }

  lemma AdmissibleSnoc(cap: real, today: Day, events: seq<Event>, e: Event, c: real, k: nat)
    requires Admissible(cap, today, events, c, k) && Honest(e, c)
    requires Load(cap, After(cap, today, events), e) <= k
    ensures Admissible(cap, today, events + [e], c, k)
  {
    var all := events + [e];
    forall n | 0 <= n < |all|
      ensures Honest(all[n], c) && Load(cap, After(cap, today, all[..n]), all[n]) <= k
    {
      if n < |events| {
        assert all[..n] == events[..n] && all[n] == events[n];
      } else {
        assert all[..n] == events;
      }
    }
  }

  /** `n` calls of estimate `c` are in flight, and `spent` has been recorded today. */
  ghost predicate Piled(cap: real, today: Day, events: seq<Event>, spent: real, c: real, n: nat, k: nat) {
    && Admissible(cap, today, events, c, k)
    && var s := After(cap, today, events);
    && s.ledger.dailyCost == spent && s.ledger.lastReset == today
    && |s.flights| == n && Estimates(s.flights) == Times(n, c)
  }

  lemma SpendOneMore(cap: real, today: Day, events: seq<Event>, spent: real, x: real, c: real, k: nat)
    requires 0.0 <= x <= c && k >= 1 && Piled(cap, today, events, spent, c, 0, k) && spent + x < cap
    ensures Piled(cap, today, events + [Start(today, Flight(x, x, ""))] + [Finish(today, 0)], spent + x, c, 0, k)
  {
    var call := Start(today, Flight(x, x, ""));
    AfterSnoc(cap, today, events, call);
    AdmissibleSnoc(cap, today, events, call, c, k);
    AfterSnoc(cap, today, events + [call], Finish(today, 0));
    AdmissibleSnoc(cap, today, events + [call], Finish(today, 0), c, k);
  }

  /** Calls made one after the other reach any total below the cap that `m` of them make. */
  lemma {:induction false} SpendReaches(cap: real, today: Day, x: real, m: nat, c: real, k: nat)
    returns (events: seq<Event>)
    requires 0.0 <= x <= c && Times(m, x) < cap && 0.0 < cap && 1 <= k
    ensures Piled(cap, today, events, Times(m, x), c, 0, k)
  {
    if m == 0 {
      events := [];
    } else {
      var before := SpendReaches(cap, today, x, m - 1, c, k);
      SpendOneMore(cap, today, before, Times(m - 1, x), x, c, k);
      events := before + [Start(today, Flight(x, x, ""))] + [Finish(today, 0)];
    }
  }

  lemma PileGrows(cap: real, today: Day, events: seq<Event>, spent: real, c: real, n: nat, k: nat)
    requires 0.0 < c && n < k && Piled(cap, today, events, spent, c, n, k) && spent + c < cap
    ensures Piled(cap, today, events + [Start(today, Flight(c, c, ""))], spent, c, n + 1, k)
  {
    var call := Start(today, Flight(c, c, ""));
    AfterSnoc(cap, today, events, call);
    EstimatesWith(After(cap, today, events).flights, call.call);
    AdmissibleSnoc(cap, today, events, call, c, k);
  }

  /** On top of any spend that leaves room for one more call, `n` calls all pass the check at once. */
  lemma {:induction false} CallsPile(cap: real, today: Day, base: seq<Event>, spent: real, c: real, n: nat, k: nat)
    returns (events: seq<Event>)
    requires 0.0 < c && n <= k && Piled(cap, today, base, spent, c, 0, k) && spent + c < cap
    ensures Piled(cap, today, events, spent, c, n, k)
  {
    if n == 0 {
      events := base;
    } else {
      var before := CallsPile(cap, today, base, spent, c, n - 1, k);
      PileGrows(cap, today, before, spent, c, n - 1, k);
      events := before + [Start(today, Flight(c, c, ""))];
    }
  }

  lemma QuotientTimes(a: real, b: real)
    requires 0.0 < b && 0.0 <= a
    ensures 0.0 <= a / b && (a / b) * b == a
  {}

  lemma ProductIncreases(a: real, b: real, c: real)
    requires a < b && 0.0 < c
    ensures a * c < b * c
  {}

  /** With at least `q` parts, where q parts of size c make the total, no part exceeds c. */
  lemma PartsAreSmall(total: real, q: real, parts: real, c: real, x: real)
    requires 0.0 < c && 0.0 < parts && 0.0 <= q < parts
    requires q * c == total && x * parts == total
    ensures x <= c
  {
    ProductIncreases(q, parts, c);
    if x > c {
      ProductIncreases(c, x, parts);
    }
  }

  /** Any amount is a whole number of equal parts no larger than `c`. */
  lemma SplitEvenly(total: real, c: real) returns (x: real, m: nat)
    requires 0.0 <= total && 0.0 < c
    ensures 0.0 <= x <= c && Times(m, x) == total
  {
    QuotientTimes(total, c);
    var q := total / c;
    m := q.Floor + 1;
    x := total / m as real;
    QuotientTimes(total, m as real);
    PartsAreSmall(total, q, m as real, c, x);
    TimesIsProduct(m, x);
  }

  /** A spend that leaves room for one more call and, with k calls on top, exceeds `level`. */
  lemma SpendFor(cap: real, c: real, k: nat, level: real) returns (total: real)
    requires 0.0 < c < cap && k >= 1
    requires level < cap + (k - 1) as real * c
    ensures 0.0 <= total && total + c < cap && total + Times(k, c) > level
  {
    TimesIsProduct(k - 1, c);
    var least := level - Times(k, c);
    total := if least < 0.0 then (cap - c) / 2.0 else (least + cap - c) / 2.0;
  }

  /** No smaller bound holds: every level below cap + (k-1)c is exceeded by some admissible run. */
  lemma OverspendBoundIsTight(cap: real, today: Day, c: real, k: nat, level: real) returns (events: seq<Event>)
    requires 0.0 < c < cap && k >= 1
    requires level < cap + (k - 1) as real * c
    ensures Admissible(cap, today, events, c, k)
    ensures
      var s := After(cap, today, events);
      s.ledger.dailyCost + Estimates(s.flights) > level
  {
    var total := SpendFor(cap, c, k, level);
    var x, m := SplitEvenly(total, c);
    var base := SpendReaches(cap, today, x, m, c, k);
    events := CallsPile(cap, today, base, total, c, k, k);
  }

  // ---------------------------------------------------------------------------------------------
  // Without trusting the estimates
  // ---------------------------------------------------------------------------------------------

  /** Costs lie between zero and `a`; estimates are only known not to be negative. */
  ghost predicate AdmissibleCosts(cap: real, today: Day, events: seq<Event>, a: real, k: nat) {
    forall n :: 0 <= n < |events| ==>
      && ((events[n].Start? || events[n].Fallback?) ==>
            0.0 <= events[n].call.estimate && 0.0 <= events[n].call.actual <= a)
      && Load(cap, After(cap, today, events[..n]), events[n]) <= k
  }

  ghost predicate FlightsCostAtMost(flights: seq<Flight>, a: real) {
    forall i :: 0 <= i < |flights| ==> 0.0 <= flights[i].actual <= a
  }

  /**
    Even when calls cost more than their estimates, what is spent today stays below cap + k*a:
    the check stops new calls once the cap is reached, and only those already in flight can land.
  */
  lemma {:induction false} UntrustedEstimatesBound(cap: real, today: Day, events: seq<Event>, a: real, k: nat)
    requires 0.0 < cap && 0.0 <= a && k >= 1
    requires AdmissibleCosts(cap, today, events, a, k)
    ensures
      var s := After(cap, today, events);
      && 0.0 <= s.ledger.dailyCost && FlightsCostAtMost(s.flights, a)
      && s.ledger.dailyCost + Times(|s.flights|, a) < cap + Times(k, a)
    decreases |events|
  {
    TimesMonotone(0, k, a);
    if events != [] {
      var front, e := events[..|events| - 1], events[|events| - 1];
      forall n | 0 <= n < |front|
        ensures
          && ((front[n].Start? || front[n].Fallback?) ==>
              0.0 <= front[n].call.estimate && 0.0 <= front[n].call.actual <= a)
          && Load(cap, After(cap, today, front[..n]), front[n]) <= k
      {
        assert front[..n] == events[..n] && front[n] == events[n];
      }
      UntrustedEstimatesBound(cap, today, front, a, k);
      UntrustedStep(cap, After(cap, today, front), e, a, k);
    }
  }

  lemma UntrustedStep(cap: real, s: System, e: Event, a: real, k: nat)
    requires 0.0 < cap && 0.0 <= a && k >= 1
    requires 0.0 <= s.ledger.dailyCost && FlightsCostAtMost(s.flights, a)
    requires s.ledger.dailyCost + Times(|s.flights|, a) < cap + Times(k, a)
    requires (e.Start? || e.Fallback?) ==> 0.0 <= e.call.estimate && 0.0 <= e.call.actual <= a
    requires Load(cap, s, e) <= k
    ensures
      var t := Step(cap, s, e);
      && 0.0 <= t.ledger.dailyCost && FlightsCostAtMost(t.flights, a)
      && t.ledger.dailyCost + Times(|t.flights|, a) < cap + Times(k, a)
  {
    var t := Step(cap, s, e);
    match e
    case Start(_, _) => TimesMonotone(|t.flights|, k, a);
    case Fallback(_, _) =>
      TimesMonotone(|s.flights| + 1, k, a);
    case Finish(_, i) =>
      if i < |s.flights| { assert |t.flights| == |s.flights| - 1; }
    case Fail(i) =>
      if i < |s.flights| { assert |t.flights| == |s.flights| - 1; }
  }

  lemma UntrustedSpendBound(cap: real, today: Day, events: seq<Event>, a: real, k: nat)
    requires 0.0 < cap && 0.0 <= a && k >= 1
    requires AdmissibleCosts(cap, today, events, a, k)
    ensures 0.0 <= After(cap, today, events).ledger.dailyCost < cap + k as real * a
  {
    UntrustedEstimatesBound(cap, today, events, a, k);
    TimesMonotone(0, |After(cap, today, events).flights|, a);
    TimesIsProduct(k, a);
  }

  // ---------------------------------------------------------------------------------------------
  // Conservation of what was recorded
  // ---------------------------------------------------------------------------------------------

  ghost function Total(costs: seq<real>): real {
    if costs == [] then 0.0 else Total(costs[..|costs| - 1]) + costs[|costs| - 1]
  }

  /** The per-model costs of a set of models. */
  ghost function SumOver(costs: map<string, real>, models: set<string>): real
    requires models <= costs.Keys
  {
    if models == {} then 0.0
    else var m :| m in models; costs[m] + SumOver(costs, models - {m})
  }

  lemma {:induction false} SumOverAny(costs: map<string, real>, models: set<string>, m: string)
    requires m in models && models <= costs.Keys
    ensures SumOver(costs, models) == costs[m] + SumOver(costs, models - {m})
    decreases models
  {
    var p :| p in models && SumOver(costs, models) == costs[p] + SumOver(costs, models - {p});
    if p != m {
      SumOverAny(costs, models - {p}, m);
      SumOverAny(costs, models - {m}, p);
      assert models - {p} - {m} == models - {m} - {p};
    }
  }

  lemma {:induction false} SumOverSame(a: map<string, real>, b: map<string, real>, models: set<string>)
    requires models <= a.Keys && models <= b.Keys
    requires forall m :: m in models ==> a[m] == b[m]
    ensures SumOver(a, models) == SumOver(b, models)
    decreases models
  {
    if models != {} {
      var m :| m in models;
      SumOverAny(a, models, m);
      SumOverAny(b, models, m);
      SumOverSame(a, b, models - {m});
    }
  }

  /** Adding a cost to one model adds exactly that cost to the sum over all models. */
  lemma AddToModel(costs: map<string, real>, model: string, cost: real)
    ensures
      var after := costs[model := CostOf(costs, model) + cost];
      SumOver(after, after.Keys) == SumOver(costs, costs.Keys) + cost
  {
    var after := costs[model := CostOf(costs, model) + cost];
    SumOverAny(after, after.Keys, model);
    var rest := after.Keys - {model};
    SumOverSame(after, costs, rest);
    if model in costs {
      SumOverAny(costs, costs.Keys, model);
      assert costs.Keys - {model} == rest;
    } else {
      assert costs.Keys == rest;
    }
  }

  /** Every call names its model, as `call_llm` and the fallback both do. */
  ghost predicate AllNamed(events: seq<Event>) {
    forall n :: 0 <= n < |events| && (events[n].Start? || events[n].Fallback?) ==> events[n].call.model != ""
  }

  ghost predicate FlightsNamed(flights: seq<Flight>) {
    forall i :: 0 <= i < |flights| ==> flights[i].model != ""
  }

  ghost predicate Conserved(s: System) {
    SumOver(s.ledger.modelCosts, s.ledger.modelCosts.Keys) == Total(s.recorded)
  }

  lemma RecordConserves(l: Ledger, today: Day, cost: real, model: string, recorded: seq<real>)
    requires model != "" && SumOver(l.modelCosts, l.modelCosts.Keys) == Total(recorded)
    ensures
      var after := Record(l, today, cost, model).modelCosts;
      SumOver(after, after.Keys) == Total(recorded + [cost])
  {
    AddToModel(l.modelCosts, model, cost);
    assert (recorded + [cost])[..|recorded|] == recorded;
  }

  lemma StepConserves(cap: real, s: System, e: Event)
    requires Conserved(s) && FlightsNamed(s.flights)
    requires (e.Start? || e.Fallback?) ==> e.call.model != ""
    ensures Conserved(Step(cap, s, e)) && FlightsNamed(Step(cap, s, e).flights)
  {
    match e
    case Start(_, _) =>
    case Finish(today, i) =>
      if i < |s.flights| { RecordConserves(s.ledger, today, s.flights[i].actual, s.flights[i].model, s.recorded); }
    case Fail(_) =>
    case Fallback(today, call) =>
      RecordConserves(Reset(s.ledger, today), today, call.actual, call.model, s.recorded);
  }

  /**
    Nothing recorded is lost or counted twice: over any run the per-model costs add up to every
    cost ever recorded, while the daily figure alone is cleared at midnight.
  */
  lemma {:induction false} ModelCostsConserved(cap: real, today: Day, events: seq<Event>)
    requires AllNamed(events)
    ensures
      var s := After(cap, today, events);
      SumOver(s.ledger.modelCosts, s.ledger.modelCosts.Keys) == Total(s.recorded) && FlightsNamed(s.flights)
    decreases |events|
  {
    if events != [] {
      var n := |events| - 1;
      assert forall i :: 0 <= i < n ==> events[..n][i] == events[i];
      ModelCostsConserved(cap, today, events[..n]);
      StepConserves(cap, After(cap, today, events[..n]), events[n]);
    }
  }
}
