/**
 Monthly budgets (internal/budget/budget.go, strict reserve path).

 Each Redis script is one atomic update of a counter per tenant and month. A run is any
 interleaving of the `Before` and `After` of any number of calls. A call reserves the estimate for
 the targets and tokens it asks for, and settles for what the target that served it reports.
 */
module Budget {
  import Pricing

  /** A ledger counter: tenant and month. */
  datatype Key = Key(tenant: string, month: string)

  type Ledger = map<Key, int>

  function Get(m: Ledger, k: Key): int {
    if k in m then m[k] else 0
  }

  /** reserveScript: admit and add the estimate, or refuse and leave the counter alone. */
  function Reserved(cur: int, est: int, limit: int): (bool, int) {
    if cur + est > limit then (false, cur) else (true, cur + est)
  }

  /** addScript: adjust, clamped at zero. */
  function Added(cur: int, delta: int): int {
    if cur + delta < 0 then 0 else cur + delta
  }

  /** Limits by tenant (0 is none), the price table, whether the stage was given it, and whether a
      target without a price is refused. */
  datatype Setup =
    Setup(limits: string -> int, prices: map<string, Pricing.Price>, estimates: bool, requirePricing: bool)

  /** What a call asks for. */
  datatype Ask = Ask(targets: seq<string>, prompt: int, max: int)

  datatype Quote = Quoted(est: nat) | Unquotable

  /** The estimate to reserve; without one nothing is reserved, unless prices are required. */
  function QuoteFor(cfg: Setup, a: Ask): Quote {
    if !cfg.estimates || a.targets == [] then Quoted(0)
    else
      match Pricing.Estimate(cfg.prices, a.targets, a.prompt, a.max)
      case Priced(est) => Quoted(Pricing.NotNegative(est))
      case Unpriced => if cfg.requirePricing then Unquotable else Quoted(0)
  }

  /** What came of a call: nothing, or an answer from a target that reports its usage. */
  datatype Bill = Unserved | Served(target: string, usage: Pricing.Usage)

  /** The cost of a call; a target without a price costs nothing. */
  function CostOf(cfg: Setup, b: Bill): int {
    if b.Unserved? then 0
    else
      match Pricing.CostMicros(cfg.prices, b.target, b.usage)
      case Priced(micros) => micros
      case Unpriced => 0
  }

  datatype Call =
    | Unlimited(tenant: string)               // the tenant has no budget
    | Rejected(tenant: string)                // no quote, or the reservation was refused
    | Held(key: Key, est: nat, ask: Ask)      // reserved, not yet settled
    | Settled

  /** The cost of a lost hedge is itself an estimate, hence never negative. */
  datatype Event =
    | Before(tenant: string, month: string, ask: Ask)
    | After(call: nat, bill: Bill, hedgeCost: nat, month: string)

  /** `settled` is the history of what was finally charged to each counter, `lost` of what the clamp
      at zero swallowed. */
  datatype State = State(ledger: Ledger, calls: seq<Call>, settled: Ledger, lost: Ledger)

  const Start := State(map[], [], map[], map[])

  predicate Enabled(s: State, e: Event) {
    e.After? ==> e.call < |s.calls| && !s.calls[e.call].Settled?
  }

  function Total(cfg: Setup, e: Event): int
    requires e.After?
  {
    CostOf(cfg, e.bill) + e.hedgeCost
  }

  function Apply(cfg: Setup, s: State, e: Event): State
    requires Enabled(s, e)
  {
    match e
    case Before(tenant, month, ask) => s.(calls := s.calls + [Opened(cfg, s, e)], ledger := Reserve(cfg, s, e))
    case After(i, _, _, month) =>
      var total := Total(cfg, e);
      match s.calls[i]
      case Held(k, est, _) => Charge(s, i, k, total - est, total)
      case Unlimited(tenant) => ChargeUnreserved(s, i, Key(tenant, month), total)
      case Rejected(tenant) => ChargeUnreserved(s, i, Key(tenant, month), total)
  }

  /** How `Before` decides on a call. */
  function Opened(cfg: Setup, s: State, e: Event): Call
    requires e.Before?
  {
    var k := Key(e.tenant, e.month);
    if cfg.limits(e.tenant) == 0 then Unlimited(e.tenant)
    else
      match QuoteFor(cfg, e.ask)
      case Unquotable => Rejected(e.tenant)
      case Quoted(est) =>
        if Reserved(Get(s.ledger, k), est, cfg.limits(e.tenant)).0 then Held(k, est, e.ask) else Rejected(e.tenant)
  }

  function Reserve(cfg: Setup, s: State, e: Event): Ledger
    requires e.Before?
  {
    var c := Opened(cfg, s, e);
    if c.Held? then s.ledger[c.key := Get(s.ledger, c.key) + c.est] else s.ledger
  }

  function Shortfall(n: int): nat {
    if n < 0 then -n else 0
  }

  /** Settle call `i`: adjust its counter by `delta` unless that is zero. */
  function Charge(s: State, i: nat, k: Key, delta: int, total: int): State
    requires i < |s.calls|
  {
    State(if delta == 0 then s.ledger else s.ledger[k := Added(Get(s.ledger, k), delta)],
          s.calls[i := Settled],
          s.settled[k := Get(s.settled, k) + total],
          s.lost[k := Get(s.lost, k) + Shortfall(Get(s.ledger, k) + delta)])
  }

  function ChargeUnreserved(s: State, i: nat, k: Key, total: int): State
    requires i < |s.calls|
  {
    if total <= 0 then s.(calls := s.calls[i := Settled]) else Charge(s, i, k, total, total)
  }

  ghost predicate Run(cfg: Setup, s: State, es: seq<Event>, t: State)
    decreases |es|
  {
    if es == [] then t == s
    else Enabled(s, es[0]) && Run(cfg, Apply(cfg, s, es[0]), es[1..], t)
  }

  // ----- conservation

  ghost function Share(c: Call, k: Key): int {
    if c.Held? && c.key == k then c.est else 0
  }

  /** What open calls have reserved on one counter. */
  ghost function Outstanding(calls: seq<Call>, k: Key): int {
    if calls == [] then 0 else Outstanding(calls[..|calls| - 1], k) + Share(calls[|calls| - 1], k)
  }

  lemma {:induction false} OutstandingUpdate(calls: seq<Call>, i: nat, c: Call, k: Key)
    requires i < |calls|
    ensures Outstanding(calls[i := c], k) == Outstanding(calls, k) - Share(calls[i], k) + Share(c, k)
  {
    var n := |calls| - 1;
    if i == n {
      assert calls[i := c][..n] == calls[..n];
    } else {
      assert calls[i := c][..n] == calls[..n][i := c];
      OutstandingUpdate(calls[..n], i, c, k);
    }
  }

  lemma {:induction false} OutstandingBounds(calls: seq<Call>, i: nat, k: Key)
    requires i < |calls|
    ensures 0 <= Share(calls[i], k) <= Outstanding(calls, k)
  {
    var n := |calls| - 1;
    OutstandingNotNegative(calls[..n], k);
    if i < n {
      OutstandingBounds(calls[..n], i, k);
    }
  }

  lemma {:induction false} OutstandingNotNegative(calls: seq<Call>, k: Key)
    ensures Outstanding(calls, k) >= 0
  {
    if calls != [] {
      OutstandingNotNegative(calls[..|calls| - 1], k);
    }
  }

  /** Each counter is what was settled on it, what is reserved on it, and what the clamp swallowed. */
  ghost predicate Balanced(s: State, k: Key) {
    && Get(s.ledger, k) == Get(s.settled, k) + Outstanding(s.calls, k) + Get(s.lost, k)
    && Get(s.ledger, k) >= 0 && Get(s.lost, k) >= 0
  }

  ghost predicate Inv(s: State) {
    forall k :: Balanced(s, k)
  }

  lemma BeforeKeeps(cfg: Setup, s: State, e: Event, k: Key)
    requires Inv(s) && e.Before?
    ensures Balanced(Apply(cfg, s, e), k)
  {
    var s' := Apply(cfg, s, e);
    assert s'.calls[..|s'.calls| - 1] == s.calls;
    assert Balanced(s, k);
  }

  lemma ChargeKeeps(s: State, i: nat, j: Key, delta: int, k: Key)
    requires Balanced(s, k) && i < |s.calls|
    requires Share(s.calls[i], k) == if k == j && s.calls[i].Held? then s.calls[i].est else 0
    ensures Balanced(Charge(s, i, j, delta, delta + Share(s.calls[i], j)), k)
  {
    OutstandingUpdate(s.calls, i, Settled, k);
  }

  lemma AfterKeeps(cfg: Setup, s: State, e: Event, k: Key)
    requires Inv(s) && e.After? && Enabled(s, e)
    ensures Balanced(Apply(cfg, s, e), k)
  {
    assert Balanced(s, k);
    var total := Total(cfg, e);
    match s.calls[e.call]
    case Held(j, est, _) => ChargeKeeps(s, e.call, j, total - est, k);
    case Unlimited(tenant) => UnreservedKeeps(s, e.call, Key(tenant, e.month), total, k);
    case Rejected(tenant) => UnreservedKeeps(s, e.call, Key(tenant, e.month), total, k);
  }

  lemma UnreservedKeeps(s: State, i: nat, j: Key, total: int, k: Key)
    requires Balanced(s, k) && i < |s.calls| && !s.calls[i].Held?
    ensures Balanced(ChargeUnreserved(s, i, j, total), k)
  {
    if total <= 0 {
      OutstandingUpdate(s.calls, i, Settled, k);
    } else {
      ChargeKeeps(s, i, j, total, k);
    }
  }

  lemma ApplyKeeps(cfg: Setup, s: State, e: Event)
    requires Inv(s) && Enabled(s, e)
    ensures Inv(Apply(cfg, s, e))
  {
    forall k ensures Balanced(Apply(cfg, s, e), k) {
      if e.Before? {
        BeforeKeeps(cfg, s, e, k);
      } else {
        AfterKeeps(cfg, s, e, k);
      }
    }
  }

  lemma {:induction false} RunInv(cfg: Setup, s: State, es: seq<Event>, t: State)
    requires Inv(s) && Run(cfg, s, es, t)
    ensures Inv(t)
    decreases |es|
  {
    if es != [] {
      ApplyKeeps(cfg, s, es[0]);
      RunInv(cfg, Apply(cfg, s, es[0]), es[1..], t);
    }
  }

  /** Conservation over every interleaving, whatever is billed: each tenant-month counter equals what was
      settled on it, plus the reservations still open, plus what the clamp swallowed. */
  lemma {:induction false} LedgerConserved(cfg: Setup, es: seq<Event>, t: State, k: Key)
    requires Run(cfg, Start, es, t)
    ensures Get(t.ledger, k) == Get(t.settled, k) + Outstanding(t.calls, k) + Get(t.lost, k)
    ensures Get(t.ledger, k) >= 0 && Get(t.lost, k) >= 0
  {
    RunInv(cfg, Start, es, t);
    assert Balanced(t, k);
  }

  /** Exactly when a budgeted call is admitted, in terms of the history. */
  lemma {:induction false} AdmittedIff(cfg: Setup, es: seq<Event>, t: State, tenant: string, month: string, ask: Ask)
    requires Run(cfg, Start, es, t) && cfg.limits(tenant) != 0
    ensures var k := Key(tenant, month);
            var c := Opened(cfg, t, Before(tenant, month, ask));
            c.Held? <==> QuoteFor(cfg, ask).Quoted?
                         && Get(t.settled, k) + Outstanding(t.calls, k) + Get(t.lost, k) + QuoteFor(cfg, ask).est
                            <= cfg.limits(tenant)
  {
    LedgerConserved(cfg, es, t, Key(tenant, month));
  }

  /** Settlement moves only the counter that was reserved, whatever month it is by then. */
  lemma SettlesWhereReserved(cfg: Setup, s: State, e: Event, k: Key)
    requires e.After? && Enabled(s, e) && s.calls[e.call].Held? && k != s.calls[e.call].key
    ensures Get(Apply(cfg, s, e).ledger, k) == Get(s.ledger, k)
    ensures Get(Apply(cfg, s, e).settled, k) == Get(s.settled, k)
  {
  }

  // ----- what a call is quoted and charged, in terms of prices

  /** A quote exists unless prices are required and one is missing; it is the largest estimate of any target when all
      are priced, and nothing otherwise. */
  lemma QuoteExact(cfg: Setup, ask: Ask)
    ensures var q := QuoteFor(cfg, ask);
            var priced := forall t :: t in ask.targets ==> t in cfg.prices;
            var prompt, max := Pricing.NotNegative(ask.prompt), Pricing.CappedTokens(ask.max);
            && (q.Unquotable? <==> cfg.estimates && ask.targets != [] && cfg.requirePricing && !priced)
            && (q.Quoted? && cfg.estimates && priced ==>
                  && (forall t :: t in ask.targets ==> Pricing.TargetEstimate(cfg.prices[t], prompt, max) <= q.est)
                  && (q.est == 0
                      || exists t :: t in ask.targets && Pricing.TargetEstimate(cfg.prices[t], prompt, max) == q.est))
            && (q.Quoted? && !(cfg.estimates && priced) ==> q.est == 0)
  {
    var prompt, max := Pricing.NotNegative(ask.prompt), Pricing.CappedTokens(ask.max);
    if cfg.estimates && ask.targets != [] && forall t :: t in ask.targets ==> t in cfg.prices {
      Pricing.LargestAttained(cfg.prices, ask.targets, prompt, max);
      forall t | t in ask.targets
        ensures Pricing.TargetEstimate(cfg.prices[t], prompt, max) <= QuoteFor(cfg, ask).est
      {
        Pricing.LargestCovers(cfg.prices, ask.targets, prompt, max, t);
      }
    }
  }

  /** What a bill comes to at the listed prices, before rounding. */
  ghost function BillAt(cfg: Setup, b: Bill): real {
    if b.Unserved? || b.target !in cfg.prices then 0.0
    else
      var p, u := cfg.prices[b.target], b.usage;
      Pricing.Worst(p, Pricing.NotNegative(u.prompt) as real, Pricing.NotNegative(u.completion) as real)
      - Pricing.Discount(p, u.cached as real)
  }

  /** A call is charged its bill, to the nearest micro, and its lost hedge in full. */
  lemma TotalIsBill(cfg: Setup, e: Event)
    requires e.After?
    ensures -0.5 <= Total(cfg, e) as real - e.hedgeCost as real - BillAt(cfg, e.bill) <= 0.5
  {
    if e.bill.Served? && e.bill.target in cfg.prices {
      Pricing.CostIsBillLessDiscount(cfg.prices[e.bill.target], e.bill.usage);
    }
  }

  /** How a settlement moves its counter: by the total in place of the reservation, down to zero at the least; without
      a reservation by the total if it is positive. */
  lemma SettlementMoves(cfg: Setup, s: State, e: Event)
    requires e.After? && Enabled(s, e)
    ensures var s', total := Apply(cfg, s, e), Total(cfg, e);
            match s.calls[e.call]
            case Held(k, est, _) =>
              Get(s.ledger, k) >= 0 ==>
                Get(s'.ledger, k) == if Get(s.ledger, k) - est + total >= 0 then Get(s.ledger, k) - est + total else 0
            case Unlimited(t) =>
              Get(s.ledger, Key(t, e.month)) >= 0 ==>
                Get(s'.ledger, Key(t, e.month)) == Get(s.ledger, Key(t, e.month)) + if total > 0 then total else 0
            case Rejected(t) =>
              Get(s.ledger, Key(t, e.month)) >= 0 ==>
                Get(s'.ledger, Key(t, e.month)) == Get(s.ledger, Key(t, e.month)) + if total > 0 then total else 0
            case Settled => true
  {
  }

  // ----- the clamp

  /** A settlement on counter `k` that what is settled and what the other calls reserved can cover. */
  ghost predicate Covered(cfg: Setup, s: State, e: Event, k: Key)
    requires Enabled(s, e)
  {
    e.After? && s.calls[e.call].Held? && s.calls[e.call].key == k ==>
      Get(s.settled, k) + (Outstanding(s.calls, k) - s.calls[e.call].est) + Total(cfg, e) >= 0
  }

  ghost predicate AllCovered(cfg: Setup, s: State, es: seq<Event>, k: Key)
    decreases |es|
  {
    es == [] || (Enabled(s, es[0]) && Covered(cfg, s, es[0], k) && AllCovered(cfg, Apply(cfg, s, es[0]), es[1..], k))
  }

  /** While nothing has been lost, a step loses nothing exactly when it is covered. */
  lemma LossStep(cfg: Setup, s: State, e: Event, k: Key)
    requires Inv(s) && Enabled(s, e)
    ensures Get(s.lost, k) <= Get(Apply(cfg, s, e).lost, k)
    ensures Get(s.lost, k) == 0 ==> (Get(Apply(cfg, s, e).lost, k) == 0 <==> Covered(cfg, s, e, k))
  {
    assert Balanced(s, k);
  }

  lemma {:induction false} LossesStay(cfg: Setup, s: State, es: seq<Event>, t: State, k: Key)
    requires Inv(s) && Run(cfg, s, es, t)
    ensures Get(s.lost, k) <= Get(t.lost, k)
    decreases |es|
  {
    if es != [] {
      LossStep(cfg, s, es[0], k);
      ApplyKeeps(cfg, s, es[0]);
      LossesStay(cfg, Apply(cfg, s, es[0]), es[1..], t, k);
    }
  }

  lemma {:induction false} LossIff(cfg: Setup, s: State, es: seq<Event>, t: State, k: Key)
    requires Inv(s) && Run(cfg, s, es, t) && Get(s.lost, k) == 0
    ensures Get(t.lost, k) == 0 <==> AllCovered(cfg, s, es, k)
    decreases |es|
  {
    if es != [] {
      var s' := Apply(cfg, s, es[0]);
      LossStep(cfg, s, es[0], k);
      ApplyKeeps(cfg, s, es[0]);
      if Get(s'.lost, k) == 0 {
        LossIff(cfg, s', es[1..], t, k);
      } else {
        LossesStay(cfg, s', es[1..], t, k);
      }
    }
  }

  /** Over every run, the counter is settled cost plus open reservations if and only if every settlement
      on it was covered: only then does the clamp at zero never fire. */
  lemma {:induction false} NothingLostIff(cfg: Setup, es: seq<Event>, t: State, k: Key)
    requires Run(cfg, Start, es, t)
    ensures Get(t.ledger, k) == Get(t.settled, k) + Outstanding(t.calls, k) <==> AllCovered(cfg, Start, es, k)
  {
    LedgerConserved(cfg, es, t, k);
    LossIff(cfg, Start, es, t, k);
  }

  /** What an upstream must report for its cost not to be negative: cached tokens within the prompt. */
  predicate Honest(e: Event) {
    e.After? && e.bill.Served? ==> 0 <= e.bill.usage.cached <= Pricing.NotNegative(e.bill.usage.prompt)
  }

  predicate SanePrices(cfg: Setup) {
    forall t :: t in cfg.prices ==> Pricing.Sane(cfg.prices[t]) && 0.0 <= cfg.prices[t].cachedInput
  }

  lemma HonestTotal(cfg: Setup, e: Event)
    requires SanePrices(cfg) && Honest(e) && e.After?
    ensures Total(cfg, e) >= 0
  {
    if e.bill.Served? && e.bill.target in cfg.prices {
      Pricing.CostNotNegative(cfg.prices[e.bill.target], e.bill.usage);
    }
  }

  lemma HonestCovered(cfg: Setup, s: State, e: Event, k: Key)
    requires SanePrices(cfg) && Honest(e) && Inv(s) && Enabled(s, e) && Get(s.settled, k) >= 0
    ensures Covered(cfg, s, e, k) && Get(Apply(cfg, s, e).settled, k) >= 0
  {
    if e.After? {
      HonestTotal(cfg, e);
      OutstandingBounds(s.calls, e.call, k);
    }
  }

  lemma {:induction false} HonestRun(cfg: Setup, s: State, es: seq<Event>, t: State, k: Key)
    requires SanePrices(cfg) && Inv(s) && Run(cfg, s, es, t) && Get(s.settled, k) >= 0
    requires forall i :: 0 <= i < |es| ==> Honest(es[i])
    ensures AllCovered(cfg, s, es, k) && Get(t.settled, k) >= 0
    decreases |es|
  {
    if es != [] {
      HonestCovered(cfg, s, es[0], k);
      ApplyKeeps(cfg, s, es[0]);
      HonestRun(cfg, Apply(cfg, s, es[0]), es[1..], t, k);
    }
  }

  /** With sane prices and upstreams that report cached tokens as part of the prompt, the clamp never fires
      in any run: each counter is settled cost plus open reservations. */
  lemma {:induction false} ClampNeverFires(cfg: Setup, es: seq<Event>, t: State, k: Key)
    requires SanePrices(cfg) && Run(cfg, Start, es, t) && forall i :: 0 <= i < |es| ==> Honest(es[i])
    ensures Get(t.ledger, k) == Get(t.settled, k) + Outstanding(t.calls, k) && Get(t.settled, k) >= 0
  {
    HonestRun(cfg, Start, es, t, k);
    NothingLostIff(cfg, es, t, k);
  }

  const HalfPrice := Pricing.Price(1.0, 1.0, 0.5)

  /** An upstream that reports cached tokens beyond the prompt makes a cost negative, and the clamp fires. */
  lemma ClampCanFire()
    ensures var cfg := Setup((t: string) => 10, map["m" := HalfPrice], true, true);
            var es := [Before("t", "2024-01", Ask(["m"], 0, 0)),
                       After(0, Served("m", Pricing.Usage(0, 0, 100)), 0, "2024-01")];
            var k := Key("t", "2024-01");
            exists t :: Run(cfg, Start, es, t)
                        && Get(t.ledger, k) == 0 && Get(t.settled, k) == -50 && Get(t.lost, k) == 50
  {
    var cfg := Setup((t: string) => 10, map["m" := HalfPrice], true, true);
    var ask, k := Ask(["m"], 0, 0), Key("t", "2024-01");
    var a := Before("t", "2024-01", ask);
    var b := After(0, Served("m", Pricing.Usage(0, 0, 100)), 0, "2024-01");
    QuoteOne(cfg, "m", 0, 0);
    assert Pricing.Worst(HalfPrice, 0.0, 0.0) == 0.0;
    var s1 := Apply(cfg, Start, a);
    assert s1.calls == [Held(k, 0, ask)];
    Pricing.CostCanBeNegative();
    assert Total(cfg, b) == -50;
    var t := Apply(cfg, s1, b);
    assert Get(t.ledger, k) == 0 && Get(t.settled, k) == -50 && Get(t.lost, k) == 50;
  }

  lemma QuoteOne(cfg: Setup, target: string, prompt: nat, max: nat)
    requires cfg.estimates && target in cfg.prices && max <= Pricing.MAX_TOKENS
    requires Pricing.TargetEstimate(cfg.prices[target], prompt, max) >= 0
    ensures QuoteFor(cfg, Ask([target], prompt, max)) == Quoted(Pricing.TargetEstimate(cfg.prices[target], prompt, max))
  {
    assert [target][..0] == [];
    assert Pricing.LargestEstimate(cfg.prices, [], prompt, max) == 0;
  }

  // ----- the limit

  /** A call exceeds what it reserved by at most `x`; a refused call costs nothing. */
  predicate WithinBy(cfg: Setup, s: State, e: Event, x: int)
    requires Enabled(s, e)
  {
    e.After? ==>
      match s.calls[e.call]
      case Held(_, est, _) => Total(cfg, e) - est <= x
      case Rejected(_) => Total(cfg, e) <= 0
      case _ => true
  }

  ghost predicate AllWithinBy(cfg: Setup, s: State, es: seq<Event>, x: int)
    decreases |es|
  {
    es == [] || (Enabled(s, es[0]) && WithinBy(cfg, s, es[0], x) && AllWithinBy(cfg, Apply(cfg, s, es[0]), es[1..], x))
  }

  /** Calls without a budget belong to tenants without one, and reservations are what was quoted. */
  ghost predicate Filed(cfg: Setup, s: State) {
    forall i :: 0 <= i < |s.calls| ==>
      match s.calls[i]
      case Unlimited(tenant) => cfg.limits(tenant) == 0
      case Held(_, est, ask) => QuoteFor(cfg, ask) == Quoted(est)
      case _ => true
  }

  ghost predicate Capped(cfg: Setup, s: State) {
    forall k: Key :: cfg.limits(k.tenant) > 0 ==> Get(s.ledger, k) <= cfg.limits(k.tenant)
  }

  lemma ApplyCapped(cfg: Setup, s: State, e: Event)
    requires Filed(cfg, s) && Capped(cfg, s) && Enabled(s, e) && WithinBy(cfg, s, e, 0)
    ensures Capped(cfg, Apply(cfg, s, e))
  {
  }

  lemma {:induction false} RunCapped(cfg: Setup, s: State, es: seq<Event>, t: State)
    requires Filed(cfg, s) && Capped(cfg, s) && Run(cfg, s, es, t) && AllWithinBy(cfg, s, es, 0)
    ensures Capped(cfg, t)
    decreases |es|
  {
    if es != [] {
      ApplyCapped(cfg, s, es[0]);
      RunCapped(cfg, Apply(cfg, s, es[0]), es[1..], t);
    }
  }

  /** The call was served by a target it asked for, within the tokens it asked for, and lost no hedge; a
      refused call was not served. */
  predicate AsAsked(s: State, e: Event)
    requires Enabled(s, e)
  {
    e.After? ==>
      match s.calls[e.call]
      case Held(_, _, ask) =>
        && e.hedgeCost == 0
        && (e.bill.Served? ==>
              e.bill.target in ask.targets && Pricing.WithinEstimate(e.bill.usage, ask.prompt, ask.max))
      case Rejected(_) => e.hedgeCost == 0 && e.bill.Unserved?
      case _ => true
  }

  ghost predicate AllAsAsked(cfg: Setup, s: State, es: seq<Event>)
    decreases |es|
  {
    es == [] || (Enabled(s, es[0]) && AsAsked(s, es[0]) && AllAsAsked(cfg, Apply(cfg, s, es[0]), es[1..]))
  }

  /** The stage estimates from the price table, which is sane, and refuses targets without a price. */
  ghost predicate Strict(cfg: Setup) {
    cfg.estimates && cfg.requirePricing && forall t :: t in cfg.prices ==> Pricing.Sane(cfg.prices[t])
  }

  /** A target that was asked for costs, within what was asked for, at most the quote. */
  lemma QuoteCovers(cfg: Setup, ask: Ask, est: nat, target: string, u: Pricing.Usage)
    requires Strict(cfg) && QuoteFor(cfg, ask) == Quoted(est)
    requires target in ask.targets && Pricing.WithinEstimate(u, ask.prompt, ask.max)
    ensures CostOf(cfg, Served(target, u)) <= est
  {
    var prompt, max := Pricing.NotNegative(ask.prompt), Pricing.CappedTokens(ask.max);
    assert Pricing.Estimate(cfg.prices, ask.targets, ask.prompt, ask.max).Priced?;
    Pricing.LargestCovers(cfg.prices, ask.targets, prompt, max, target);
    Pricing.CostWithinEstimate(cfg.prices[target], u, ask.prompt, ask.max);
  }

  /** The link to pricing: such a call settles within its reservation. */
  lemma PricedCallWithinReservation(cfg: Setup, s: State, e: Event)
    requires Strict(cfg) && Filed(cfg, s) && Enabled(s, e) && AsAsked(s, e)
    ensures WithinBy(cfg, s, e, 0)
  {
    if e.After? && s.calls[e.call].Held? && e.bill.Served? {
      var c := s.calls[e.call];
      QuoteCovers(cfg, c.ask, c.est, e.bill.target, e.bill.usage);
    }
  }

  lemma {:induction false} AskedRunWithin(cfg: Setup, s: State, es: seq<Event>)
    requires Strict(cfg) && Filed(cfg, s) && AllAsAsked(cfg, s, es)
    ensures AllWithinBy(cfg, s, es, 0)
    decreases |es|
  {
    if es != [] {
      PricedCallWithinReservation(cfg, s, es[0]);
      AskedRunWithin(cfg, Apply(cfg, s, es[0]), es[1..]);
    }
  }

  /** In no run does a counter of a budgeted tenant exceed its limit, when each call is served by a target it
      was estimated for, within the estimated usage and without hedge cost. */
  lemma {:induction false} LimitNeverExceeded(cfg: Setup, es: seq<Event>, t: State, k: Key)
    requires Strict(cfg) && Run(cfg, Start, es, t) && AllAsAsked(cfg, Start, es) && cfg.limits(k.tenant) > 0
    ensures Get(t.ledger, k) <= cfg.limits(k.tenant)
  {
    AskedRunWithin(cfg, Start, es);
    RunCapped(cfg, Start, es, t);
  }

  // ----- how much a settlement may exceed its reservation

  lemma FreeCall(cfg: Setup, target: string)
    ensures CostOf(cfg, Served(target, Pricing.Usage(0, 0, 0))) == 0
  {
    if target in cfg.prices {
      Pricing.FullCost(cfg.prices[target], 0, 0);
      assert Pricing.Worst(cfg.prices[target], 0.0, 0.0) == 0.0;
    }
  }

  /** One budgeted call of a tenant that reserves nothing and is charged a lost hedge of `x`. */
  lemma OneOverrun(cfg: Setup, s: State, tenant: string, month: string, x: nat) returns (a: Event, b: Event, t: State)
    requires Inv(s) && 0 < cfg.limits(tenant) && Get(s.ledger, Key(tenant, month)) <= cfg.limits(tenant)
    ensures Run(cfg, s, [a, b], t) && AllWithinBy(cfg, s, [a, b], x) && Inv(t)
    ensures Get(t.ledger, Key(tenant, month)) == Get(s.ledger, Key(tenant, month)) + x
  {
    var k := Key(tenant, month);
    var ask := Ask([], 0, 0);
    a := Before(tenant, month, ask);
    var s1 := Apply(cfg, s, a);
    assert s1.calls[|s.calls|] == Held(k, 0, ask);
    var nothing := Pricing.Usage(0, 0, 0);
    b := After(|s.calls|, Served("m", nothing), x, month);
    FreeCall(cfg, "m");
    t := Apply(cfg, s1, b);
    assert Balanced(s, k);
    ApplyKeeps(cfg, s, a);
    ApplyKeeps(cfg, s1, b);
    assert [a, b][1..] == [b] && [b][1..] == [];
    assert AllWithinBy(cfg, s1, [b], x);
  }

  lemma {:induction false} RunThen(cfg: Setup, s: State, a: Event, b: Event, m: State, es: seq<Event>, t: State, x: int)
    requires Run(cfg, s, [a, b], m) && AllWithinBy(cfg, s, [a, b], x)
    requires Run(cfg, m, es, t) && AllWithinBy(cfg, m, es, x)
    ensures Run(cfg, s, [a, b] + es, t) && AllWithinBy(cfg, s, [a, b] + es, x)
  {
    var s1 := Apply(cfg, s, a);
    assert [a, b][1..] == [b] && [b][1..] == [];
    assert ([a, b] + es)[1..] == [b] + es && ([b] + es)[1..] == es;
    assert Run(cfg, s1, [b], m) && AllWithinBy(cfg, s1, [b], x);
    assert Run(cfg, Apply(cfg, s1, b), [], m);
    assert Run(cfg, s1, [b] + es, t) && AllWithinBy(cfg, s1, [b] + es, x);
  }

  /** Repeated, it breaks any limit. */
  lemma {:induction false} Overrun(cfg: Setup, s: State, tenant: string, month: string, x: nat)
    returns (es: seq<Event>, t: State)
    requires Inv(s) && x > 0 && 0 < cfg.limits(tenant) && Get(s.ledger, Key(tenant, month)) <= cfg.limits(tenant)
    ensures Run(cfg, s, es, t) && AllWithinBy(cfg, s, es, x)
    ensures Get(t.ledger, Key(tenant, month)) > cfg.limits(tenant)
    decreases cfg.limits(tenant) - Get(s.ledger, Key(tenant, month))
  {
    var a, b, m := OneOverrun(cfg, s, tenant, month, x);
    es, t := [a, b], m;
    if Get(m.ledger, Key(tenant, month)) <= cfg.limits(tenant) {
      var more, u := Overrun(cfg, m, tenant, month, x);
      RunThen(cfg, s, a, b, m, more, u, x);
      es, t := [a, b] + more, u;
    }
  }

  /** The tenant's limit holds in every run whose settlements exceed their reservations by at most `x`. */
  ghost predicate HoldsWithin(cfg: Setup, tenant: string, x: int) {
    forall es, t, month :: Run(cfg, Start, es, t) && AllWithinBy(cfg, Start, es, x)
      ==> Get(t.ledger, Key(tenant, month)) <= cfg.limits(tenant)
  }

  /** For every configuration and every budgeted tenant: the limit holds in all such runs if and only if
      settlements may not exceed their reservations at all. The cost of lost hedges is such an excess. */
  lemma ExcessIff(cfg: Setup, tenant: string, x: int)
    requires cfg.limits(tenant) > 0
    ensures HoldsWithin(cfg, tenant, x) <==> x <= 0
  {
    if x <= 0 {
      forall es, t, month | Run(cfg, Start, es, t) && AllWithinBy(cfg, Start, es, x)
        ensures Get(t.ledger, Key(tenant, month)) <= cfg.limits(tenant)
      {
        WithinLess(cfg, Start, es, x);
        RunCapped(cfg, Start, es, t);
      }
    } else {
      var es, t := Overrun(cfg, Start, tenant, "2024-01", x);
    }
  }

  lemma {:induction false} WithinLess(cfg: Setup, s: State, es: seq<Event>, x: int)
    requires x <= 0 && AllWithinBy(cfg, s, es, x)
    ensures AllWithinBy(cfg, s, es, 0)
    decreases |es|
  {
    if es != [] {
      WithinLess(cfg, Apply(cfg, s, es[0]), es[1..], x);
    }
  }

  /** For example: a call that reserved the whole limit, served as asked, and then charged a lost hedge. */
  lemma HedgeCostOverruns()
    ensures var cfg := Setup((t: string) => 10, map["m" := HalfPrice], true, true);
            var es := [Before("t", "2024-01", Ask(["m"], 10, 0)),
                       After(0, Served("m", Pricing.Usage(10, 0, 0)), 5, "2024-01")];
            exists t :: Run(cfg, Start, es, t) && Get(t.ledger, Key("t", "2024-01")) == 15
  {
    var cfg := Setup((t: string) => 10, map["m" := HalfPrice], true, true);
    var ask, k := Ask(["m"], 10, 0), Key("t", "2024-01");
    var a := Before("t", "2024-01", ask);
    var b := After(0, Served("m", Pricing.Usage(10, 0, 0)), 5, "2024-01");
    assert Pricing.Worst(HalfPrice, 10.0, 0.0) == 10.0;
    QuoteOne(cfg, "m", 10, 0);
    var s1 := Apply(cfg, Start, a);
    assert s1.calls == [Held(k, 10, ask)];
    Pricing.FullCost(HalfPrice, 10, 0);
    assert Total(cfg, b) == 15;
    assert Get(Apply(cfg, s1, b).ledger, k) == 15;
  }

  // ----- the stage

  /** The gateway's side of it: the shared counters and the calls in flight, changed step by step. */
  class Gateway {
    const cfg: Setup
    var ledger: Ledger
    var calls: seq<Call>
    ghost var settled: Ledger
    ghost var lost: Ledger

    ghost function Now(): State
      reads this
    {
      State(ledger, calls, settled, lost)
    }

    constructor (cfg: Setup)
      ensures this.cfg == cfg && Now() == Start
    {
      this.cfg := cfg;
      ledger, calls, settled, lost := map[], [], map[], map[];
    }

    method Reserve(k: Key, est: int, limit: int) returns (ok: bool, spent: int)
      modifies this`ledger
      ensures (ok, spent) == Reserved(Get(old(ledger), k), est, limit)
      ensures ledger == if ok then old(ledger)[k := spent] else old(ledger)
    {
      var cur := Get(ledger, k);
      if cur + est > limit {
        return false, cur;
      }
      ledger := ledger[k := cur + est];
      return true, cur + est;
    }

    method Add(k: Key, delta: int)
      modifies this`ledger
      ensures ledger == old(ledger)[k := Added(Get(old(ledger), k), delta)]
    {
      var next := Get(ledger, k) + delta;
      if next < 0 {
        next := 0;
      }
      ledger := ledger[k := next];
    }

    /** Strict-mode `Before`: estimate, reserve, and say whether the call may proceed. */
    method Before(tenant: string, month: string, ask: Ask) returns (ok: bool)
      modifies this
      ensures Now() == Apply(cfg, old(Now()), Event.Before(tenant, month, ask))
      ensures ok <==> !calls[|calls| - 1].Rejected?
    {
      var limit := cfg.limits(tenant);
      if limit == 0 {
        calls := calls + [Unlimited(tenant)];
        return true;
      }
      var est: nat := 0;
      if cfg.estimates && |ask.targets| > 0 {
        var priced;
        est, priced := Pricing.EstimateMaxMicros(cfg.prices, ask.targets, ask.prompt, ask.max);
        if !priced && cfg.requirePricing {
          calls := calls + [Rejected(tenant)];
          return false;
        }
      }
      var spent;
      ok, spent := Reserve(Key(tenant, month), est, limit);
      calls := calls + [if ok then Held(Key(tenant, month), est, ask) else Rejected(tenant)];
    }

    method After(i: nat, bill: Bill, hedgeCost: nat, month: string)
      requires i < |calls| && !calls[i].Settled?
      modifies this
      ensures Now() == Apply(cfg, old(Now()), Event.After(i, bill, hedgeCost, month))
    {
      var total := CostOf(cfg, bill) + hedgeCost;
      var c := calls[i];
      if c.Held? {
        Settle(i, c.key, total - c.est, total);
        return;
      }
      if total <= 0 {
        calls := calls[i := Settled];
        return;
      }
      Settle(i, Key(c.tenant, month), total, total);
    }

    /** Adjust the counter unless there is nothing to adjust. */
    method Settle(i: nat, k: Key, delta: int, total: int)
      requires i < |calls|
      modifies this
      ensures Now() == Charge(old(Now()), i, k, delta, total)
    {
      lost := lost[k := Get(lost, k) + Shortfall(Get(ledger, k) + delta)];
      settled := settled[k := Get(settled, k) + total];
      calls := calls[i := Settled];
      if delta != 0 {
        Add(k, delta);
      }
    }
  }
}
