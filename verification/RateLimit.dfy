/**
 Token buckets (internal/ratelimit/limiter.go): `takeScript` charges all buckets or none, and
 `adjustScript` corrects one afterwards. Each script is one atomic step at a clock in milliseconds;
 levels are reals. The code has two buckets; the model has any number of them.
 */
module RateLimit {

  const EXPIRY := 120000

  /** A stored level with its timestamp, or no key. */
  datatype Bucket = Absent | Stored(tokens: real, ts: int)

  /** What a bucket of capacity `cap` gains in `ms` milliseconds. */
  function Refill(cap: real, ms: int): real {
    cap * (ms as real / 60000.0)
  }

  function Since(now: int, ts: int): nat {
    if now > ts then now - ts else 0
  }

  /** Each write sets the key to expire after two minutes. */
  predicate Alive(b: Bucket, now: int) {
    b.Stored? && now - b.ts <= EXPIRY
  }

  function Min(a: real, b: real): real {
    if a < b then a else b
  }

  /** Level before it is cut at the capacity. */
  function Tokens(b: Bucket, cap: real, now: int): real {
    if Alive(b, now) then b.tokens + Refill(cap, Since(now, b.ts)) else cap
  }

  function Level(b: Bucket, cap: real, now: int): real {
    Min(cap, Tokens(b, cap, now))
  }

  function Ceil(v: real): int {
    -((-v).Floor)
  }

  /** Milliseconds until a missing amount has been refilled. */
  function MillisFor(missing: real, cap: real): int
    requires cap > 0.0
  {
    Ceil(missing * 60000.0 / cap)
  }

  function WaitFor(b: Bucket, cap: real, cost: real, now: int): int
    requires cap > 0.0
  {
    if Level(b, cap, now) < cost then MillisFor(cost - Level(b, cap, now), cap) else 0
  }

  datatype Decision = Allowed | Denied(wait: int) | TooLarge

  // ----- what a Take decides and does

  predicate Oversized(caps: seq<real>, costs: seq<real>)
    requires |caps| == |costs|
  {
    exists i :: 0 <= i < |caps| && caps[i] > 0.0 && costs[i] > caps[i]
  }

  /** Bucket `i` can pay; a capacity of zero or less means unlimited. */
  predicate Pays(bs: seq<Bucket>, caps: seq<real>, costs: seq<real>, now: int, i: nat)
    requires |bs| == |caps| == |costs| && i < |bs|
  {
    caps[i] > 0.0 ==> Level(bs[i], caps[i], now) >= costs[i]
  }

  predicate Accepts(bs: seq<Bucket>, caps: seq<real>, costs: seq<real>, now: int)
    requires |bs| == |caps| == |costs|
  {
    !Oversized(caps, costs) && forall i :: 0 <= i < |bs| ==> Pays(bs, caps, costs, now, i)
  }

  function Charged(b: Bucket, cap: real, cost: real, now: int): Bucket {
    if cap > 0.0 then Stored(Level(b, cap, now) - cost, now) else b
  }

  function ChargeAll(bs: seq<Bucket>, caps: seq<real>, costs: seq<real>, now: int): (r: seq<Bucket>)
    requires |bs| == |caps| == |costs|
    ensures |r| == |bs| && forall i :: 0 <= i < |bs| ==> r[i] == Charged(bs[i], caps[i], costs[i], now)
  {
    seq(|bs|, i requires 0 <= i < |bs| => Charged(bs[i], caps[i], costs[i], now))
  }

  /** `w` is the longest wait of any bucket. */
  ghost predicate LongestWait(bs: seq<Bucket>, caps: seq<real>, costs: seq<real>, now: int, w: int)
    requires |bs| == |caps| == |costs|
  {
    && (forall i :: 0 <= i < |bs| && caps[i] > 0.0 ==> WaitFor(bs[i], caps[i], costs[i], now) <= w)
    && (exists i :: 0 <= i < |bs| && caps[i] > 0.0 && WaitFor(bs[i], caps[i], costs[i], now) == w)
  }

  lemma MillisPositive(x: real, cap: real)
    requires x > 0.0 && cap > 0.0
    ensures MillisFor(x, cap) > 0
  {
    assert x * 60000.0 / cap > 0.0;
    CeilBounds(x * 60000.0 / cap);
  }

  lemma ShortMeansWait(b: Bucket, cap: real, cost: real, now: int)
    requires cap > 0.0
    ensures Level(b, cap, now) < cost <==> WaitFor(b, cap, cost, now) > 0
  {
    if Level(b, cap, now) < cost {
      MillisPositive(cost - Level(b, cap, now), cap);
    }
  }

  lemma CeilBounds(v: real)
    ensures Ceil(v) as real - 1.0 < v <= Ceil(v) as real
  {
  }

  lemma CeilLeast(v: real, n: int)
    ensures Ceil(v) <= n <==> v <= n as real
  {
    CeilBounds(v);
  }

  /** The first loop of takeScript: the verdict and the current levels; nothing is written. */
  method Assess(bs: seq<Bucket>, caps: seq<real>, costs: seq<real>, now: int) returns (d: Decision, levels: seq<real>)
    requires |bs| == |caps| == |costs|
    ensures d.TooLarge? <==> Oversized(caps, costs)
    ensures d.Allowed? <==> Accepts(bs, caps, costs, now)
    ensures d.Denied? ==> d.wait > 0 && LongestWait(bs, caps, costs, now, d.wait)
    ensures |levels| == |bs|
    ensures d.Allowed? ==> forall i :: 0 <= i < |bs| && caps[i] > 0.0 ==> levels[i] == Level(bs[i], caps[i], now)
  {
    levels := seq(|caps|, _ => 0.0);
    var wait := 0;
    var i := 0;
    while i < |caps|
      invariant 0 <= i <= |caps| && |levels| == |caps| && wait >= 0
      invariant forall j :: 0 <= j < i && caps[j] > 0.0 ==>
                  costs[j] <= caps[j] && levels[j] == Level(bs[j], caps[j], now)
      invariant forall j :: 0 <= j < i && caps[j] > 0.0 ==> WaitFor(bs[j], caps[j], costs[j], now) <= wait
      invariant wait > 0 ==> exists j :: 0 <= j < i && caps[j] > 0.0 && WaitFor(bs[j], caps[j], costs[j], now) == wait
      invariant wait == 0 ==> forall j :: 0 <= j < i ==> Pays(bs, caps, costs, now, j)
      invariant wait > 0 ==> exists j :: 0 <= j < i && !Pays(bs, caps, costs, now, j)
    {
      if caps[i] > 0.0 {
        if costs[i] > caps[i] {
          return TooLarge, levels;
        }
        var tokens := Level(bs[i], caps[i], now);
        levels := levels[i := tokens];
        ShortMeansWait(bs[i], caps[i], costs[i], now);
        if tokens < costs[i] {
          assert !Pays(bs, caps, costs, now, i);
          var w := MillisFor(costs[i] - tokens, caps[i]);
          if w > wait {
            wait := w;
          }
        }
      }
      i := i + 1;
    }
    d := if wait > 0 then Denied(wait) else Allowed;
  }

  class Limiter {
    var buckets: seq<Bucket>

    /** takeScript. A denied or too-large request changes no bucket. */
    method Take(caps: seq<real>, costs: seq<real>, now: int) returns (d: Decision)
      requires |caps| == |costs| == |buckets|
      modifies this
      ensures d.TooLarge? <==> Oversized(caps, costs)
      ensures d.Allowed? <==> Accepts(old(buckets), caps, costs, now)
      ensures d.Denied? ==> d.wait > 0 && LongestWait(old(buckets), caps, costs, now, d.wait)
      ensures buckets == if d.Allowed? then ChargeAll(old(buckets), caps, costs, now) else old(buckets)
    {
      var levels;
      d, levels := Assess(buckets, caps, costs, now);
      if !d.Allowed? {
        return;
      }
      ghost var was := buckets;
      var i := 0;
      while i < |caps|
        invariant 0 <= i <= |caps| && |buckets| == |caps|
        invariant forall j :: 0 <= j < i ==> buckets[j] == Charged(was[j], caps[j], costs[j], now)
        invariant forall j :: i <= j < |caps| ==> buckets[j] == was[j]
      {
        if caps[i] > 0.0 {
          buckets := buckets[i := Stored(levels[i] - costs[i], now)];
        }
        i := i + 1;
      }
    }

    /** adjustScript on bucket `k`: a refund or an extra charge. */
    method Adjust(k: nat, cap: real, delta: real, now: int)
      requires k < |buckets|
      modifies this
      ensures buckets == old(buckets)[k := Adjusted(old(buckets)[k], cap, delta, now)]
    {
      if cap <= 0.0 {
        return;
      }
      var tokens := Tokens(buckets[k], cap, now);
      buckets := buckets[k := Stored(Min(cap, tokens + delta), now)];
    }
  }

  function Adjusted(b: Bucket, cap: real, delta: real, now: int): Bucket {
    if cap <= 0.0 then b else Stored(Min(cap, Tokens(b, cap, now) + delta), now)
  }

  /** Costs up to the capacities are accepted by fresh buckets, and a cost beyond one never is. */
  lemma FreshAcceptsIff(caps: seq<real>, costs: seq<real>, now: int)
    requires |caps| == |costs|
    ensures Accepts(seq(|caps|, _ => Absent), caps, costs, now)
            <==> forall i :: 0 <= i < |caps| && caps[i] > 0.0 ==> costs[i] <= caps[i]
  {
    var bs := seq(|caps|, _ => Absent);
    forall i | 0 <= i < |caps| && caps[i] > 0.0 ensures Pays(bs, caps, costs, now, i) <==> costs[i] <= caps[i] {}
  }

  // ----- refill arithmetic

  lemma RefillAdds(cap: real, a: int, b: int)
    ensures Refill(cap, a + b) == Refill(cap, a) + Refill(cap, b)
  {
    assert (a + b) as real / 60000.0 == a as real / 60000.0 + b as real / 60000.0;
  }

  lemma RefillGrows(cap: real, a: int, b: int)
    requires cap > 0.0 && a <= b
    ensures Refill(cap, a) <= Refill(cap, b)
  {
    var x, y := a as real / 60000.0, b as real / 60000.0;
    assert x <= y;
    assert cap * x <= cap * y;
  }

  lemma RefillTwice(cap: real)
    ensures Refill(cap, EXPIRY) == 2.0 * cap && Refill(cap, 0) == 0.0
  {
    assert EXPIRY as real / 60000.0 == 2.0;
  }

  /** Refilling what is missing takes exactly `MillisFor` whole milliseconds. */
  lemma RefillReaches(cap: real, missing: real, u: int)
    requires cap > 0.0
    ensures Refill(cap, u) >= missing <==> MillisFor(missing, cap) <= u
  {
    var v := missing * 60000.0 / cap;
    CeilLeast(v, u);
    var t := u as real;
    assert cap * v == missing * 60000.0;
    if v <= t {
      assert cap * v <= cap * t;
    } else {
      assert cap * v > cap * t;
    }
    assert Refill(cap, u) * 60000.0 == cap * t by {
      assert (t / 60000.0) * 60000.0 == t;
      assert cap * (t / 60000.0) * 60000.0 == cap * ((t / 60000.0) * 60000.0);
    }
  }

  // ----- the wait is exact

  /** The stored level is at most one capacity in debt, and was not written in the future. */
  predicate Decent(b: Bucket, cap: real, now: int) {
    b.Stored? ==> b.tokens >= -cap && b.ts <= now
  }

  /** Forgetting a bucket after two minutes cannot be noticed when its debt is at most one capacity:
      by then it would be full anyway. */
  lemma ExpiryUnnoticed(b: Bucket, cap: real, now: int)
    requires cap > 0.0 && Decent(b, cap, now) && b.Stored?
    ensures Level(b, cap, now) == Min(cap, b.tokens + Refill(cap, now - b.ts))
  {
    if !Alive(b, now) {
      RefillTwice(cap);
      RefillGrows(cap, EXPIRY, now - b.ts);
    }
  }

  /** And it can be noticed otherwise: exactly the buckets deeper in debt are forgiven at expiry. */
  lemma ExpiryForgivesIff(b: Bucket, cap: real)
    requires cap > 0.0 && b.Stored?
    ensures (forall now :: now >= b.ts ==> Level(b, cap, now) == Min(cap, b.tokens + Refill(cap, now - b.ts)))
            <==> b.tokens + Refill(cap, EXPIRY + 1) >= cap
  {
    var first := b.ts + EXPIRY + 1;
    assert !Alive(b, first) && Level(b, cap, first) == cap;
    if b.tokens + Refill(cap, EXPIRY + 1) >= cap {
      forall now | now >= b.ts ensures Level(b, cap, now) == Min(cap, b.tokens + Refill(cap, now - b.ts)) {
        if !Alive(b, now) {
          RefillGrows(cap, EXPIRY + 1, now - b.ts);
        }
      }
    }
  }

  /** For one bucket, the wait is the first millisecond at which it can pay. */
  lemma WaitExact(b: Bucket, cap: real, cost: real, now: int, u: nat)
    requires cap > 0.0 && cost <= cap && Decent(b, cap, now)
    ensures Level(b, cap, now + u) >= cost <==> WaitFor(b, cap, cost, now) <= u
  {
    if b.Stored? {
      ExpiryUnnoticed(b, cap, now);
      ExpiryUnnoticed(b, cap, now + u);
      RefillAdds(cap, now - b.ts, u);
      RefillTwice(cap);
      RefillGrows(cap, 0, u);
      RefillReaches(cap, cost - Level(b, cap, now), u);
    }
  }

  /** A denied request, repeated with nothing in between, is denied at every earlier millisecond and
      accepted once the announced wait is over, across all buckets together. */
  lemma DeniedWaitExact(bs: seq<Bucket>, caps: seq<real>, costs: seq<real>, now: int, w: int, u: nat)
    requires |bs| == |caps| == |costs| && !Oversized(caps, costs)
    requires forall i :: 0 <= i < |bs| && caps[i] > 0.0 ==> Decent(bs[i], caps[i], now)
    ensures w > 0 && LongestWait(bs, caps, costs, now, w) ==> (Accepts(bs, caps, costs, now + u) <==> u >= w)
  {
    forall i | 0 <= i < |bs| && caps[i] > 0.0
      ensures Level(bs[i], caps[i], now + u) >= costs[i] <==> WaitFor(bs[i], caps[i], costs[i], now) <= u
    {
      assert costs[i] <= caps[i];
      WaitExact(bs[i], caps[i], costs[i], now, u);
    }
    if w > 0 && LongestWait(bs, caps, costs, now, w) {
      var k :| 0 <= k < |bs| && caps[k] > 0.0 && WaitFor(bs[k], caps[k], costs[k], now) == w;
      assert u < w ==> !Pays(bs, caps, costs, now + u, k);
    }
  }

  // ----- the window bound

  datatype Event = TakeAt(now: int, costs: seq<real>) | AdjustAt(now: int, k: nat, delta: real)

  predicate Fits(caps: seq<real>, e: Event) {
    match e
    case TakeAt(_, costs) => |costs| == |caps|
    case AdjustAt(_, k, _) => k < |caps|
  }

  predicate Admits(bs: seq<Bucket>, caps: seq<real>, e: Event)
    requires |bs| == |caps| && Fits(caps, e)
  {
    e.TakeAt? && Accepts(bs, caps, e.costs, e.now)
  }

  function Apply(bs: seq<Bucket>, caps: seq<real>, e: Event): (r: seq<Bucket>)
    requires |bs| == |caps| && Fits(caps, e)
    ensures |r| == |bs|
  {
    match e
    case TakeAt(now, costs) => if Accepts(bs, caps, costs, now) then ChargeAll(bs, caps, costs, now) else bs
    case AdjustAt(now, k, delta) => bs[k := Adjusted(bs[k], caps[k], delta, now)]
  }

  /** What event `e` takes from bucket `i`: the admitted cost, or minus the adjustment. */
  function Net(bs: seq<Bucket>, caps: seq<real>, e: Event, i: nat): real
    requires |bs| == |caps| && Fits(caps, e) && i < |bs|
  {
    match e
    case TakeAt(_, costs) => if Admits(bs, caps, e) then costs[i] else 0.0
    case AdjustAt(_, k, delta) => if k == i then -delta else 0.0
  }

  /** A run on a clock that does not go back, with bucket `i` never more than one capacity in debt. */
  ghost predicate Run(bs: seq<Bucket>, caps: seq<real>, es: seq<Event>, i: nat, from: int)
    requires |bs| == |caps| && i < |bs|
    decreases |es|
  {
    && Decent(bs[i], caps[i], from)
    && (es == [] || (Fits(caps, es[0]) && from <= es[0].now
                     && Run(Apply(bs, caps, es[0]), caps, es[1..], i, es[0].now)))
  }

  ghost function After(bs: seq<Bucket>, caps: seq<real>, es: seq<Event>): (r: seq<Bucket>)
    requires |bs| == |caps| && forall j :: 0 <= j < |es| ==> Fits(caps, es[j])
    ensures |r| == |bs|
    decreases |es|
  {
    if es == [] then bs else After(Apply(bs, caps, es[0]), caps, es[1..])
  }

  ghost function Total(bs: seq<Bucket>, caps: seq<real>, es: seq<Event>, i: nat): real
    requires |bs| == |caps| && i < |bs| && forall j :: 0 <= j < |es| ==> Fits(caps, es[j])
    decreases |es|
  {
    if es == [] then 0.0 else Net(bs, caps, es[0], i) + Total(Apply(bs, caps, es[0]), caps, es[1..], i)
  }

  lemma {:induction false} RunFits(bs: seq<Bucket>, caps: seq<real>, es: seq<Event>, i: nat, from: int)
    requires |bs| == |caps| && i < |bs| && Run(bs, caps, es, i, from)
    ensures forall j :: 0 <= j < |es| ==> Fits(caps, es[j])
    ensures forall j :: 0 <= j < |es| ==> from <= es[j].now
    decreases |es|
  {
    if es != [] {
      RunFits(Apply(bs, caps, es[0]), caps, es[1..], i, es[0].now);
      assert forall j :: 1 <= j < |es| ==> es[j] == es[1..][j - 1];
    }
  }

  /** What a bucket could hold at `end` if nothing more happened and nothing were cut off. */
  ghost function Credit(b: Bucket, cap: real, end: int): real {
    if b.Stored? then b.tokens + Refill(cap, end - b.ts) else cap
  }

  lemma TokensWithinCredit(b: Bucket, cap: real, now: int)
    requires cap > 0.0 && Decent(b, cap, now)
    ensures Tokens(b, cap, now) <= Credit(b, cap, now)
  {
    if b.Stored? && !Alive(b, now) {
      RefillTwice(cap);
      RefillGrows(cap, EXPIRY, now - b.ts);
    }
  }

  /** Every event lowers the credit at any later time by at least what it takes. */
  lemma CreditDrops(bs: seq<Bucket>, caps: seq<real>, e: Event, i: nat, end: int)
    requires |bs| == |caps| && i < |bs| && caps[i] > 0.0 && Fits(caps, e)
    requires Decent(bs[i], caps[i], e.now) && e.now <= end
    requires bs[i].Stored?
    ensures var b := Apply(bs, caps, e)[i];
            b.Stored? && Credit(b, caps[i], end) <= Credit(bs[i], caps[i], end) - Net(bs, caps, e, i)
  {
    TokensWithinCredit(bs[i], caps[i], e.now);
    RefillAdds(caps[i], e.now - bs[i].ts, end - e.now);
  }

  lemma {:induction false} CreditDropsOverRun(bs: seq<Bucket>, caps: seq<real>, es: seq<Event>, i: nat,
                                              from: int, end: int)
    requires |bs| == |caps| && i < |bs| && caps[i] > 0.0 && Run(bs, caps, es, i, from) && bs[i].Stored?
    requires forall j :: 0 <= j < |es| ==> Fits(caps, es[j]) && es[j].now <= end
    ensures After(bs, caps, es)[i].Stored?
    ensures Credit(After(bs, caps, es)[i], caps[i], end) <= Credit(bs[i], caps[i], end) - Total(bs, caps, es, i)
    decreases |es|
  {
    if es != [] {
      CreditDrops(bs, caps, es[0], i, end);
      CreditDropsOverRun(Apply(bs, caps, es[0]), caps, es[1..], i, es[0].now, end);
    }
  }

  /** Between two admitted requests, what a bucket admitted (both included) less what adjustments gave
      back is at most its capacity plus what it refills in between, key expiry included. */
  lemma {:induction false} WindowBound(bs: seq<Bucket>, caps: seq<real>, first: Event, mid: seq<Event>,
                                       last: Event, i: nat)
    requires |bs| == |caps| && i < |bs| && caps[i] > 0.0 && Fits(caps, first) && Fits(caps, last)
    requires Admits(bs, caps, first) && Run(Apply(bs, caps, first), caps, mid, i, first.now)
    requires forall j :: 0 <= j < |mid| ==> Fits(caps, mid[j]) && mid[j].now <= last.now
    requires first.now <= last.now && Admits(After(Apply(bs, caps, first), caps, mid), caps, last)
    requires Decent(After(Apply(bs, caps, first), caps, mid)[i], caps[i], last.now)
    ensures first.costs[i] + Total(Apply(bs, caps, first), caps, mid, i) + last.costs[i]
         <= caps[i] + Refill(caps[i], last.now - first.now)
  {
    var start := Apply(bs, caps, first);
    FirstCredit(bs, caps, first, i, last.now);
    CreditDropsOverRun(start, caps, mid, i, first.now, last.now);
    LastPaid(After(start, caps, mid), caps, last, i);
  }

  lemma FirstCredit(bs: seq<Bucket>, caps: seq<real>, e: Event, i: nat, end: int)
    requires |bs| == |caps| && i < |bs| && caps[i] > 0.0 && Fits(caps, e) && Admits(bs, caps, e)
    ensures var b := Apply(bs, caps, e)[i];
            b.Stored? && Credit(b, caps[i], end) <= caps[i] - e.costs[i] + Refill(caps[i], end - e.now)
  {
  }

  lemma LastPaid(bs: seq<Bucket>, caps: seq<real>, e: Event, i: nat)
    requires |bs| == |caps| && i < |bs| && caps[i] > 0.0 && Fits(caps, e) && Admits(bs, caps, e)
    requires Decent(bs[i], caps[i], e.now)
    ensures e.costs[i] <= Credit(bs[i], caps[i], e.now)
  {
    assert Pays(bs, caps, e.costs, e.now, i);
    TokensWithinCredit(bs[i], caps[i], e.now);
  }

  // ----- what is left: the other half of the window bound

  /** Right after an admitted request the bucket is lower by exactly its cost. */
  lemma ChargedLevel(b: Bucket, cap: real, cost: real, now: int)
    requires cap > 0.0
    ensures Level(Charged(b, cap, cost, now), cap, now) == Min(cap, Level(b, cap, now) - cost)
  {
    RefillTwice(cap);
  }

  /** A refund is given in full, up to the capacity. */
  lemma RefundExact(b: Bucket, cap: real, delta: real, now: int)
    requires cap > 0.0 && delta >= 0.0 && (b.Stored? ==> b.ts <= now)
    ensures Level(Adjusted(b, cap, delta, now), cap, now) == Min(cap, Level(b, cap, now) + delta)
  {
    RefillTwice(cap);
    if b.Stored? {
      RefillGrows(cap, 0, now - b.ts);
    }
  }

  /** An event leaves a bucket no lower than what it takes, unless the bucket is full. */
  lemma EventLeaves(bs: seq<Bucket>, caps: seq<real>, e: Event, i: nat)
    requires |bs| == |caps| && i < |bs| && caps[i] > 0.0 && Fits(caps, e)
    ensures Level(Apply(bs, caps, e)[i], caps[i], e.now)
         >= Min(caps[i], Level(bs[i], caps[i], e.now) - Net(bs, caps, e, i))
  {
    RefillTwice(caps[i]);
    if e.TakeAt? && Admits(bs, caps, e) {
      ChargedLevel(bs[i], caps[i], e.costs[i], e.now);
    }
  }

  /** Waiting refills a bucket, and expiry fills it. */
  lemma WaitingLeaves(b: Bucket, cap: real, from: int, to: int)
    requires cap > 0.0 && from <= to && (b.Stored? ==> b.ts <= from)
    ensures Level(b, cap, to) >= Min(cap, Level(b, cap, from) + Refill(cap, to - from))
  {
    RefillTwice(cap);
    RefillGrows(cap, 0, to - from);
    if b.Stored? {
      RefillAdds(cap, from - b.ts, to - from);
    }
  }

  /** From each event on, what is taken, and `cost` at the end, fits in a capacity and the refill since. */
  ghost predicate WindowsFit(bs: seq<Bucket>, caps: seq<real>, es: seq<Event>, i: nat, cost: real, end: int)
    requires |bs| == |caps| && i < |bs| && forall j :: 0 <= j < |es| ==> Fits(caps, es[j])
    decreases |es|
  {
    es == [] ||
    (&& Total(bs, caps, es, i) + cost <= caps[i] + Refill(caps[i], end - es[0].now)
     && WindowsFit(Apply(bs, caps, es[0]), caps, es[1..], i, cost, end))
  }

  /** The step: enough room before an event is enough room after it. */
  lemma RoomStays(bs: seq<Bucket>, caps: seq<real>, es: seq<Event>, i: nat, from: int, cost: real, end: int)
    requires |bs| == |caps| && i < |bs| && caps[i] > 0.0 && es != [] && Run(bs, caps, es, i, from)
    requires forall j :: 0 <= j < |es| ==> Fits(caps, es[j]) && from <= es[j].now <= end
    requires WindowsFit(bs, caps, es, i, cost, end) && cost <= caps[i]
    requires Total(bs, caps, es, i) + cost <= Level(bs[i], caps[i], from) + Refill(caps[i], end - from)
    ensures var bs', t := Apply(bs, caps, es[0]), es[0].now;
            Total(bs', caps, es[1..], i) + cost <= Level(bs'[i], caps[i], t) + Refill(caps[i], end - t)
  {
    var bs', t, cap := Apply(bs, caps, es[0]), es[0].now, caps[i];
    RunFits(bs', caps, es[1..], i, t);
    assert forall j :: 1 <= j < |es| ==> es[j] == es[1..][j - 1];
    WaitingLeaves(bs[i], cap, from, t);
    EventLeaves(bs, caps, es[0], i);
    RefillAdds(cap, t - from, end - t);
    RestFits(bs, caps, es, i, cost, end);
    RoomArithmetic(cap, Level(bs[i], cap, from), Level(bs[i], cap, t), Level(bs'[i], cap, t), Refill(cap, t - from),
                   Refill(cap, end - t), Net(bs, caps, es[0], i), Total(bs', caps, es[1..], i) + cost);
  }

  /** `l0` refills by `r1` to `l1`, gives `net` away, and is then at `l2`, with `r2` still to come. */
  lemma RoomArithmetic(cap: real, l0: real, l1: real, l2: real, r1: real, r2: real, net: real, need: real)
    requires l1 >= Min(cap, l0 + r1) && l2 >= Min(cap, l1 - net)
    requires need + net <= l0 + (r1 + r2) && need + net <= cap + r2 && need <= cap + r2
    ensures need <= l2 + r2
  {
  }

  /** After the first event the rest fits in a full bucket, too. */
  lemma RestFits(bs: seq<Bucket>, caps: seq<real>, es: seq<Event>, i: nat, cost: real, end: int)
    requires |bs| == |caps| && i < |bs| && caps[i] > 0.0 && es != []
    requires forall j :: 0 <= j < |es| ==> Fits(caps, es[j]) && es[0].now <= es[j].now <= end
    requires WindowsFit(bs, caps, es, i, cost, end) && cost <= caps[i]
    ensures Total(Apply(bs, caps, es[0]), caps, es[1..], i) + cost <= caps[i] + Refill(caps[i], end - es[0].now)
  {
    RefillTwice(caps[i]);
    RefillGrows(caps[i], 0, end - es[0].now);
    if |es| > 1 {
      assert es[1..][0] == es[1];
      RefillGrows(caps[i], end - es[1].now, end - es[0].now);
    }
  }

  /** The converse of the window bound: when from each event of a run on, and from its start, what a bucket gave
      away and the next cost fit in what it could hold, the bucket can pay that cost at the end of the run. */
  lemma {:induction false} RoomForNext(bs: seq<Bucket>, caps: seq<real>, es: seq<Event>, i: nat, from: int,
                                       cost: real, end: int)
    requires |bs| == |caps| && i < |bs| && caps[i] > 0.0 && Run(bs, caps, es, i, from) && from <= end
    requires forall j :: 0 <= j < |es| ==> Fits(caps, es[j]) && from <= es[j].now <= end
    requires WindowsFit(bs, caps, es, i, cost, end) && cost <= caps[i]
    requires Total(bs, caps, es, i) + cost <= Level(bs[i], caps[i], from) + Refill(caps[i], end - from)
    ensures Level(After(bs, caps, es)[i], caps[i], end) >= cost
    decreases |es|
  {
    if es == [] {
      WaitingLeaves(bs[i], caps[i], from, end);
    } else {
      var bs', t := Apply(bs, caps, es[0]), es[0].now;
      RoomStays(bs, caps, es, i, from, cost, end);
      RunFits(bs', caps, es[1..], i, t);
      assert forall j :: 0 <= j < |es[1..]| ==> es[1..][j] == es[j + 1];
      RoomForNext(bs', caps, es[1..], i, t, cost, end);
    }
  }

  /** An extra charge is paid in full exactly when the bucket has not refilled past its capacity since
      it was last written; otherwise the part refilled beyond the capacity pays for it. */
  lemma DebitPaidIff(b: Bucket, cap: real, delta: real, now: int)
    requires cap > 0.0 && delta < 0.0 && (b.Stored? ==> b.ts <= now)
    ensures Level(Adjusted(b, cap, delta, now), cap, now) == Level(b, cap, now) + delta
            <==> Tokens(b, cap, now) <= cap
  {
    RefillTwice(cap);
  }

  /** For example, an idle minute makes a debit of a whole capacity disappear. */
  lemma DebitCanVanish()
    ensures var b := Stored(100.0, 0);
            Level(b, 100.0, 60000) == 100.0 && Level(Adjusted(b, 100.0, -100.0, 60000), 100.0, 60000) == 100.0
  {
    assert Refill(100.0, 60000) == 100.0 by {
      assert 60000 as real / 60000.0 == 1.0;
    }
    RefillTwice(100.0);
  }

  /** And a debt of two and a half capacities is forgiven at expiry, while half a capacity of it is still unpaid. */
  lemma ExpiryCanForgive()
    ensures var b := Stored(-250.0, 0);
            Level(b, 100.0, EXPIRY) == -50.0 && Level(b, 100.0, EXPIRY + 1) == 100.0
  {
    RefillTwice(100.0);
  }
}
