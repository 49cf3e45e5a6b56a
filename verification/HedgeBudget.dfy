/**
 The hedge budget (`HedgeBudget` in internal/router/hedge.go): two decaying counters that keep
 speculative requests to a fraction of the traffic. The counters are exact reals.
 */
module HedgeBudget {

  const WINDOW: real := 1000.0

  datatype Counters = Counters(requests: real, hedges: real)

  /** What a ratio of so many requests comes to. */
  function Part(ratio: real, n: real): real {
    ratio * n
  }

  function Decayed(c: Counters): Counters {
    if c.requests > WINDOW then Counters(WINDOW, c.hedges * (WINDOW / c.requests)) else c
  }

  function Registered(c: Counters): Counters {
    Decayed(Counters(c.requests + 1.0, c.hedges))
  }

  predicate Permits(maxExtra: real, c: Counters) {
    c.hedges + 1.0 <= Part(maxExtra, c.requests)
  }

  function Asked(maxExtra: real, c: Counters): Counters {
    if Permits(maxExtra, c) then Counters(c.requests, c.hedges + 1.0) else c
  }

  datatype Event = Request | Allow

  /** The counters after a run of calls, in whatever order the callers' locks are granted. */
  ghost function Run(maxExtra: real, c: Counters, es: seq<Event>): Counters
    decreases |es|
  {
    if es == [] then c
    else Run(maxExtra, if es[0].Request? then Registered(c) else Asked(maxExtra, c), es[1..])
  }

  /** How many requests the run registers (a whole number, as a real). */
  ghost function Requests(es: seq<Event>): real
    decreases |es|
  {
    if es == [] then 0.0 else (if es[0].Request? then 1.0 else 0.0) + Requests(es[1..])
  }

  /** How many `Allow` calls of the run answered true (a whole number, as a real). */
  ghost function Allowed(maxExtra: real, c: Counters, es: seq<Event>): real
    decreases |es|
  {
    if es == [] then 0.0
    else if es[0].Request? then Allowed(maxExtra, Registered(c), es[1..])
    else (if Permits(maxExtra, c) then 1.0 else 0.0) + Allowed(maxExtra, Asked(maxExtra, c), es[1..])
  }

  /** The budget still unspent at ratio `q`. */
  ghost function Slack(q: real, c: Counters): real {
    Part(q, c.requests) - c.hedges
  }

  ghost predicate Sound(q: real, c: Counters) {
    0.0 <= c.requests <= WINDOW && 0.0 <= c.hedges && 0.0 <= Slack(q, c)
  }

  lemma Scale(x: real, f: real)
    requires 0.0 <= x && 0.0 <= f <= 1.0
    ensures 0.0 <= x * f <= x
  {
  }

  lemma Distribute(q: real, a: real, b: real)
    ensures Part(q, a + b) == Part(q, a) + Part(q, b)
  {
  }

  lemma Grow(q: real, a: real, b: real)
    requires 0.0 <= q && a <= b
    ensures Part(q, a) <= Part(q, b)
  {
  }

  lemma GrowRatio(p: real, q: real, n: real)
    requires p <= q && 0.0 <= n
    ensures Part(p, n) <= Part(q, n)
  {
  }

  lemma OneMore(q: real, n: real)
    ensures Part(q, n + 1.0) == Part(q, n) + q
  {
  }

  /** Decay shrinks the slack with the counters, and keeps its sign. */
  lemma DecayedSlack(q: real, r: real, h: real)
    requires r > WINDOW && 0.0 <= h <= Part(q, r)
    ensures 0.0 <= h * (WINDOW / r)
    ensures 0.0 <= Part(q, WINDOW) - h * (WINDOW / r) <= Part(q, r) - h
  {
    var f := WINDOW / r;
    assert r * f == WINDOW;
    Scale(h, f);
    Scale(Part(q, r) - h, f);
    assert (Part(q, r) - h) * f == Part(q, r) * f - h * f;
    assert Part(q, r) * f == Part(q, r * f);
  }

  lemma RegisteredKeeps(q: real, c: Counters)
    requires 0.0 <= q && Sound(q, c)
    ensures Sound(q, Registered(c)) && Slack(q, Registered(c)) <= Slack(q, c) + q
    ensures Registered(c).requests <= c.requests + 1.0
  {
    var r := c.requests + 1.0;
    OneMore(q, c.requests);
    if r > WINDOW {
      DecayedSlack(q, r, c.hedges);
    }
  }

  lemma AskedKeeps(maxExtra: real, q: real, c: Counters)
    requires maxExtra <= q && Sound(q, c)
    ensures Sound(q, Asked(maxExtra, c))
    ensures Permits(maxExtra, c) ==> Slack(q, Asked(maxExtra, c)) == Slack(q, c) - 1.0
  {
    GrowRatio(maxExtra, q, c.requests);
  }

  /** What a run's requests earn: `q` for each of them. */
  ghost function Earned(q: real, es: seq<Event>): real
    decreases |es|
  {
    if es == [] then 0.0 else (if es[0].Request? then q else 0.0) + Earned(q, es[1..])
  }

  lemma {:induction false} EarnedPerRequest(q: real, es: seq<Event>)
    ensures Earned(q, es) == Part(q, Requests(es))
    decreases |es|
  {
    if es != [] {
      EarnedPerRequest(q, es[1..]);
      Distribute(q, if es[0].Request? then 1.0 else 0.0, Requests(es[1..]));
    }
  }

  /** From any sound counters, a run allows no more hedges than the slack (at most `left`) plus what
      its requests earn, however often the counters decay on the way. */
  lemma {:induction false} AllowedWithin(maxExtra: real, q: real, c: Counters, es: seq<Event>, left: real)
    requires 0.0 <= q && maxExtra <= q && Sound(q, c) && Slack(q, c) <= left
    ensures Allowed(maxExtra, c, es) <= left + Earned(q, es)
    decreases |es|
  {
    if es != [] {
      if es[0].Request? {
        RegisteredKeeps(q, c);
        AllowedWithin(maxExtra, q, Registered(c), es[1..], left + q);
      } else {
        AskedKeeps(maxExtra, q, c);
        AllowedWithin(maxExtra, q, Asked(maxExtra, c), es[1..], if Permits(maxExtra, c) then left - 1.0 else left);
      }
    }
  }

  lemma {:induction false} RunSound(maxExtra: real, q: real, c: Counters, es: seq<Event>)
    requires 0.0 <= q && maxExtra <= q && Sound(q, c)
    ensures Sound(q, Run(maxExtra, c, es)) && Slack(q, Run(maxExtra, c, es)) <= Slack(q, c) + Earned(q, es)
    decreases |es|
  {
    if es != [] {
      if es[0].Request? {
        RegisteredKeeps(q, c);
        RunSound(maxExtra, q, Registered(c), es[1..]);
      } else {
        AskedKeeps(maxExtra, q, c);
        RunSound(maxExtra, q, Asked(maxExtra, c), es[1..]);
      }
    }
  }

  const Fresh := Counters(0.0, 0.0)

  ghost function Ratio(maxExtra: real): real {
    if maxExtra < 0.0 then 0.0 else maxExtra
  }

  lemma FreshSound(q: real)
    ensures Sound(q, Fresh) && Slack(q, Fresh) == 0.0
  {
    assert q * 0.0 == 0.0;
  }

  lemma SlackWithinWindow(q: real, c: Counters)
    requires 0.0 <= q && Sound(q, c)
    ensures Slack(q, c) <= Part(q, WINDOW)
  {
    Grow(q, c.requests, WINDOW);
  }

  /** Whole run: hedges ever allowed are at most the ratio times requests ever registered, and a
      negative ratio allows none. */
  lemma {:induction false} HedgesBounded(maxExtra: real, es: seq<Event>)
    ensures Allowed(maxExtra, Fresh, es) <= Part(Ratio(maxExtra), Requests(es))
  {
    HedgesEarned(maxExtra, Ratio(maxExtra), es);
    EarnedPerRequest(Ratio(maxExtra), es);
  }

  lemma {:induction false} HedgesEarned(maxExtra: real, q: real, es: seq<Event>)
    requires 0.0 <= q && maxExtra <= q
    ensures Allowed(maxExtra, Fresh, es) <= Earned(q, es)
  {
    FreshSound(q);
    AllowedWithin(maxExtra, q, Fresh, es, 0.0);
  }

  /** Any stretch of a run: the past lends it at most what the earlier requests earned, and never
      more than a full window of 1000 requests would. */
  lemma {:induction false} HedgesBoundedInStretch(maxExtra: real, before: seq<Event>, es: seq<Event>)
    ensures var q := Ratio(maxExtra);
            var hedges := Allowed(maxExtra, Run(maxExtra, Fresh, before), es);
            hedges <= Earned(q, before) + Earned(q, es) && hedges <= Part(q, WINDOW) + Earned(q, es)
  {
    var q := Ratio(maxExtra);
    FreshSound(q);
    RunSound(maxExtra, q, Fresh, before);
    var c := Run(maxExtra, Fresh, before);
    SlackWithinWindow(q, c);
    AllowedWithin(maxExtra, q, c, es, Earned(q, before));
    AllowedWithin(maxExtra, q, c, es, Part(q, WINDOW));
  }

  // ----- a hedge is refused only when it has to be

  /** Another hedge is allowed exactly while the slack at the configured ratio has room for it. */
  lemma PermitsIff(maxExtra: real, c: Counters)
    ensures Permits(maxExtra, c) <==> Slack(maxExtra, c) >= 1.0
  {
  }

  /** Until the counters first decay they are the true counts, from wherever they start. */
  lemma {:induction false} CountersExact(maxExtra: real, c: Counters, es: seq<Event>)
    requires c.requests + Requests(es) <= WINDOW
    ensures Run(maxExtra, c, es).requests == c.requests + Requests(es)
    ensures Run(maxExtra, c, es).hedges == c.hedges + Allowed(maxExtra, c, es)
    decreases |es|
  {
    if es != [] {
      RequestsNotNegative(es[1..]);
      CountersExact(maxExtra, if es[0].Request? then Registered(c) else Asked(maxExtra, c), es[1..]);
    }
  }

  lemma {:induction false} RequestsNotNegative(es: seq<Event>)
    ensures Requests(es) >= 0.0
    decreases |es|
  {
    if es != [] {
      RequestsNotNegative(es[1..]);
    }
  }

  /** In every run of at most 1000 requests the next hedge is allowed if and only if it keeps the hedges within the
      ratio of the requests. */
  lemma {:induction false} AllowedIff(maxExtra: real, es: seq<Event>)
    requires Requests(es) <= WINDOW
    ensures Permits(maxExtra, Run(maxExtra, Fresh, es))
            <==> Allowed(maxExtra, Fresh, es) + 1.0 <= Part(maxExtra, Requests(es))
  {
    CountersExact(maxExtra, Fresh, es);
  }

  /** Past 1000 requests, registering one more scales both counters by the same factor, to 1000 requests. */
  lemma DecaysTogether(c: Counters)
    requires 0.0 <= c.requests && c.requests + 1.0 > WINDOW
    ensures Registered(c).requests == WINDOW
    ensures Registered(c).hedges * (c.requests + 1.0) == c.hedges * WINDOW
  {
    var r := c.requests + 1.0;
    assert WINDOW / r * r == WINDOW;
    assert c.hedges * (WINDOW / r) * r == c.hedges * (WINDOW / r * r);
  }

  class Budget {
    const maxExtra: real
    var requests: real
    var hedges: real

    ghost function Now(): Counters
      reads this
    {
      Counters(requests, hedges)
    }

    constructor (maxExtra: real)
      ensures this.maxExtra == maxExtra && Now() == Fresh
    {
      this.maxExtra := maxExtra;
      requests, hedges := 0.0, 0.0;
    }

    method Request()
      modifies this
      ensures Now() == Registered(old(Now()))
    {
      requests := requests + 1.0;
      if requests > WINDOW {
        var f := WINDOW / requests;
        requests, hedges := WINDOW, hedges * f;
      }
    }

    method Allow() returns (ok: bool)
      modifies this
      ensures Now() == Asked(maxExtra, old(Now()))
      ensures ok <==> Permits(maxExtra, old(Now()))
    {
      if hedges + 1.0 > maxExtra * requests {
        return false;
      }
      hedges := hedges + 1.0;
      return true;
    }
  }
}
