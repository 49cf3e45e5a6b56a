/**
 Sequential execution of a routing plan with retries and failover (internal/router/execute.go).

 The world outside the loop is an `Env`: the outcome of the n-th attempt, and for every tick of
 the loop the state of the request context, the clock and whether a backoff sleep was cut short.
 Every environment is covered, so the contract of `Execute` speaks of every run.
 */
module Execution {
  import opened Breaker

  /** What an attempt can fail with: an upstream error, one of the gateway's own, or a bare one. */
  datatype Error = Upstream(status: int, retryable: bool, retryAfter: int) | Gateway(retryAfter: int) | Bare

  datatype Attempt = Served | Refused(err: Error)

  datatype Context = Live | DeadlineExceeded | Canceled

  datatype Env = Env(attempt: nat -> Attempt, ctx: nat -> Context, sleepCut: nat -> bool, clock: nat -> int)

  /** A context that has ended stays ended, and a sleep is cut short only by that. */
  ghost predicate Causal(env: Env) {
    && (forall a, b :: 0 <= a <= b && !env.ctx(a).Live? ==> env.ctx(b) == env.ctx(a))
    && (forall a: nat :: env.sleepCut(a) ==> !env.ctx(a).Live?)
  }

  datatype Decision = Done | RetrySame | NextTarget

  function Classify(err: Error): (r: (Decision, bool)) {
    match err
    case Bare => (RetrySame, true)
    case Gateway(_) => (Done, false)
    case Upstream(status, retryable, _) =>
      if status == 429 then (NextTarget, false)
      else if status == 401 || status == 403 then (NextTarget, true)
      else if retryable then (RetrySame, true)
      else (Done, false)
  }

  datatype Verdict = Ok | Fail(err: Error) | Timeout | ContextCanceled | NoTarget

  /** One call of the attempt function: which plan entry, and which try on it. */
  datatype Call = Call(target: nat, attempt: nat)

  ghost predicate Earlier(a: Call, b: Call) {
    a.target < b.target || (a.target == b.target && a.attempt < b.attempt)
  }

  /** Consecutive calls: the first failed without a final verdict; the second is the next try of the
      same target, or the first try of a later one, and then the target was given up or used up. */
  ghost predicate Follows(env: Env, calls: seq<Call>, i: nat, tries: int)
    requires i + 1 < |calls|
  {
    var a, b := calls[i], calls[i + 1];
    && env.attempt(i).Refused?
    && var d := Classify(env.attempt(i).err).0;
       && d != Done
       && (if b.target == a.target then b.attempt == a.attempt + 1 && d == RetrySame
           else a.target < b.target && b.attempt == 0 && (d == NextTarget || a.attempt == tries - 1))
  }

  ghost predicate Trace(env: Env, plan: seq<Target>, calls: seq<Call>, tries: int) {
    && (forall i :: 0 <= i < |calls| ==> calls[i].target < |plan| && calls[i].attempt < tries)
    && (|calls| > 0 ==> calls[0].attempt == 0)
    && (forall i :: 0 <= i < |calls| - 1 ==> Follows(env, calls, i, tries))
  }

  /** Targets are visited in plan order and never more than `tries` times each: the calls are
      strictly increasing pairs of a plan index and a try below `tries`. */
  lemma {:induction false} TraceIncreases(env: Env, plan: seq<Target>, calls: seq<Call>, tries: int, i: nat, j: nat)
    requires Trace(env, plan, calls, tries) && i < j < |calls|
    ensures Earlier(calls[i], calls[j])
    decreases j
  {
    assert Follows(env, calls, j - 1, tries);
    if i < j - 1 {
      TraceIncreases(env, plan, calls, tries, i, j - 1);
    }
  }

  /** The Retry-After that attempt `i` came back with, 0 if none. */
  ghost function RetryAfter(env: Env, i: nat): int {
    match env.attempt(i)
    case Refused(Upstream(_, _, r)) => r
    case _ => 0
  }

  /** The smallest positive Retry-After among the first `n` attempts, 0 if there is none. */
  ghost function ShortestRetry(env: Env, n: nat): int {
    if n == 0 then 0
    else
      var s := ShortestRetry(env, n - 1);
      var r := RetryAfter(env, n - 1);
      if r > 0 && (s == 0 || r < s) then r else s
  }

  lemma {:induction false} ShortestIsMinimum(env: Env, n: nat)
    ensures ShortestRetry(env, n) >= 0
    ensures forall i :: 0 <= i < n && RetryAfter(env, i) > 0 ==> 0 < ShortestRetry(env, n) <= RetryAfter(env, i)
    ensures ShortestRetry(env, n) > 0 ==> exists i :: 0 <= i < n && RetryAfter(env, i) == ShortestRetry(env, n)
  {
    if n > 0 {
      ShortestIsMinimum(env, n - 1);
    }
  }

  /** The last attempt's error, carrying the shortest Retry-After where it has room for one. */
  ghost function Surfaced(err: Error, shortest: int): Error {
    if shortest > 0 && !err.Bare? then err.(retryAfter := shortest) else err
  }

  /** How a run ended, read off the trace. */
  ghost predicate Ended(env: Env, plan: seq<Target>, calls: seq<Call>, tries: int, v: Verdict) {
    match v
    case Ok => |calls| > 0 && env.attempt(|calls| - 1).Served?
    case NoTarget => plan == [] && calls == []
    case Timeout => plan != [] && (|calls| > 0 ==> env.attempt(|calls| - 1).Refused?)
    case ContextCanceled => plan != [] && (|calls| > 0 ==> env.attempt(|calls| - 1).Refused?)
    case Fail(err) =>
      && |calls| > 0 && env.attempt(|calls| - 1).Refused?
      && var last := env.attempt(|calls| - 1).err;
         var d := Classify(last).0;
         if d == Done then err == last
         else
           // exhausted: the last entry of the plan was given up or used up
           && calls[|calls| - 1].target == |plan| - 1
           && (d == NextTarget || calls[|calls| - 1].attempt == tries - 1)
           && err == Surfaced(last, ShortestRetry(env, |calls|))
  }

  // ----- what each kind of error leads to, by status

  /** Rate limited or unauthorised: another target may do better. */
  predicate FailsOver(err: Error) {
    err.Upstream? && (err.status == 429 || err.status == 401 || err.status == 403)
  }

  /** A bare error, or another upstream error marked retryable. */
  predicate Retried(err: Error) {
    err.Bare? || (err.Upstream? && !FailsOver(err) && err.retryable)
  }

  /** One of the gateway's own, or another upstream error not marked retryable. */
  predicate Final(err: Error) {
    err.Gateway? || (err.Upstream? && !FailsOver(err) && !err.retryable)
  }

  /** Over every trace: after a 429, 401 or 403 the next call is on a later entry; after a retryable error it is
      the next try on the same entry while tries are left, then on a later one; after any other there is none. */
  lemma NextCall(env: Env, plan: seq<Target>, calls: seq<Call>, tries: int, i: nat)
    requires Trace(env, plan, calls, tries) && i + 1 < |calls|
    ensures env.attempt(i).Refused?
    ensures var err, a, b := env.attempt(i).err, calls[i], calls[i + 1];
            && !Final(err)
            && (FailsOver(err) ==> a.target < b.target && b.attempt == 0)
            && (Retried(err) ==> if a.attempt < tries - 1 then b == Call(a.target, a.attempt + 1)
                                 else a.target < b.target && b.attempt == 0)
  {
    assert Follows(env, calls, i, tries);
  }

  /** How a trace ends with an error, by the kind of its last one: a final error is the verdict itself; any other
      only after the last entry of the plan, and after a retryable one only when its tries are used up. */
  lemma LastCall(env: Env, plan: seq<Target>, calls: seq<Call>, tries: int, v: Verdict)
    requires Trace(env, plan, calls, tries) && Ended(env, plan, calls, tries, v) && v.Fail?
    ensures |calls| > 0 && env.attempt(|calls| - 1).Refused?
    ensures var err, c := env.attempt(|calls| - 1).err, calls[|calls| - 1];
            && (Final(err) ==> v.err == err)
            && (!Final(err) ==> c.target == |plan| - 1)
            && (Retried(err) ==> c.attempt == tries - 1)
  {
  }

  /** On exhaustion, an error that can carry a Retry-After carries the least positive one of all attempts, and is
      otherwise the last error. */
  lemma ExhaustedRetryAfter(env: Env, plan: seq<Target>, calls: seq<Call>, tries: int, v: Verdict)
    requires Trace(env, plan, calls, tries) && Ended(env, plan, calls, tries, v) && v.Fail?
    requires !Final(env.attempt(|calls| - 1).err)
    ensures var last := env.attempt(|calls| - 1).err;
            && (last.Bare? ==> v.err == last)
            && (last.Upstream? ==> v.err.Upstream? && v.err.status == last.status && v.err.retryable == last.retryable)
            && ((exists i :: 0 <= i < |calls| && RetryAfter(env, i) > 0) && last.Upstream? ==>
                  && (exists i :: 0 <= i < |calls| && v.err.retryAfter == RetryAfter(env, i))
                  && v.err.retryAfter > 0
                  && forall i :: 0 <= i < |calls| && RetryAfter(env, i) > 0 ==> v.err.retryAfter <= RetryAfter(env, i))
  {
    ShortestIsMinimum(env, |calls|);
  }

  ghost predicate CtxEnded(env: Env, t: nat, v: Verdict) {
    (v == Timeout <==> env.ctx(t) == DeadlineExceeded) && (v == ContextCanceled <==> env.ctx(t) == Canceled)
  }

  /** A plan entry passed over without a call was refused by its breaker, and was not the last. */
  ghost predicate SkipsOnlyRefused(plan: seq<Target>, calls: seq<Call>, refused: set<nat>) {
    && (forall k :: k in refused ==> k < |plan| - 1)
    && (forall i, k :: 0 <= i < |calls| && 0 <= k < calls[i].target ==> Visited(calls, k) || k in refused)
  }

  ghost predicate Visited(calls: seq<Call>, k: nat) {
    exists i :: 0 <= i < |calls| && calls[i].target == k
  }

  /** What `calls` adds to `calls0` are calls of plan entry `ti`. */
  ghost predicate OnlyCalls(calls0: seq<Call>, calls: seq<Call>, ti: nat) {
    |calls0| <= |calls| && calls[..|calls0|] == calls0 && forall i :: |calls0| <= i < |calls| ==> calls[i].target == ti
  }

  function Max(a: int, b: int): int {
    if a > b then a else b
  }

  /** The variables of the loop: result so far, last error, and shortest Retry-After. */
  datatype Progress = Progress(target: Target, attempts: nat, lastErr: Error, shortest: int)

  /** The loop variables agree with the trace of calls made so far. */
  ghost predicate Tracks(env: Env, plan: seq<Target>, tries: int, s: Progress, calls: seq<Call>, refused: set<nat>) {
    && Records(env, plan, tries, s, calls, refused)
    && (calls == [] ==> s.lastErr == Gateway(0))
    && (calls != [] ==> env.attempt(|calls| - 1).Refused? && s.lastErr == env.attempt(|calls| - 1).err)
    && s.shortest == ShortestRetry(env, |calls|)
  }

  /** The part of it that also holds when the last call was served. */
  ghost predicate Records(env: Env, plan: seq<Target>, tries: int, s: Progress, calls: seq<Call>, refused: set<nat>) {
    && s.attempts == |calls|
    && Trace(env, plan, calls, tries)
    && (calls != [] ==> s.target == plan[calls[|calls| - 1].target])
    && SkipsOnlyRefused(plan, calls, refused)
  }

  ghost predicate Passed(calls: seq<Call>, refused: set<nat>, ti: nat) {
    forall k :: 0 <= k < ti ==> Visited(calls, k) || k in refused
  }

  ghost predicate Finished(env: Env, plan: seq<Target>, tries: int, s: Progress, calls: seq<Call>,
                           refused: set<nat>, v: Verdict) {
    && Records(env, plan, tries, s, calls, refused)
    && Ended(env, plan, calls, tries, v)
    && (v.Timeout? || v.ContextCanceled? ==> exists t: nat :: CtxEnded(env, t, v))
  }

  function CtxVerdict(c: Context): Verdict
    requires !c.Live?
  {
    if c == DeadlineExceeded then Timeout else ContextCanceled
  }

  lemma StopsOnContext(env: Env, plan: seq<Target>, tries: int, s: Progress, calls: seq<Call>,
                       refused: set<nat>, t: nat)
    requires Tracks(env, plan, tries, s, calls, refused) && plan != [] && !env.ctx(t).Live?
    ensures Finished(env, plan, tries, s, calls, refused, CtxVerdict(env.ctx(t)))
  {
    assert CtxEnded(env, t, CtxVerdict(env.ctx(t)));
  }

  /** What a failed try does to its target's breaker: an explicit opening for a Retry-After, then,
      unless the context ended first, a failure if the error counts as one. */
  ghost function Marked(s: State, threshold: int, cooldown: int, err: Error, now: int, later: int, live: bool): State {
    var o := if err.Upstream? then Opened(s, now, err.retryAfter) else s;
    if live && Classify(err).1 then Failed(o, threshold, cooldown, later) else o
  }

  /** Which failures count against a breaker: 401 and 403, and those that are retried; not a 429, no other final
      one, and none once the context has ended. */
  lemma CountsAgainst(s: State, threshold: int, cooldown: int, err: Error, now: int, later: int, live: bool)
    ensures var counts := live && (Retried(err) || (FailsOver(err) && err.status != 429));
            var m := Marked(s, threshold, cooldown, err, now, later, live);
            m.failures == if counts then s.failures + 1 else s.failures
  {
  }

  /** What the rest of one try decides once the attempt has failed. */
  datatype Next = Again | GiveUp | Stop(v: Verdict)

  /** Handling of a failed attempt: Retry-After, context check, classification and breaker. */
  method AfterFailure(plan: seq<Target>, tries: int, br: Breakers?, env: Env, s: Progress, err: Error,
                      tick: nat, ghost calls: seq<Call>, ghost refused: set<nat>)
    returns (s': Progress, next: Next)
    requires |calls| > 0 && Records(env, plan, tries, s, calls, refused)
    requires env.attempt(|calls| - 1) == Refused(err) && s.shortest == ShortestRetry(env, |calls| - 1)
    modifies if br == null then {} else {br}
    ensures Tracks(env, plan, tries, s', calls, refused)
    ensures next.Again? ==> Classify(err).0 == RetrySame
    ensures next.GiveUp? ==> Classify(err).0 == NextTarget
    ensures next.Stop? ==> Finished(env, plan, tries, s', calls, refused, next.v)
    ensures s'.target == s.target
    ensures br != null && s.target in old(br.m) ==>
              br.m == old(br.m)[s.target := Marked(old(br.Get(s.target)), br.threshold, br.openFor, err,
                                                   env.clock(tick), env.clock(tick + 1), env.ctx(tick + 1).Live?)]
  {
    var t := s.target;
    assert br != null && t in br.m ==> br.m == br.m[t := br.Get(t)];
    s' := s.(lastErr := err);
    if err.Upstream? && err.retryAfter > 0 {
      if br != null {
        br.OpenFor(t, env.clock(tick), err.retryAfter);
      }
      if s.shortest == 0 || err.retryAfter < s.shortest {
        s' := s'.(shortest := err.retryAfter);
      }
    }
    if !env.ctx(tick + 1).Live? {
      StopsOnContext(env, plan, tries, s', calls, refused, tick + 1);
      return s', Stop(CtxVerdict(env.ctx(tick + 1)));
    }
    var (d, breakerFail) := Classify(err);
    if breakerFail && br != null {
      br.Failure(t, env.clock(tick + 1));
    }
    next := if d == Done then Stop(Fail(err)) else if d == NextTarget then GiveUp else Again;
  }

  /** The loop has dealt with the first `ti` plan entries. */
  ghost predicate Reached(env: Env, plan: seq<Target>, tries: int, s: Progress, calls: seq<Call>,
                          refused: set<nat>, ti: nat) {
    && ti <= |plan| && Tracks(env, plan, tries, s, calls, refused) && Passed(calls, refused, ti)
    && (calls != [] ==> GivenUp(env, calls, tries) && calls[|calls| - 1].target < ti)
    && (ti == |plan| && plan != [] ==> calls != [] && calls[|calls| - 1].target == |plan| - 1)
  }

  /** Within plan entry `ti`, after `n` retryable failures. */
  ghost predicate Retrying(env: Env, plan: seq<Target>, tries: int, s: Progress, calls0: seq<Call>, calls: seq<Call>,
                           refused: set<nat>, ti: nat, n: nat) {
    && ti < |plan| && Tracks(env, plan, tries, s, calls, refused)
    && Passed(calls, refused, ti) && OnlyCalls(calls0, calls, ti)
    && if n == 0 then calls == calls0 && (calls != [] ==> GivenUp(env, calls, tries) && calls[|calls| - 1].target < ti)
       else calls != [] && calls[|calls| - 1] == Call(ti, n - 1) && Classify(s.lastErr).0 == RetrySame
  }

  /** Making call `n` on entry `ti`. */
  lemma CallMade(env: Env, plan: seq<Target>, tries: int, s: Progress, calls0: seq<Call>, calls: seq<Call>,
                 refused: set<nat>, ti: nat, n: nat)
    requires Retrying(env, plan, tries, s, calls0, calls, refused, ti, n) && n < tries
    ensures var s', calls' := s.(attempts := s.attempts + 1, target := plan[ti]), calls + [Call(ti, n)];
            && Records(env, plan, tries, s', calls', refused) && s'.shortest == ShortestRetry(env, |calls'| - 1)
            && Passed(calls', refused, ti + 1) && OnlyCalls(calls0, calls', ti)
  {
    Extend(env, plan, calls, tries, Call(ti, n));
    VisitMore(plan, calls, refused, Call(ti, n));
  }

  // ----- the log of a run: when breakers were asked and when calls were made

  /** At a tick, the breaker of a plan entry was asked, or a call was made on the entry. */
  datatype Log =
    | Blank
    | Asked(before: Log, entry: nat, tick: nat)
    | Called(before: Log, entry: nat, attempt: nat, tick: nat)

  /** The environment, the plan, the breakers' parameters and their states at the start. */
  datatype World = World(env: Env, plan: seq<Target>, threshold: int, cooldown: int, pre: map<Target, State>)

  /** What a log says: the breakers, the calls made, the entries refused, how many were asked, the last tick, and
      whether the breakers were heeded. */
  datatype Account =
    Account(m: map<Target, State>, calls: seq<Call>, refused: set<nat>, asks: nat, tick: nat, heeded: bool)

  /** What the `i`-th call, made at a tick, does to its target's breaker. */
  ghost function AfterCall(w: World, s: State, i: nat, tick: nat): State {
    match w.env.attempt(i)
    case Served => Closed
    case Refused(err) =>
      Marked(s, w.threshold, w.cooldown, err, w.env.clock(tick), w.env.clock(tick + 1), w.env.ctx(tick + 1).Live?)
  }

  /** The breaker of entry `k` refuses at this tick, and the entry is not the last resort. */
  ghost predicate Refuses(w: World, e: Account, k: nat, tick: nat) {
    k < |w.plan| - 1 && !Admits(StateIn(e.m, w.plan[k]), w.env.clock(tick))
  }

  /** Breakers are asked once per entry, in plan order, at later and later ticks. */
  ghost function AccountAsk(w: World, e: Account, k: nat, tick: nat): Account {
    if k >= |w.plan| then e.(heeded := false)
    else
      var u := w.plan[k];
      Account(e.m[u := Allowed(StateIn(e.m, u), w.env.clock(tick))], e.calls,
              if Refuses(w, e, k, tick) then e.refused + {k} else e.refused, e.asks + 1, tick,
              e.heeded && k == e.asks && e.tick < tick)
  }

  /** Calls are made only on the entry asked last, and only if it was not refused. */
  ghost function AccountCall(w: World, e: Account, k: nat, n: nat, tick: nat): Account {
    if k >= |w.plan| then e.(heeded := false)
    else
      var u := w.plan[k];
      Account(e.m[u := AfterCall(w, StateIn(e.m, u), |e.calls|, tick)], e.calls + [Call(k, n)], e.refused, e.asks, tick,
              e.heeded && k + 1 == e.asks && k !in e.refused && e.tick < tick)
  }

  ghost function Replay(w: World, log: Log): Account {
    match log
    case Blank => Account(w.pre, [], {}, 0, 0, true)
    case Asked(before, k, tick) => AccountAsk(w, Replay(w, before), k, tick)
    case Called(before, k, n, tick) => AccountCall(w, Replay(w, before), k, n, tick)
  }

  /** The log agrees with the loop's variables and with the breakers. */
  ghost predicate Agrees(e: Account, br: Breakers, calls: seq<Call>, refused: set<nat>, asks: nat)
    reads br
  {
    e.heeded && e.m == br.m && e.calls == calls && e.refused == refused && e.asks == asks
  }

  /** Breakers of targets outside the plan are untouched. */
  lemma {:induction false} ReplayElsewhere(w: World, log: Log, u: Target)
    requires u !in w.plan
    ensures StateIn(Replay(w, log).m, u) == StateIn(w.pre, u)
  {
    if !log.Blank? {
      ReplayElsewhere(w, log.before, u);
    }
  }

  // ----- probes that stay outstanding

  /** An error that leaves a probe outstanding: it carries no Retry-After, and it does not count against the
      breaker or the context ended first. */
  predicate LeavesProbe(err: Error, live: bool) {
    !(err.Upstream? && err.retryAfter > 0) && !(live && Classify(err).1)
  }

  /** A probe whose deadline has passed is left outstanding by a failure exactly for such errors. */
  lemma MarkedProbingIff(s: State, threshold: int, cooldown: int, err: Error, now: int, later: int, live: bool)
    requires s.probing && s.openUntil.At? && s.openUntil.t <= now
    ensures var m := Marked(s, threshold, cooldown, err, now, later, live);
            && (m.probing <==> LeavesProbe(err, live)) && (m.probing ==> m == s)
  {
  }

  lemma MarkedStaysResolved(s: State, threshold: int, cooldown: int, err: Error, now: int, later: int, live: bool)
    requires !s.probing
    ensures !Marked(s, threshold, cooldown, err, now, later, live).probing
  {
  }

  /** A 429 or a 400 without Retry-After, an error of the gateway's own, and any error without Retry-After once
      the context has ended strand the probe: the breaker then admits nothing at any time. */
  lemma StrandingErrors(s: State, threshold: int, cooldown: int, err: Error, now: int, later: int, live: bool, t: int)
    requires s.probing && s.openUntil.At? && s.openUntil.t <= now
    requires || err == Upstream(429, true, 0) || err == Upstream(400, false, 0) || err.Gateway?
             || (!live && (err.Bare? || (err.Upstream? && err.retryAfter <= 0)))
    ensures var m := Marked(s, threshold, cooldown, err, now, later, live);
            m.probing && !Admits(m, t)
  {
  }

  /** What `log` adds to `log0` are calls on entry `k`. */
  ghost predicate OnlyCalled(log0: Log, log: Log, k: nat) {
    log == log0 || (log.Called? && log.entry == k && OnlyCalled(log0, log.before, k))
  }

  /** The `n`-th call, made at a tick, left a probe outstanding. */
  ghost predicate LeftByCall(env: Env, n: nat, tick: nat) {
    var a := env.attempt(n);
    a.Refused? && LeavesProbe(a.err, env.ctx(tick + 1).Live?)
  }

  /** So did all calls that `log` adds to `log0`. */
  ghost predicate LeftByAll(w: World, log0: Log, log: Log) {
    log == log0
    || (log.Called? && LeftByAll(w, log0, log.before) && LeftByCall(w.env, |Replay(w, log.before).calls|, log.tick))
  }

  /** One more call, seen by a breaker with a probe outstanding or already resolved. */
  lemma ProbeStep(w: World, s: State, n: nat, tick: nat)
    requires s.probing ==> s.openUntil.At? && s.openUntil.t <= w.env.clock(tick)
    ensures var s' := AfterCall(w, s, n, tick);
            (s'.probing <==> s.probing && LeftByCall(w.env, n, tick)) && (s'.probing ==> s' == s)
  {
    match w.env.attempt(n)
    case Served =>
    case Refused(err) =>
      var now, later, live := w.env.clock(tick), w.env.clock(tick + 1), w.env.ctx(tick + 1).Live?;
      if s.probing {
        MarkedProbingIff(s, w.threshold, w.cooldown, err, now, later, live);
      } else {
        MarkedStaysResolved(s, w.threshold, w.cooldown, err, now, later, live);
      }
  }

  ghost predicate ClockOrdered(env: Env) {
    forall a, b :: 0 <= a <= b ==> env.clock(a) <= env.clock(b)
  }

  /** A probe is outstanding and its deadline has passed. */
  ghost predicate Overdue(env: Env, s: State, tick: nat) {
    s.probing && s.openUntil.At? && s.openUntil.t <= env.clock(tick)
  }

  ghost function StateOf(w: World, log: Log, k: nat): State
    requires k < |w.plan|
  {
    StateIn(Replay(w, log).m, w.plan[k])
  }

  /** A probe that is overdue after `log0` is still outstanding after the calls that `log` adds exactly when
      every one of them left it so; in particular when no call was made. */
  lemma {:induction false} ProbeLeftIff(w: World, log0: Log, log: Log, k: nat, s: State)
    requires OnlyCalled(log0, log, k) && k < |w.plan| && s == StateOf(w, log0, k) && Replay(w, log).heeded
    requires ClockOrdered(w.env) && Overdue(w.env, s, Replay(w, log0).tick)
    ensures StateOf(w, log, k).probing <==> LeftByAll(w, log0, log)
    ensures StateOf(w, log, k).probing ==> StateOf(w, log, k) == s
    ensures Replay(w, log0).tick <= Replay(w, log).tick
    decreases log
  {
    if log != log0 {
      ProbeLeftIff(w, log0, log.before, k, s);
      ProbeStep(w, StateOf(w, log.before, k), |Replay(w, log.before).calls|, log.tick);
    }
  }

  /** What becomes of a probe admitted when entry `k` was asked at a tick, after `log0`: it is still outstanding
      after `log` exactly when every call on the entry left it so. */
  ghost predicate ProbeTold(w: World, log0: Log, log: Log, k: nat, tick: nat)
    requires k < |w.plan|
  {
    ClockOrdered(w.env) && Probes(StateOf(w, log0, k), w.env.clock(tick)) ==>
      (StateOf(w, log, k).probing <==> LeftByAll(w, Asked(log0, k, tick), log))
  }

  lemma {:induction false} TellProbe(w: World, log0: Log, log: Log, k: nat, tick: nat)
    requires k < |w.plan| && Replay(w, log).heeded && OnlyCalled(Asked(log0, k, tick), log, k)
    ensures ProbeTold(w, log0, log, k, tick)
  {
    var s := StateOf(w, log0, k);
    if ClockOrdered(w.env) && Probes(s, w.env.clock(tick)) {
      ProbeLeftIff(w, Asked(log0, k, tick), log, k, s.(probing := true));
    }
  }

  /** A probe that is overdue after `log0` is still outstanding after `log` exactly when every call left it so. */
  ghost predicate ProbeKept(w: World, log0: Log, log: Log, k: nat)
    requires k < |w.plan|
  {
    ClockOrdered(w.env) && Overdue(w.env, StateOf(w, log0, k), Replay(w, log0).tick) ==>
      (StateOf(w, log, k).probing <==> LeftByAll(w, log0, log))
  }

  lemma {:induction false} KeepProbe(w: World, log0: Log, log: Log, k: nat)
    requires k < |w.plan| && Replay(w, log).heeded && OnlyCalled(log0, log, k)
    ensures ProbeKept(w, log0, log, k)
  {
    if ClockOrdered(w.env) && Overdue(w.env, StateOf(w, log0, k), Replay(w, log0).tick) {
      ProbeLeftIff(w, log0, log, k, StateOf(w, log0, k));
    }
  }

  /** `part` is how `log` stood at some time. */
  ghost predicate PartOf(part: Log, log: Log) {
    part == log || (!log.Blank? && PartOf(part, log.before))
  }

  lemma {:induction false} HeededPart(w: World, part: Log, log: Log)
    requires PartOf(part, log) && Replay(w, log).heeded
    ensures Replay(w, part).heeded
    decreases log
  {
    if part != log {
      HeededPart(w, part, log.before);
    }
  }

  /** Over the log of any run: a probe admitted when entry `k` was asked is still outstanding, once the calls of
      `part` have been made on the entry, exactly when each of them failed with an error that leaves it. */
  lemma {:induction false} ProbeInRunIff(w: World, log: Log, asked: Log, part: Log)
    requires Replay(w, log).heeded && PartOf(part, log) && asked.Asked? && asked.entry < |w.plan|
    requires OnlyCalled(asked, part, asked.entry) && ClockOrdered(w.env)
    requires Probes(StateOf(w, asked.before, asked.entry), w.env.clock(asked.tick))
    ensures StateOf(w, part, asked.entry).probing <==> LeftByAll(w, asked, part)
  {
    HeededPart(w, part, log);
    TellProbe(w, asked.before, part, asked.entry, asked.tick);
  }

  // ----- the loops

  /** One try on one plan entry. */
  method Try(plan: seq<Target>, ti: nat, n: nat, tries: int, br: Breakers?, env: Env, s0: Progress, tick: nat,
             ghost calls0: seq<Call>, ghost made: seq<Call>, ghost refused: set<nat>)
    returns (s: Progress, next: Next, ghost calls: seq<Call>)
    requires n < tries && Retrying(env, plan, tries, s0, calls0, made, refused, ti, n)
    requires br != null ==> plan[ti] in br.m
    modifies if br == null then {} else {br}
    ensures OnlyCalls(calls0, calls, ti)
    ensures next.Stop? ==> Finished(env, plan, tries, s, calls, refused, next.v)
    ensures next.GiveUp? ==> Reached(env, plan, tries, s, calls, refused, ti + 1)
    ensures next.Again? ==>
              Retrying(env, plan, tries, s, calls0, calls, refused, ti, n + 1) && Passed(calls, refused, ti + 1)
    ensures calls == made || calls == made + [Call(ti, n)]
    ensures br != null && calls == made ==> br.m == old(br.m)
    ensures br != null && calls != made ==>
              var w := World(env, plan, br.threshold, br.openFor, map[]);
              br.m == old(br.m)[plan[ti] := AfterCall(w, old(br.Get(plan[ti])), |made|, tick)]
    ensures next == Stop(Ok) && br != null ==> br.Get(s.target) == Closed
  {
    s, calls := s0, made;
    if !env.ctx(tick).Live? {
      StopsOnContext(env, plan, tries, s, calls, refused, tick);
      return s, Stop(CtxVerdict(env.ctx(tick))), calls;
    }
    CallMade(env, plan, tries, s, calls0, calls, refused, ti, n);
    s := s.(attempts := s.attempts + 1, target := plan[ti]);
    calls := calls + [Call(ti, n)];
    var outcome := env.attempt(s.attempts - 1);
    if outcome.Served? {
      if br != null {
        br.Success(plan[ti]);
      }
      return s, Stop(Ok), calls;
    }
    s, next := AfterFailure(plan, tries, br, env, s, outcome.err, tick, calls, refused);
  }

  /** One try, logged. */
  method TryLogged(plan: seq<Target>, ti: nat, n: nat, tries: int, br: Breakers?, env: Env, s0: Progress, tick: nat,
                   ghost calls0: seq<Call>, ghost made: seq<Call>, ghost refused: set<nat>,
                   ghost w: World, ghost log0: Log, ghost done: Log)
    returns (s: Progress, next: Next, ghost calls: seq<Call>, ghost log: Log)
    requires n < tries && Retrying(env, plan, tries, s0, calls0, made, refused, ti, n)
    requires br != null ==> w == World(env, plan, br.threshold, br.openFor, w.pre)
    requires br != null ==> Agrees(Replay(w, done), br, made, refused, ti + 1) && Replay(w, done).tick < tick
    requires br != null ==> plan[ti] in br.m && ti !in refused && OnlyCalled(log0, done, ti)
    modifies if br == null then {} else {br}
    ensures OnlyCalls(calls0, calls, ti)
    ensures next.Stop? ==> Finished(env, plan, tries, s, calls, refused, next.v)
    ensures next.GiveUp? ==> Reached(env, plan, tries, s, calls, refused, ti + 1)
    ensures next.Again? ==>
              Retrying(env, plan, tries, s, calls0, calls, refused, ti, n + 1) && Passed(calls, refused, ti + 1)
    ensures br != null ==> Agrees(Replay(w, log), br, calls, refused, ti + 1) && Replay(w, log).tick <= tick
    ensures br != null ==> plan[ti] in br.m && OnlyCalled(log0, log, ti)
    ensures next == Stop(Ok) && br != null ==> br.Get(s.target) == Closed
  {
    s, next, calls := Try(plan, ti, n, tries, br, env, s0, tick, calls0, made, refused);
    log := done;
    if br != null && calls != made {
      log := Called(done, ti, n, tick);
    }
  }

  /** The loop over the tries on one plan entry. */
  method Tries(plan: seq<Target>, ti: nat, tries: int, br: Breakers?, env: Env, s0: Progress, tick0: nat,
               ghost calls0: seq<Call>, ghost refused: set<nat>, ghost w: World, ghost log0: Log)
    returns (s: Progress, tick: nat, stop: bool, v: Verdict, ghost calls: seq<Call>, ghost log: Log)
    requires Causal(env) && ti < |plan| && tries >= 1 && Reached(env, plan, tries, s0, calls0, refused, ti)
    requires br != null ==> w == World(env, plan, br.threshold, br.openFor, w.pre)
    requires br != null ==> Agrees(Replay(w, log0), br, calls0, refused, ti + 1) && Replay(w, log0).tick <= tick0
    requires br != null ==> plan[ti] in br.m && ti !in refused
    modifies if br == null then {} else {br}
    ensures stop ==> Finished(env, plan, tries, s, calls, refused, v)
    ensures !stop ==> Reached(env, plan, tries, s, calls, refused, ti + 1)
    ensures OnlyCalls(calls0, calls, ti)
    ensures br != null ==> Agrees(Replay(w, log), br, calls, refused, ti + 1) && Replay(w, log).tick <= tick
    ensures br != null ==> OnlyCalled(log0, log, ti)
    ensures stop && v == Ok && br != null ==> br.Get(s.target) == Closed
  {
    s, tick, calls, v, log := s0, tick0, calls0, NoTarget, log0;
    var n := 0;
    while n < tries
      invariant 0 <= n <= tries && Retrying(env, plan, tries, s, calls0, calls, refused, ti, n)
      invariant n > 0 ==> Passed(calls, refused, ti + 1)
      invariant br != null ==> Agrees(Replay(w, log), br, calls, refused, ti + 1) && Replay(w, log).tick <= tick
      invariant br != null ==> plan[ti] in br.m && OnlyCalled(log0, log, ti)
    {
      var next;
      tick := tick + 1;
      s, next, calls, log := TryLogged(plan, ti, n, tries, br, env, s, tick, calls0, calls, refused, w, log0, log);
      tick := tick + 1;
      if next.Stop? {
        return s, tick, true, next.v, calls, log;
      }
      if next.GiveUp? {
        return s, tick, false, NoTarget, calls, log;
      }
      if n < tries - 1 {
        tick := tick + 1;
        if env.sleepCut(tick) {
          // the context check after a cut sleep reports the context's error
          tick := tick + 1;
          StopsOnContext(env, plan, tries, s, calls, refused, tick);
          return s, tick, true, CtxVerdict(env.ctx(tick)), calls, log;
        }
      }
      n := n + 1;
    }
    stop := false;
  }

  /** The tries on one plan entry, and what becomes of an outstanding probe in them. */
  method TryTarget(plan: seq<Target>, ti: nat, tries: int, br: Breakers?, env: Env, s0: Progress, tick0: nat,
                   ghost calls0: seq<Call>, ghost refused: set<nat>, ghost w: World, ghost log0: Log)
    returns (s: Progress, tick: nat, stop: bool, v: Verdict, ghost calls: seq<Call>, ghost log: Log)
    requires Causal(env) && ti < |plan| && tries >= 1 && Reached(env, plan, tries, s0, calls0, refused, ti)
    requires br != null ==> w == World(env, plan, br.threshold, br.openFor, w.pre)
    requires br != null ==> Agrees(Replay(w, log0), br, calls0, refused, ti + 1) && Replay(w, log0).tick <= tick0
    requires br != null ==> plan[ti] in br.m && ti !in refused
    modifies if br == null then {} else {br}
    ensures stop ==> Finished(env, plan, tries, s, calls, refused, v)
    ensures !stop ==> Reached(env, plan, tries, s, calls, refused, ti + 1)
    ensures OnlyCalls(calls0, calls, ti)
    ensures br != null ==> Agrees(Replay(w, log), br, calls, refused, ti + 1) && Replay(w, log).tick <= tick
    ensures br != null ==> OnlyCalled(log0, log, ti)
    ensures br != null ==> ProbeKept(w, log0, log, ti)
    ensures br != null && log0.Asked? && log0.entry == ti ==> ProbeTold(w, log0.before, log, ti, log0.tick)
    ensures stop && v == Ok && br != null ==> br.Get(s.target) == Closed
  {
    s, tick, stop, v, calls, log := Tries(plan, ti, tries, br, env, s0, tick0, calls0, refused, w, log0);
    if br != null {
      KeepProbe(w, log0, log, ti);
      if log0.Asked? && log0.entry == ti {
        TellProbe(w, log0.before, log, ti, log0.tick);
      }
    }
  }

  /** Ask the breaker of an entry, and log it. */
  method Ask(plan: seq<Target>, ti: nat, br: Breakers?, env: Env, tick: nat,
             ghost calls: seq<Call>, ghost refused0: set<nat>, ghost w: World, ghost log0: Log)
    returns (skip: bool, ghost refused: set<nat>, ghost log: Log)
    requires ti < |plan| && (br != null ==> w == World(env, plan, br.threshold, br.openFor, w.pre))
    requires br != null ==> Agrees(Replay(w, log0), br, calls, refused0, ti) && Replay(w, log0).tick < tick
    modifies if br == null then {} else {br}
    ensures br == null ==> !skip && log == log0
    ensures br != null ==> (skip <==> ti < |plan| - 1 && !Admits(old(br.Get(plan[ti])), env.clock(tick)))
    ensures br != null ==> log == Asked(log0, ti, tick) && plan[ti] in br.m
    ensures br != null ==> Agrees(Replay(w, log), br, calls, refused, ti + 1) && Replay(w, log).tick == tick
    ensures br != null ==> ProbeTold(w, log0, log, ti, tick)
    ensures refused == (if skip then refused0 + {ti} else refused0) && (skip ==> ti < |plan| - 1)
  {
    skip, refused, log := false, refused0, log0;
    if br != null {
      var isLast := ti == |plan| - 1;
      var admitted := br.Allow(plan[ti], env.clock(tick));
      skip := !admitted && !isLast;
      refused := if skip then refused0 + {ti} else refused0;
      log := Asked(log0, ti, tick);
      TellProbe(w, log0, log, ti, tick);
    }
  }

  /** One plan entry: skipped if its breaker refuses and it is not the last, tried otherwise. */
  method Visit(plan: seq<Target>, ti: nat, tries: int, br: Breakers?, env: Env, s0: Progress, tick0: nat,
               ghost calls0: seq<Call>, ghost refused0: set<nat>, ghost w: World, ghost log0: Log)
    returns (s: Progress, tick: nat, stop: bool, v: Verdict,
             ghost calls: seq<Call>, ghost refused: set<nat>, ghost log: Log)
    requires Causal(env) && ti < |plan| && tries >= 1 && Reached(env, plan, tries, s0, calls0, refused0, ti)
    requires br != null ==> w == World(env, plan, br.threshold, br.openFor, w.pre)
    requires br != null ==> Agrees(Replay(w, log0), br, calls0, refused0, ti) && Replay(w, log0).tick <= tick0
    requires ti !in refused0
    modifies if br == null then {} else {br}
    ensures stop ==> Finished(env, plan, tries, s, calls, refused, v)
    ensures !stop ==> Reached(env, plan, tries, s, calls, refused, ti + 1)
    ensures br == null ==> refused == refused0
    ensures refused <= refused0 + {ti}
    ensures br != null ==> Agrees(Replay(w, log), br, calls, refused, ti + 1) && Replay(w, log).tick <= tick
    ensures br != null ==> ProbeTold(w, log0, log, ti, tick0 + 1)
    ensures stop && v == Ok && br != null ==> br.Get(s.target) == Closed
  {
    s, tick := s0, tick0 + 1;
    var skip;
    skip, refused, log := Ask(plan, ti, br, env, tick, calls0, refused0, w, log0);
    if skip {
      SkipMore(env, plan, tries, s, calls0, refused0, ti);
      return s, tick, false, NoTarget, calls0, refused, log;
    }
    s, tick, stop, v, calls, log := TryTarget(plan, ti, tries, br, env, s, tick, calls0, refused, w, log);
  }

  /** Passing over an entry that is not the last. */
  lemma SkipMore(env: Env, plan: seq<Target>, tries: int, s: Progress, calls: seq<Call>, refused: set<nat>, ti: nat)
    requires Reached(env, plan, tries, s, calls, refused, ti) && ti < |plan| - 1
    ensures Reached(env, plan, tries, s, calls, refused + {ti}, ti + 1)
  {
  }

  /** The whole loop. With breakers, `log` has every question and call with its tick: the entries refused are
      those whose breaker refused in the state and at the tick it was asked, calls are made only on admitted
      entries (or the last), and the breakers end in the states the log gives them. */
  method Execute(plan: seq<Target>, maxAttempts: int, br: Breakers?, env: Env)
    returns (target: Target, attempts: nat, verdict: Verdict,
             ghost calls: seq<Call>, ghost refused: set<nat>, ghost log: Log)
    requires Causal(env)
    modifies if br == null then {} else {br}
    ensures attempts == |calls|
    ensures Trace(env, plan, calls, Max(maxAttempts, 1))
    ensures |calls| > 0 ==> target == plan[calls[|calls| - 1].target]
    ensures Ended(env, plan, calls, Max(maxAttempts, 1), verdict)
    ensures verdict.Timeout? || verdict.ContextCanceled? ==> exists t: nat :: CtxEnded(env, t, verdict)
    ensures SkipsOnlyRefused(plan, calls, refused)
    ensures if br == null then refused == {}
            else
              var e := Replay(World(env, plan, br.threshold, br.openFor, old(br.m)), log);
              e.heeded && calls == e.calls && refused == e.refused && br.m == e.m
    ensures plan != [] && (forall t: nat :: env.ctx(t).Live?) ==> attempts >= 1
    ensures verdict == Ok && br != null ==> br.Get(target) == Closed
  {
    var tries := Max(maxAttempts, 1);
    var s := Progress(Target("", ""), 0, Gateway(0), 0);
    ghost var w := World(env, plan, 0, 0, map[]);
    if br != null {
      w := World(env, plan, br.threshold, br.openFor, br.m);
    }
    calls, refused, log := [], {}, Blank;
    var ti, tick := 0, 0;
    while ti < |plan|
      invariant 0 <= ti && Reached(env, plan, tries, s, calls, refused, ti)
      invariant br == null ==> refused == {}
      invariant forall k :: k in refused ==> k < ti
      invariant br != null ==> Agrees(Replay(w, log), br, calls, refused, ti) && Replay(w, log).tick <= tick
    {
      var stop, v;
      s, tick, stop, v, calls, refused, log := Visit(plan, ti, tries, br, env, s, tick, calls, refused, w, log);
      if stop {
        return s.target, s.attempts, v, calls, refused, log;
      }
      ti := ti + 1;
    }
    target, attempts := s.target, s.attempts;
    if plan == [] {
      verdict := NoTarget;
      return;
    }
    ShortestIsMinimum(env, |calls|);
    var surfaced := WithShortest(s);
    verdict := Fail(surfaced);
  }

  /** The last error, with the shortest Retry-After written into it if it can carry one. */
  method WithShortest(s: Progress) returns (lastErr: Error)
    requires s.shortest >= 0
    ensures lastErr == Surfaced(s.lastErr, s.shortest)
  {
    lastErr := s.lastErr;
    if s.shortest > 0 {
      if lastErr.Upstream? {
        lastErr := lastErr.(retryAfter := s.shortest);
      } else if lastErr.Gateway? {
        lastErr := Gateway(s.shortest);
      }
    }
  }

  /** The last call failed for good on its target: failover, or its tries are used up. */
  ghost predicate GivenUp(env: Env, calls: seq<Call>, tries: int)
    requires |calls| > 0
  {
    && env.attempt(|calls| - 1).Refused?
    && var d := Classify(env.attempt(|calls| - 1).err).0;
       d == NextTarget || (d == RetrySame && calls[|calls| - 1].attempt == tries - 1)
  }

  /** Appending a call that may follow the last one keeps the trace. */
  lemma Extend(env: Env, plan: seq<Target>, calls: seq<Call>, tries: int, c: Call)
    requires Trace(env, plan, calls, tries) && c.target < |plan| && c.attempt < tries
    requires calls == [] ==> c.attempt == 0
    requires calls != [] ==> env.attempt(|calls| - 1).Refused?
    requires calls != [] ==>
               var last := calls[|calls| - 1];
               if c.target == last.target then
                 c.attempt == last.attempt + 1 && Classify(env.attempt(|calls| - 1).err).0 == RetrySame
               else last.target < c.target && c.attempt == 0 && GivenUp(env, calls, tries)
    ensures Trace(env, plan, calls + [c], tries)
  {
    var calls' := calls + [c];
    forall i | 0 <= i < |calls'| - 1 ensures Follows(env, calls', i, tries) {
      if i < |calls| - 1 {
        assert Follows(env, calls, i, tries);
      }
    }
  }

  lemma VisitMore(plan: seq<Target>, calls: seq<Call>, refused: set<nat>, c: Call)
    requires SkipsOnlyRefused(plan, calls, refused)
    requires forall k :: 0 <= k < c.target ==> Visited(calls, k) || k in refused
    ensures SkipsOnlyRefused(plan, calls + [c], refused)
    ensures forall k :: Visited(calls, k) ==> Visited(calls + [c], k)
    ensures Visited(calls + [c], c.target)
  {
    var calls' := calls + [c];
    forall k | Visited(calls, k) ensures Visited(calls', k) {
      var i :| 0 <= i < |calls| && calls[i].target == k;
      assert calls'[i].target == k;
    }
    assert calls'[|calls|].target == c.target;
  }
}
