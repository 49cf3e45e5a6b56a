/**
 Circuit breakers (internal/router/breaker.go), one per target.

 The claims are about every run of one breaker: what a closed breaker looks like, that a half-open
 breaker admits one probe until something resolves it, and how far apart two probes are.
 */
module Breaker {

  datatype Target = Target(provider: string, model: string)

  /** The zero time of the code is `Never`. */
  datatype Deadline = Never | At(t: int)

  datatype State = State(failures: nat, openUntil: Deadline, probing: bool)

  const Closed := State(0, Never, false)

  predicate Admits(s: State, now: int) {
    s.openUntil.Never? || (s.openUntil.t <= now && !s.probing)
  }

  /** Admission of the single half-open probe, as opposed to a call through a closed breaker. */
  predicate Probes(s: State, now: int) {
    s.openUntil.At? && Admits(s, now)
  }

  function Allowed(s: State, now: int): State {
    if Probes(s, now) then s.(probing := true) else s
  }

  function Failed(s: State, threshold: int, cooldown: int, now: int): State {
    var f := s.failures + 1;
    if s.probing || f >= threshold then State(f, At(now + cooldown), false) else s.(failures := f)
  }

  function Opened(s: State, now: int, d: int): State {
    if d <= 0 then s
    else if s.openUntil.Never? || now + d > s.openUntil.t then s.(openUntil := At(now + d), probing := false)
    else s
  }

  datatype Event = Allow(now: int) | Success | Failure(now: int) | OpenFor(now: int, d: int)

  function Step(threshold: int, cooldown: int, s: State, e: Event): State {
    match e
    case Allow(now) => Allowed(s, now)
    case Success => Closed
    case Failure(now) => Failed(s, threshold, cooldown, now)
    case OpenFor(now, d) => Opened(s, now, d)
  }

  /** The state before event `n` of the run. */
  function StateAt(threshold: int, cooldown: int, es: seq<Event>, n: nat): State
    requires n <= |es|
  {
    if n == 0 then Closed else Step(threshold, cooldown, StateAt(threshold, cooldown, es, n - 1), es[n - 1])
  }

  /** The clock never goes back. */
  ghost predicate Ordered(es: seq<Event>) {
    forall i, j :: 0 <= i < j < |es| && !es[i].Success? && !es[j].Success? ==> es[i].now <= es[j].now
  }

  /** A closed breaker has seen fewer than threshold failures and has no probe outstanding. */
  lemma {:induction false} ClosedIsClean(threshold: int, cooldown: int, es: seq<Event>, n: nat)
    requires threshold >= 1 && n <= |es|
    ensures var s := StateAt(threshold, cooldown, es, n);
            s.openUntil.Never? ==> s.failures < threshold && !s.probing
  {
    if n > 0 {
      ClosedIsClean(threshold, cooldown, es, n - 1);
    }
  }

  ghost predicate IsProbe(threshold: int, cooldown: int, es: seq<Event>, n: nat) {
    n < |es| && es[n].Allow? && Probes(StateAt(threshold, cooldown, es, n), es[n].now)
  }

  ghost predicate NoSuccess(es: seq<Event>, i: nat, j: nat)
    requires j <= |es|
  {
    forall k :: i < k < j ==> !es[k].Success?
  }

  /** Every explicit opening in between lasts at least `gap`. */
  ghost predicate OpensFor(es: seq<Event>, i: nat, j: nat, gap: int)
    requires j <= |es|
  {
    forall k :: i < k < j && es[k].OpenFor? && es[k].d > 0 ==> es[k].d >= gap
  }

  /** After a probe at event `i`, it is outstanding or the breaker is open for `gap` from then on. */
  lemma {:induction false} AfterProbe(threshold: int, cooldown: int, es: seq<Event>, i: nat, n: nat, gap: int)
    requires Ordered(es) && IsProbe(threshold, cooldown, es, i) && i < n <= |es|
    requires NoSuccess(es, i, n) && OpensFor(es, i, n, gap) && cooldown >= gap
    ensures var s := StateAt(threshold, cooldown, es, n);
            s.openUntil.At? && (s.probing || s.openUntil.t >= es[i].now + gap)
    decreases n
  {
    if n > i + 1 {
      AfterProbe(threshold, cooldown, es, i, n - 1, gap);
      assert !es[n - 1].Success? && es[n - 1].now >= es[i].now;
    }
  }

  /** Two probes with no success between them are at least `gap` apart, for every `gap` that is at
      most the cooldown and at most each explicit opening in between. */
  lemma {:induction false} ProbesApart(threshold: int, cooldown: int, es: seq<Event>, i: nat, j: nat, gap: int)
    requires Ordered(es) && i < j
    requires IsProbe(threshold, cooldown, es, i) && IsProbe(threshold, cooldown, es, j)
    requires NoSuccess(es, i, j) && OpensFor(es, i, j, gap) && cooldown >= gap
    ensures es[j].now >= es[i].now + gap
  {
    AfterProbe(threshold, cooldown, es, i, j, gap);
  }

  ghost predicate Unresolved(es: seq<Event>, i: nat, j: nat)
    requires j <= |es|
  {
    forall k :: i < k < j ==> es[k].Allow? || (es[k].OpenFor? && es[k].d <= 0)
  }

  lemma {:induction false} ProbeOutstanding(threshold: int, cooldown: int, es: seq<Event>, i: nat, n: nat)
    requires IsProbe(threshold, cooldown, es, i) && i < n <= |es| && Unresolved(es, i, n)
    ensures var s := StateAt(threshold, cooldown, es, n); s.openUntil.At? && s.probing
    decreases n
  {
    if n > i + 1 {
      ProbeOutstanding(threshold, cooldown, es, i, n - 1);
      assert es[n - 1].Allow? || (es[n - 1].OpenFor? && es[n - 1].d <= 0);
    }
  }

  /** Exactly one probe: nothing is admitted until a success, a failure or an explicit opening
      resolves it, however long that takes. */
  lemma {:induction false} OneProbe(threshold: int, cooldown: int, es: seq<Event>, i: nat, j: nat)
    requires IsProbe(threshold, cooldown, es, i) && i < j < |es| && Unresolved(es, i, j) && es[j].Allow?
    ensures !Admits(StateAt(threshold, cooldown, es, j), es[j].now)
  {
    ProbeOutstanding(threshold, cooldown, es, i, j);
  }

  /** Event `k` ends an outstanding probe: a success, a failure, or an opening that extends the deadline. */
  ghost predicate Resolves(threshold: int, cooldown: int, es: seq<Event>, k: nat)
    requires k < |es|
  {
    match es[k]
    case Allow(_) => false
    case Success => true
    case Failure(_) => true
    case OpenFor(now, d) =>
      var u := StateAt(threshold, cooldown, es, k).openUntil;
      d > 0 && (u.Never? || now + d > u.t)
  }

  ghost predicate ProbePending(threshold: int, cooldown: int, es: seq<Event>, i: nat, n: nat)
    requires n <= |es|
  {
    i < n && IsProbe(threshold, cooldown, es, i) && forall k :: i < k < n ==> !Resolves(threshold, cooldown, es, k)
  }

  lemma {:induction false} PendingNext(threshold: int, cooldown: int, es: seq<Event>, i: nat, n: nat)
    requires 0 < n <= |es| && !Resolves(threshold, cooldown, es, n - 1)
    requires ProbePending(threshold, cooldown, es, i, n - 1)
    ensures ProbePending(threshold, cooldown, es, i, n)
  {
  }

  /** The probing flag says exactly that a probe was admitted and nothing has resolved it since. */
  lemma {:induction false} ProbingIff(threshold: int, cooldown: int, es: seq<Event>, n: nat)
    requires n <= |es|
    ensures StateAt(threshold, cooldown, es, n).probing <==> exists i :: ProbePending(threshold, cooldown, es, i, n)
  {
    if n > 0 {
      ProbingIff(threshold, cooldown, es, n - 1);
      var s := StateAt(threshold, cooldown, es, n - 1);
      if IsProbe(threshold, cooldown, es, n - 1) {
        assert ProbePending(threshold, cooldown, es, n - 1, n);
      } else if !Resolves(threshold, cooldown, es, n - 1) {
        if s.probing {
          var i :| ProbePending(threshold, cooldown, es, i, n - 1);
          PendingNext(threshold, cooldown, es, i, n);
        }
        forall i | ProbePending(threshold, cooldown, es, i, n)
          ensures ProbePending(threshold, cooldown, es, i, n - 1)
        {}
      }
    }
  }

  /** When a breaker admits a call, in terms of its history: it is closed, or its deadline has passed
      and no probe is pending. */
  lemma {:induction false} AdmitsIff(threshold: int, cooldown: int, es: seq<Event>, n: nat, now: int)
    requires n <= |es|
    ensures var s := StateAt(threshold, cooldown, es, n);
            Admits(s, now) <==> s.openUntil.Never?
                                || (s.openUntil.t <= now && !exists i :: ProbePending(threshold, cooldown, es, i, n))
  {
    ProbingIff(threshold, cooldown, es, n);
  }

  // ----- when a breaker is open, and until when

  /** How many failures there were since the last success before event `n`. */
  function FailuresSince(es: seq<Event>, n: nat): nat
    requires n <= |es|
  {
    if n == 0 || es[n - 1].Success? then 0
    else FailuresSince(es, n - 1) + if es[n - 1].Failure? then 1 else 0
  }

  ghost predicate OpenedAt(es: seq<Event>, k: nat, n: nat)
    requires k < n <= |es|
  {
    es[k].OpenFor? && es[k].d > 0 && NoSuccess(es, k, n)
  }

  ghost predicate OpenedSince(es: seq<Event>, n: nat)
    requires n <= |es|
  {
    exists k :: 0 <= k < n && OpenedAt(es, k, n)
  }

  lemma {:induction false} OpenedNext(es: seq<Event>, n: nat)
    requires 0 < n <= |es|
    ensures OpenedSince(es, n) <==>
              !es[n - 1].Success? && (OpenedSince(es, n - 1) || (es[n - 1].OpenFor? && es[n - 1].d > 0))
  {
    var e := es[n - 1];
    if OpenedSince(es, n) {
      var k :| 0 <= k < n && OpenedAt(es, k, n);
      if k < n - 1 {
        assert OpenedAt(es, k, n - 1) && !e.Success?;
      }
    }
    if !e.Success? && OpenedSince(es, n - 1) {
      var k :| 0 <= k < n - 1 && OpenedAt(es, k, n - 1);
      assert OpenedAt(es, k, n);
    }
    if e.OpenFor? && e.d > 0 {
      assert OpenedAt(es, n - 1, n);
    }
  }

  /** In every run a breaker is closed if and only if, since the last success, there were fewer failures than the
      threshold and no explicit opening. */
  lemma {:induction false} ClosedIff(threshold: int, cooldown: int, es: seq<Event>, n: nat)
    requires threshold >= 1 && n <= |es|
    ensures var s := StateAt(threshold, cooldown, es, n);
            && s.failures == FailuresSince(es, n)
            && (s.openUntil.Never? <==> FailuresSince(es, n) < threshold && !OpenedSince(es, n))
  {
    if n > 0 {
      ClosedIff(threshold, cooldown, es, n - 1);
      ClosedIsClean(threshold, cooldown, es, n - 1);
      OpenedNext(es, n);
    }
  }

  /** A failure that trips the breaker, or fails its probe, keeps it shut for exactly the cooldown. */
  lemma TrippedUntil(s: State, threshold: int, cooldown: int, now: int, t: int)
    requires s.probing || s.failures + 1 >= threshold
    ensures Admits(Failed(s, threshold, cooldown, now), t) <==> t >= now + cooldown
  {
  }

  /** An explicit opening keeps a closed breaker shut for exactly its length, and an open one without a probe until
      the later of the two deadlines. */
  lemma OpenedUntil(s: State, now: int, d: int, t: int)
    requires d > 0 && !s.probing
    ensures Admits(Opened(s, now, d), t) <==> t >= now + d && (s.openUntil.At? ==> t >= s.openUntil.t)
  {
  }

  /** A target never seen has a closed breaker. */
  function StateIn(m: map<Target, State>, t: Target): State {
    if t in m then m[t] else Closed
  }

  /** Before anything happened every target is admitted, and no probe is outstanding. */
  lemma UnseenAdmitted(t: Target, now: int, threshold: int, cooldown: int)
    ensures Admits(StateIn(map[], t), now) && !StateIn(map[], t).probing && StateIn(map[], t).failures == 0
    ensures StateIn(map[], t) == StateAt(threshold, cooldown, [], 0)
  {
  }

  class Breakers {
    const threshold: int
    const openFor: int
    var m: map<Target, State>

    constructor (threshold: int, openFor: int)
      ensures this.threshold == threshold && this.openFor == openFor && m == map[]
      ensures forall t :: Get(t) == Closed
    {
      this.threshold, this.openFor := threshold, openFor;
      m := map[];
    }

    function Get(t: Target): State
      reads this
    {
      StateIn(m, t)
    }

    method Allow(t: Target, now: int) returns (ok: bool)
      modifies this
      ensures ok <==> Admits(old(Get(t)), now)
      ensures m == old(m)[t := Allowed(old(Get(t)), now)]
    {
      var s := Get(t);
      m := m[t := s];
      if s.openUntil.Never? {
        return true;
      }
      if now < s.openUntil.t || s.probing {
        return false;
      }
      m := m[t := s.(probing := true)];
      return true;
    }

    method Success(t: Target)
      modifies this
      ensures m == old(m)[t := Closed]
    {
      m := m[t := Closed];
    }

    method Failure(t: Target, now: int)
      modifies this
      ensures m == old(m)[t := Failed(old(Get(t)), threshold, openFor, now)]
    {
      var s := Get(t);
      s := s.(failures := s.failures + 1);
      if s.probing || s.failures >= threshold {
        s := s.(openUntil := At(now + openFor), probing := false);
      }
      m := m[t := s];
    }

    method OpenFor(t: Target, now: int, d: int)
      modifies this
      ensures m == if d <= 0 then old(m) else old(m)[t := Opened(old(Get(t)), now, d)]
    {
      if d <= 0 {
        return;
      }
      var s := Get(t);
      var until := now + d;
      if s.openUntil.Never? || until > s.openUntil.t {
        s := s.(openUntil := At(until), probing := false);
      }
      m := m[t := s];
    }
  }
}
