/**
 Agent run limits (internal/agentrun/runs.go): `stepScript` admits or refuses one step of a run,
 `Charge` replaces a step's estimate by what it used. Each is one atomic update of the run's hash
 and fingerprint list.
 */
module AgentRun {

  datatype Policy = Policy(maxSteps: int, maxCost: int, maxTokens: int, loopRepeats: int, loopWindow: int)

  datatype Status = Allowed | StepsExceeded | CostExceeded | TokensExceeded | Loop

  /** The stored run: counters, and fingerprints with the newest first. */
  datatype Run = Run(steps: int, cost: int, tokens: int, recent: seq<string>)

  const NewRun := Run(0, 0, 0, [])

  /** How many elements a Redis range from 0 to `window - 1` covers in a list of length `n`. */
  function RangeLen(n: nat, window: int): nat {
    if window >= 1 then (if window < n then window else n)
    else if n + window < 0 then 0 else n + window
  }

  function Repeats(r: Run, window: int, fp: string): int {
    1 + multiset(r.recent[..RangeLen(|r.recent|, window)])[fp]
  }

  predicate Watched(p: Policy, fp: string) {
    fp != "" && p.loopRepeats > 0
  }

  function Verdict(p: Policy, r: Run, fp: string): Status {
    if p.maxSteps > 0 && r.steps >= p.maxSteps then StepsExceeded
    else if p.maxCost > 0 && r.cost >= p.maxCost then CostExceeded
    else if p.maxTokens > 0 && r.tokens >= p.maxTokens then TokensExceeded
    else if Watched(p, fp) && Repeats(r, p.loopWindow, fp) >= p.loopRepeats then Loop
    else Allowed
  }

  function Pushed(p: Policy, recent: seq<string>, fp: string): seq<string> {
    if Watched(p, fp) then ([fp] + recent)[..RangeLen(1 + |recent|, p.loopWindow)] else recent
  }

  function Stepped(p: Policy, r: Run, fp: string, estCost: int, estTokens: int): Run {
    if Verdict(p, r, fp) != Allowed then r
    else Run(r.steps + 1, r.cost + estCost, r.tokens + estTokens, Pushed(p, r.recent, fp))
  }

  class Store {
    var steps: int
    var cost: int
    var tokens: int
    var recent: seq<string>

    function Now(): Run
      reads this
    {
      Run(steps, cost, tokens, recent)
    }

    constructor ()
      ensures Now() == NewRun
    {
      steps, cost, tokens, recent := 0, 0, 0, [];
    }

    /** stepScript. A refused step changes nothing. */
    method Step(p: Policy, fp: string, estCost: int, estTokens: int) returns (status: Status, repeats: int)
      modifies this
      ensures status == Verdict(p, old(Now()), fp)
      ensures Now() == Stepped(p, old(Now()), fp, estCost, estTokens)
      ensures Watched(p, fp) && (status == Loop || status == Allowed) ==>
                repeats == Repeats(old(Now()), p.loopWindow, fp)
    {
      repeats := 0;
      if p.maxSteps > 0 && steps >= p.maxSteps {
        return StepsExceeded, repeats;
      }
      if p.maxCost > 0 && cost >= p.maxCost {
        return CostExceeded, repeats;
      }
      if p.maxTokens > 0 && tokens >= p.maxTokens {
        return TokensExceeded, repeats;
      }
      repeats := 1;
      if fp != "" && p.loopRepeats > 0 {
        var range := recent[..RangeLen(|recent|, p.loopWindow)];
        var i := 0;
        while i < |range|
          invariant 0 <= i <= |range| && repeats == 1 + multiset(range[..i])[fp]
        {
          assert range[..i + 1] == range[..i] + [range[i]];
          if range[i] == fp {
            repeats := repeats + 1;
          }
          i := i + 1;
        }
        assert range[..i] == range;
        if repeats >= p.loopRepeats {
          return Loop, repeats;
        }
        recent := [fp] + recent;
        recent := recent[..RangeLen(|recent|, p.loopWindow)];
      }
      steps, cost, tokens := steps + 1, cost + estCost, tokens + estTokens;
      status := Allowed;
    }

    method Charge(actualCost: int, actualTokens: int, reservedCost: int, reservedTokens: int)
      modifies this
      ensures Now() == old(Now()).(cost := old(cost) + actualCost - reservedCost,
                                   tokens := old(tokens) + actualTokens - reservedTokens)
    {
      var costDelta := actualCost - reservedCost;
      var tokensDelta := actualTokens - reservedTokens;
      if costDelta != 0 {
        cost := cost + costDelta;
      }
      if tokensDelta != 0 {
        tokens := tokens + tokensDelta;
      }
    }
  }

  /** Without a fingerprint, or without a repeat limit, a step is never taken for a loop and leaves no trace in
      the list. */
  lemma UnwatchedStep(p: Policy, r: Run, fp: string, estCost: int, estTokens: int)
    requires fp == "" || p.loopRepeats <= 0
    ensures Verdict(p, r, fp) != Loop && Stepped(p, r, fp, estCost, estTokens).recent == r.recent
  {
  }

  // ----- every interleaving of steps and charges under one policy

  datatype Event =
    | Step(fp: string, estCost: int, estTokens: int)
    | Charge(step: nat, actualCost: int, actualTokens: int)

  /** An accepted step that still holds its estimate, or one that was settled. */
  datatype Hold = Open(cost: int, tokens: int) | Done

  /** The run with its histories: accepted fingerprints (oldest first), accepted steps, what was settled. */
  datatype State = State(run: Run, seen: seq<string>, holds: seq<Hold>, paidCost: int, paidTokens: int)

  const Start := State(NewRun, [], [], 0, 0)

  predicate Enabled(s: State, e: Event) {
    e.Charge? ==> e.step < |s.holds| && s.holds[e.step].Open?
  }

  function Apply(p: Policy, s: State, e: Event): State
    requires Enabled(s, e)
  {
    match e
    case Step(fp, estCost, estTokens) =>
      if Verdict(p, s.run, fp) != Allowed then s
      else s.(run := Stepped(p, s.run, fp, estCost, estTokens),
              seen := if Watched(p, fp) then s.seen + [fp] else s.seen,
              holds := s.holds + [Open(estCost, estTokens)])
    case Charge(i, actualCost, actualTokens) =>
      var h := s.holds[i];
      State(s.run.(cost := s.run.cost + actualCost - h.cost, tokens := s.run.tokens + actualTokens - h.tokens),
            s.seen, s.holds[i := Done], s.paidCost + actualCost, s.paidTokens + actualTokens)
  }

  ghost predicate Reaches(p: Policy, s: State, es: seq<Event>, t: State)
    decreases |es|
  {
    if es == [] then t == s
    else Enabled(s, es[0]) && Reaches(p, Apply(p, s, es[0]), es[1..], t)
  }

  // ----- loop detection

  /** `recent` is the newest `window` of the accepted fingerprints, newest first. */
  ghost predicate Mirrors(recent: seq<string>, seen: seq<string>, window: int) {
    && |recent| == RangeLen(|seen|, window)
    && forall j :: 0 <= j < |recent| ==> recent[j] == seen[|seen| - 1 - j]
  }

  function Lo(j: nat, window: nat): nat {
    if j < window then 0 else j - window
  }

  /** When it was accepted, entry `j` repeated too few of the `window` entries before it. */
  ghost predicate Fresh(seen: seq<string>, j: nat, window: nat, repeats: int)
    requires j < |seen|
  {
    multiset(seen[Lo(j, window)..j])[seen[j]] + 1 < repeats
  }

  ghost predicate LoopInv(p: Policy, s: State)
    requires p.loopWindow >= 1
  {
    && Mirrors(s.run.recent, s.seen, p.loopWindow)
    && forall j :: 0 <= j < |s.seen| ==> Fresh(s.seen, j, p.loopWindow, p.loopRepeats)
  }

  lemma {:induction false} ReversedMultiset(a: seq<string>, b: seq<string>)
    requires |a| == |b| && forall j :: 0 <= j < |a| ==> a[j] == b[|b| - 1 - j]
    ensures multiset(a) == multiset(b)
    decreases |a|
  {
    if a != [] {
      var n := |b| - 1;
      ReversedMultiset(a[1..], b[..n]);
      assert a == [a[0]] + a[1..] && b == b[..n] + [b[n]];
    }
  }

  lemma PushMirrors(recent: seq<string>, seen: seq<string>, fp: string, window: int)
    requires window >= 1 && Mirrors(recent, seen, window)
    ensures Mirrors(([fp] + recent)[..RangeLen(1 + |recent|, window)], seen + [fp], window)
  {
    var pushed, seen' := ([fp] + recent)[..RangeLen(1 + |recent|, window)], seen + [fp];
    forall j | 0 <= j < |pushed| ensures pushed[j] == seen'[|seen'| - 1 - j] {
      assert pushed[j] == if j == 0 then fp else recent[j - 1];
    }
  }

  lemma RecentCounts(recent: seq<string>, seen: seq<string>, window: int)
    requires window >= 1 && Mirrors(recent, seen, window)
    ensures multiset(recent[..RangeLen(|recent|, window)]) == multiset(seen[Lo(|seen|, window)..|seen|])
  {
    assert recent[..RangeLen(|recent|, window)] == recent;
    ReversedMultiset(recent, seen[Lo(|seen|, window)..|seen|]);
  }

  lemma SliceBefore(seen: seq<string>, fp: string, lo: nat, hi: nat)
    requires lo <= hi <= |seen|
    ensures (seen + [fp])[lo..hi] == seen[lo..hi]
  {
    var xs, ys := (seen + [fp])[lo..hi], seen[lo..hi];
    assert |xs| == |ys|;
    forall i | 0 <= i < |ys| ensures xs[i] == ys[i] {
      assert xs[i] == (seen + [fp])[lo + i] == seen[lo + i];
    }
  }

  lemma FreshStays(seen: seq<string>, fp: string, j: nat, window: nat, repeats: int)
    requires j < |seen| && Fresh(seen, j, window, repeats)
    ensures Fresh(seen + [fp], j, window, repeats)
  {
    SliceBefore(seen, fp, Lo(j, window), j);
  }

  lemma FreshNow(seen: seq<string>, fp: string, window: nat, repeats: int)
    requires multiset(seen[Lo(|seen|, window)..|seen|])[fp] + 1 < repeats
    ensures Fresh(seen + [fp], |seen|, window, repeats)
  {
    SliceBefore(seen, fp, Lo(|seen|, window), |seen|);
  }

  lemma StepKeepsLoopInv(p: Policy, s: State, e: Event)
    requires p.loopWindow >= 1 && LoopInv(p, s) && Enabled(s, e)
    ensures LoopInv(p, Apply(p, s, e))
  {
    if e.Step? && Verdict(p, s.run, e.fp) == Allowed && Watched(p, e.fp) {
      PushMirrors(s.run.recent, s.seen, e.fp, p.loopWindow);
      RecentCounts(s.run.recent, s.seen, p.loopWindow);
      FreshNow(s.seen, e.fp, p.loopWindow, p.loopRepeats);
      forall j | 0 <= j < |s.seen| ensures Fresh(s.seen + [e.fp], j, p.loopWindow, p.loopRepeats) {
        FreshStays(s.seen, e.fp, j, p.loopWindow, p.loopRepeats);
      }
    }
  }

  lemma {:induction false} RunKeepsLoopInv(p: Policy, s: State, es: seq<Event>, t: State)
    requires p.loopWindow >= 1 && LoopInv(p, s) && Reaches(p, s, es, t)
    ensures LoopInv(p, t)
    decreases |es|
  {
    if es != [] {
      StepKeepsLoopInv(p, s, es[0]);
      RunKeepsLoopInv(p, Apply(p, s, es[0]), es[1..], t);
    }
  }

  lemma {:induction false} FreshMeansRare(seen: seq<string>, lo: nat, hi: nat, window: nat, repeats: int, f: string)
    requires forall j :: 0 <= j < |seen| ==> Fresh(seen, j, window, repeats)
    requires lo <= hi <= |seen| && hi - lo <= window + 1 && repeats > 0
    ensures multiset(seen[lo..hi])[f] < repeats
    decreases hi
  {
    if lo < hi {
      var j := hi - 1;
      assert seen[lo..hi] == seen[lo..j] + [seen[j]];
      if seen[j] == f {
        assert Fresh(seen, j, window, repeats);
        var k := Lo(j, window);
        assert seen[k..j] == seen[k..lo] + seen[lo..j];
      } else {
        FreshMeansRare(seen, lo, j, window, repeats, f);
      }
    }
  }

  /** No fingerprint fills a window: any `loopWindow + 1` consecutive accepted fingerprints contain each
      one fewer than `loopRepeats` times. */
  lemma {:induction false} NoLoopInWindow(p: Policy, es: seq<Event>, t: State, lo: nat, hi: nat, f: string)
    requires p.loopWindow >= 1 && p.loopRepeats > 0 && Reaches(p, Start, es, t)
    requires lo <= hi <= |t.seen| && hi - lo <= p.loopWindow + 1
    ensures multiset(t.seen[lo..hi])[f] < p.loopRepeats
  {
    RunKeepsLoopInv(p, Start, es, t);
    FreshMeansRare(t.seen, lo, hi, p.loopWindow, p.loopRepeats, f);
  }

  // ----- counters

  ghost function HeldCost(hs: seq<Hold>): int {
    if hs == [] then 0 else HeldCost(hs[..|hs| - 1]) + (if hs[|hs| - 1].Open? then hs[|hs| - 1].cost else 0)
  }

  ghost function HeldTokens(hs: seq<Hold>): int {
    if hs == [] then 0 else HeldTokens(hs[..|hs| - 1]) + (if hs[|hs| - 1].Open? then hs[|hs| - 1].tokens else 0)
  }

  lemma {:induction false} Release(hs: seq<Hold>, i: nat)
    requires i < |hs| && hs[i].Open?
    ensures HeldCost(hs[i := Done]) == HeldCost(hs) - hs[i].cost
    ensures HeldTokens(hs[i := Done]) == HeldTokens(hs) - hs[i].tokens
  {
    var n := |hs| - 1;
    if i == n {
      assert hs[i := Done][..n] == hs[..n];
    } else {
      assert hs[i := Done][..n] == hs[..n][i := Done];
      Release(hs[..n], i);
    }
  }

  ghost predicate CountInv(p: Policy, s: State) {
    && s.run.steps == |s.holds| && (p.maxSteps > 0 ==> s.run.steps <= p.maxSteps)
    && s.run.cost == s.paidCost + HeldCost(s.holds)
    && s.run.tokens == s.paidTokens + HeldTokens(s.holds)
  }

  lemma StepKeepsCountInv(p: Policy, s: State, e: Event)
    requires CountInv(p, s) && Enabled(s, e)
    ensures CountInv(p, Apply(p, s, e))
  {
    var s' := Apply(p, s, e);
    if e.Charge? {
      Release(s.holds, e.step);
    } else if s' != s {
      assert s'.holds[..|s'.holds| - 1] == s.holds;
    }
  }

  lemma {:induction false} RunKeepsCountInv(p: Policy, s: State, es: seq<Event>, t: State)
    requires CountInv(p, s) && Reaches(p, s, es, t)
    ensures CountInv(p, t)
    decreases |es|
  {
    if es != [] {
      StepKeepsCountInv(p, s, es[0]);
      RunKeepsCountInv(p, Apply(p, s, es[0]), es[1..], t);
    }
  }

  /** Over every interleaving: accepted steps stay within a positive maximum, and the cost and token
      counters are what settled steps used plus what open steps reserved. */
  lemma {:induction false} RunAccounting(p: Policy, es: seq<Event>, t: State)
    requires Reaches(p, Start, es, t)
    ensures t.run.steps == |t.holds| && (p.maxSteps > 0 ==> |t.holds| <= p.maxSteps)
    ensures t.run.cost == t.paidCost + HeldCost(t.holds) && t.run.tokens == t.paidTokens + HeldTokens(t.holds)
  {
    RunKeepsCountInv(p, Start, es, t);
  }

  /** How often `fp` occurs among the last `window` accepted fingerprints. */
  ghost function InWindow(seen: seq<string>, window: nat, fp: string): nat {
    multiset(seen[Lo(|seen|, window)..|seen|])[fp]
  }

  /** The script's count is one more than what the history's window holds. */
  lemma {:induction false} WindowRepeats(p: Policy, es: seq<Event>, t: State, fp: string)
    requires p.loopWindow >= 1 && Reaches(p, Start, es, t)
    ensures Repeats(t.run, p.loopWindow, fp) == 1 + InWindow(t.seen, p.loopWindow, fp)
  {
    RunKeepsLoopInv(p, Start, es, t);
    RecentCounts(t.run.recent, t.seen, p.loopWindow);
  }

  ghost predicate Under(limit: int, used: int) {
    limit > 0 ==> used < limit
  }

  /** Exactly when the next step is accepted, in terms of the run's history alone: the accepted steps, the
      cost and the tokens are below their limits, and the fingerprint is too rare in the window. */
  lemma {:induction false} AcceptedIff(p: Policy, es: seq<Event>, t: State, fp: string)
    requires p.loopWindow >= 1 && Reaches(p, Start, es, t)
    ensures Verdict(p, t.run, fp) == Allowed <==>
              && Under(p.maxSteps, |t.holds|)
              && Under(p.maxCost, t.paidCost + HeldCost(t.holds))
              && Under(p.maxTokens, t.paidTokens + HeldTokens(t.holds))
              && (Watched(p, fp) ==> InWindow(t.seen, p.loopWindow, fp) + 1 < p.loopRepeats)
  {
    RunAccounting(p, es, t);
    WindowRepeats(p, es, t, fp);
  }
}
