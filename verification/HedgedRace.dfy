/**
 The hedged race of `ExecuteHedged` (internal/router/hedge.go) as a state machine.

 The select loop, the two attempt goroutines and the draining goroutine take turns in any order;
 each action is one atomic step. The two-slot channel is a sequence. `Run` is any schedule.
 */
module HedgedRace {
  import Breaker

  type Target = Breaker.Target

  datatype Who = Primary | Hedge

  /** An attempt succeeds, or fails with an error that is final or allows failover. */
  datatype Outcome = Success | Failure(final: bool)

  datatype Attempt = Unlaunched | Running | Sent(o: Outcome)

  datatype Phase =
    | Racing
    | Won(winner: Who)
    | Exhausted
    | Stopped
    | Fallback(rest: seq<Target>)
    | Ended

  datatype Message = Message(who: Who, o: Outcome)

  /** The parameters of the call: the plan, whether it has a deadline and whether a discard
      function was given. */
  datatype Config = Config(plan: seq<Target>, deadline: bool, drains: bool)

  /** `launches` and `grants` are histories. */
  datatype State = State(
    cfg: Config, armed: bool, hedged: bool, pending: int,
    a: Attempt, b: Attempt, chan: seq<Message>,
    phase: Phase, drain: int, discarded: seq<Who>,
    cancelA: bool, cancelB: bool,
    launches: seq<Target>, grants: nat, reported: nat)

  function Init(cfg: Config): State
    requires |cfg.plan| >= 2
  {
    State(cfg, true, false, 1, Running, Unlaunched, [], Racing, 0, [], false, false, [cfg.plan[0]], 0, 0)
  }

  function Status(s: State, w: Who): Attempt {
    if w.Primary? then s.a else s.b
  }

  function TargetOf(s: State, w: Who): Target
    requires |s.cfg.plan| >= 2
  {
    if w.Primary? then s.cfg.plan[0] else s.cfg.plan[1]
  }

  function Other(w: Who): Who {
    if w.Primary? then Hedge else Primary
  }

  datatype Action =
    | Timer(permit: bool)         // the delay elapses; `permit` is what allow() answers
    | Send(w: Who, o: Outcome)    // an attempt finishes and sends its outcome
    | Receive                     // the select loop takes an outcome
    | CtxDone                     // the select loop sees the context end
    | Drain                       // the draining goroutine takes an outcome

  predicate Enabled(s: State, x: Action) {
    match x
    case Timer(_) => s.phase.Racing? && s.armed
    case Send(w, _) => Status(s, w).Running? && |s.chan| < 2
    case Receive => s.phase.Racing? && s.chan != []
    case CtxDone => s.phase.Racing?
    case Drain => s.drain > 0 && s.chan != []
  }

  function Apply(s: State, x: Action): (r: State)
    requires |s.cfg.plan| >= 2 && Enabled(s, x)
    ensures r.cfg == s.cfg
  {
    match x
    case Timer(permit) =>
      var t := s.(armed := false);
      if !s.hedged && permit then
        t.(hedged := true, pending := s.pending + 1, b := Running, launches := s.launches + [s.cfg.plan[1]],
           grants := s.grants + 1)
      else t
    case Send(w, o) =>
      var t := s.(chan := s.chan + [Message(w, o)]);
      if w.Primary? then t.(a := Sent(o)) else t.(b := Sent(o))
    case Receive =>
      var m := s.chan[0];
      var t := s.(chan := s.chan[1..]);
      if m.o.Success? then Finish(t, m.who)
      else if s.pending - 1 > 0 then t.(pending := s.pending - 1)
      else GiveUp(t.(pending := s.pending - 1), m.o.final)
    case CtxDone => s.(phase := Ended, cancelA := true, cancelB := true)
    case Drain =>
      var m := s.chan[0];
      var t := s.(chan := s.chan[1..], drain := s.drain - 1);
      if m.o.Success? then t.(discarded := s.discarded + [m.who]) else t
  }

  /** A success: cancel the side whose target differs from the first of the plan, and hand the
      outstanding outcomes to the draining goroutine. */
  function Finish(s: State, w: Who): State
    requires |s.cfg.plan| >= 2
  {
    var first := TargetOf(s, w) == s.cfg.plan[0];
    s.(phase := Won(w), reported := if s.hedged then 2 else 1,
       drain := if s.pending > 1 && s.cfg.drains then s.pending - 1 else 0,
       cancelA := s.cfg.deadline || !first, cancelB := s.cfg.deadline || first)
  }

  /** No attempt is left: fail, stop, or go on sequentially with the rest of the plan. */
  function GiveUp(s: State, final: bool): State
    requires |s.cfg.plan| >= 2
  {
    var rest := if s.hedged then s.cfg.plan[2..] else s.cfg.plan[1..];
    var t := s.(cancelA := true, cancelB := true);
    if rest == [] then t.(phase := Exhausted, reported := 2)
    else if final then t.(phase := Stopped, reported := 0)
    else t.(phase := Fallback(rest), reported := 1 + (if s.hedged then 1 else 0))
  }

  /** A schedule: any finite sequence of enabled actions. */
  ghost predicate Schedule(s: State, xs: seq<Action>)
    requires |s.cfg.plan| >= 2
    decreases |xs|
  {
    xs == [] || (Enabled(s, xs[0]) && Schedule(Apply(s, xs[0]), xs[1..]))
  }

  ghost function Run(s: State, xs: seq<Action>): (r: State)
    requires |s.cfg.plan| >= 2 && Schedule(s, xs)
    ensures r.cfg == s.cfg
    decreases |xs|
  {
    if xs == [] then s else Run(Apply(s, xs[0]), xs[1..])
  }

  // ----- the invariant

  /** The attempt's outcome is in the channel. */
  ghost predicate Waiting(s: State, w: Who) {
    (|s.chan| >= 1 && s.chan[0].who == w) || (|s.chan| >= 2 && s.chan[1].who == w)
  }

  /** The channel holds each sender's outcome at most once, as it was sent. */
  ghost predicate ChannelOk(s: State) {
    && |s.chan| <= 2
    && (|s.chan| >= 1 ==> Status(s, s.chan[0].who) == Sent(s.chan[0].o))
    && (|s.chan| >= 2 ==> Status(s, s.chan[1].who) == Sent(s.chan[1].o) && s.chan[0].who != s.chan[1].who)
  }

  /** The attempt's outcome has not been taken from the channel yet. */
  ghost predicate Outstanding(s: State, w: Who) {
    Status(s, w).Running? || Waiting(s, w)
  }

  ghost function Count(s: State): int {
    (if Outstanding(s, Primary) then 1 else 0) + (if Outstanding(s, Hedge) then 1 else 0)
  }

  /** Taken and successful. */
  ghost predicate TakenSuccess(s: State, w: Who) {
    Status(s, w) == Sent(Success) && !Waiting(s, w)
  }

  ghost predicate Inv(s: State) {
    && |s.cfg.plan| >= 2
    && !s.a.Unlaunched? && (s.b.Unlaunched? <==> !s.hedged)
    && (s.hedged ==> !s.armed)
    && s.launches == (if s.hedged then [s.cfg.plan[0], s.cfg.plan[1]] else [s.cfg.plan[0]])
    && s.grants == (if s.hedged then 1 else 0)
    && ChannelOk(s)
    && PhaseInv(s)
  }

  ghost predicate PhaseInv(s: State)
    requires |s.cfg.plan| >= 2
  {
    match s.phase
    case Racing =>
      && s.drain == 0 && s.discarded == [] && s.pending == Count(s) && s.pending >= 1
      && !TakenSuccess(s, Primary) && !TakenSuccess(s, Hedge)
      && !s.cancelA && !s.cancelB && s.reported == 0
    case Won(w) =>
      && TakenSuccess(s, w) && !Outstanding(s, w)
      && s.drain == (if s.cfg.drains && Outstanding(s, Other(w)) then 1 else 0)
      && s.discarded == (if s.cfg.drains && TakenSuccess(s, Other(w)) then [Other(w)] else [])
      && s.reported == |s.launches|
      && WinnerCancels(s, w)
    case Exhausted =>
      NoneLeft(s) && s.hedged && |s.cfg.plan| == 2 && s.reported == |s.launches|
    case Stopped => NoneLeft(s) && s.reported == 0
    case Fallback(rest) =>
      NoneLeft(s) && s.cfg.plan == s.launches + rest && rest != [] && s.reported == |s.launches|
    case Ended => s.drain == 0 && s.discarded == [] && s.reported == 0
  }

  ghost predicate WinnerCancels(s: State, w: Who)
    requires |s.cfg.plan| >= 2
  {
    var same := s.cfg.plan[0] == s.cfg.plan[1];
    && s.cancelA == (s.cfg.deadline || (w.Hedge? && !same))
    && s.cancelB == (s.cfg.deadline || w.Primary? || same)
  }

  /** Every launched attempt failed and was taken. */
  ghost predicate NoneLeft(s: State) {
    && s.drain == 0 && s.discarded == []
    && s.chan == [] && !s.a.Running? && !s.b.Running?
    && s.a != Sent(Success) && s.b != Sent(Success)
  }

  /** Sending moves an attempt from running to waiting and touches nothing else. */
  lemma SendWaits(s: State, w: Who, o: Outcome)
    requires ChannelOk(s) && |s.cfg.plan| >= 2 && Enabled(s, Send(w, o))
    ensures var s' := Apply(s, Send(w, o));
            && ChannelOk(s') && Waiting(s', w) && !Waiting(s, w)
            && Waiting(s', Other(w)) == Waiting(s, Other(w)) && Status(s', Other(w)) == Status(s, Other(w))
  {
  }

  lemma SendKeeps(s: State, w: Who, o: Outcome)
    requires Inv(s) && Enabled(s, Send(w, o))
    ensures Inv(Apply(s, Send(w, o)))
  {
    SendWaits(s, w, o);
    var s' := Apply(s, Send(w, o));
    assert forall v :: Outstanding(s', v) == Outstanding(s, v) && TakenSuccess(s', v) == TakenSuccess(s, v) by {
      assert Other(w) != w;
    }
  }

  /** Taking the head of the channel settles its sender and touches nothing else. */
  lemma TakeHead(s: State, s': State)
    requires ChannelOk(s) && s.chan != [] && s'.chan == s.chan[1..] && s'.a == s.a && s'.b == s.b
    ensures ChannelOk(s')
    ensures var w := s.chan[0].who;
            Waiting(s, w) && !Waiting(s', w) && Waiting(s', Other(w)) == Waiting(s, Other(w))
  {
  }

  lemma WinKeeps(s: State)
    requires Inv(s) && Enabled(s, Receive) && s.chan[0].o.Success?
    ensures Inv(Apply(s, Receive))
  {
    TakeHead(s, Apply(s, Receive));
  }

  lemma LossKeeps(s: State)
    requires Inv(s) && Enabled(s, Receive) && s.chan[0].o.Failure? && s.pending > 1
    ensures Inv(Apply(s, Receive))
  {
    TakeHead(s, Apply(s, Receive));
  }

  lemma LastLossKeeps(s: State)
    requires Inv(s) && Enabled(s, Receive) && s.chan[0].o.Failure? && s.pending == 1
    ensures Inv(Apply(s, Receive))
  {
    TakeHead(s, Apply(s, Receive));
    assert s.cfg.plan == s.launches + (if s.hedged then s.cfg.plan[2..] else s.cfg.plan[1..]);
  }

  lemma DrainKeeps(s: State)
    requires Inv(s) && Enabled(s, Drain)
    ensures Inv(Apply(s, Drain))
  {
    TakeHead(s, Apply(s, Drain));
  }

  lemma StepKeeps(s: State, x: Action)
    requires Inv(s) && Enabled(s, x)
    ensures Inv(Apply(s, x))
  {
    match x
    case Timer(permit) =>
    case Send(w, o) => SendKeeps(s, w, o);
    case Receive =>
      if s.chan[0].o.Success? {
        WinKeeps(s);
      } else if s.pending > 1 {
        LossKeeps(s);
      } else {
        LastLossKeeps(s);
      }
    case CtxDone =>
    case Drain => DrainKeeps(s);
  }

  /** The invariant holds after every schedule. */
  lemma {:induction false} RunInv(s: State, xs: seq<Action>)
    requires Inv(s) && Schedule(s, xs)
    ensures Inv(Run(s, xs))
    decreases |xs|
  {
    if xs != [] {
      StepKeeps(s, xs[0]);
      RunInv(Apply(s, xs[0]), xs[1..]);
    }
  }

  /** Every exit but a win cancels both sides. */
  ghost predicate ExitCancels(s: State) {
    s.phase.Racing? || s.phase.Won? || (s.cancelA && s.cancelB)
  }

  lemma {:induction false} RunCancels(s: State, xs: seq<Action>)
    requires |s.cfg.plan| >= 2 && Schedule(s, xs) && ExitCancels(s)
    ensures ExitCancels(Run(s, xs))
    decreases |xs|
  {
    if xs != [] {
      RunCancels(Apply(s, xs[0]), xs[1..]);
    }
  }

  /** In every schedule a call that ends without a winner has cancelled both attempts. */
  lemma {:induction false} LosersCancelled(cfg: Config, xs: seq<Action>)
    requires |cfg.plan| >= 2 && Schedule(Init(cfg), xs)
    ensures var s := Run(Init(cfg), xs); s.phase.Racing? || s.phase.Won? || (s.cancelA && s.cancelB)
  {
    RunCancels(Init(cfg), xs);
  }

  // ----- what it means, for every schedule

  /** The hedge starts at most once, only on a grant, and only on the second target. */
  lemma {:induction false} HedgeStartsOnce(cfg: Config, xs: seq<Action>)
    requires |cfg.plan| >= 2 && Schedule(Init(cfg), xs)
    ensures var s := Run(Init(cfg), xs);
            && s.grants <= 1 && s.launches == cfg.plan[..1 + s.grants] && (s.hedged <==> s.grants == 1)
  {
    RunInv(Init(cfg), xs);
  }

  /** The channel never holds more than two outcomes and an attempt that finishes can always send. */
  lemma {:induction false} SendsNeverBlock(cfg: Config, xs: seq<Action>, w: Who, o: Outcome)
    requires |cfg.plan| >= 2 && Schedule(Init(cfg), xs)
    ensures var s := Run(Init(cfg), xs);
            |s.chan| <= 2 && (Status(s, w).Running? ==> Enabled(s, Send(w, o)))
  {
    RunInv(Init(cfg), xs);
  }

  /** After a win: the winner is never discarded, the loser at most once and only if it succeeded;
      and once the draining goroutine is done, a successful loser has been discarded. While it is not
      done, the loser's outcome is still to come or waiting, so it will be. */
  lemma {:induction false} LoserDiscardedOnce(cfg: Config, xs: seq<Action>)
    requires |cfg.plan| >= 2 && Schedule(Init(cfg), xs)
    requires Run(Init(cfg), xs).phase.Won?
    ensures var s := Run(Init(cfg), xs);
            var loser := Other(s.phase.winner);
            && (s.discarded == [] || s.discarded == [loser])
            && (s.discarded == [loser] ==> Status(s, loser) == Sent(Success))
            && (cfg.drains && s.drain == 0 && Status(s, loser) == Sent(Success) ==> s.discarded == [loser])
            && (s.drain > 0 ==> Status(s, loser).Running? || Enabled(s, Drain))
  {
    RunInv(Init(cfg), xs);
  }

  /** The sequential fallback gets exactly the targets that were not launched. */
  lemma {:induction false} FallbackIsUnlaunchedSuffix(cfg: Config, xs: seq<Action>)
    requires |cfg.plan| >= 2 && Schedule(Init(cfg), xs)
    requires Run(Init(cfg), xs).phase.Fallback?
    ensures var s := Run(Init(cfg), xs);
            cfg.plan == s.launches + s.phase.rest && s.a != Sent(Success) && s.b != Sent(Success)
  {
    RunInv(Init(cfg), xs);
  }

  /** What taking an outcome leads to: a success wins; a failure with another attempt outstanding goes on; the
      last failure falls back to the targets that are left, stops if it was final, or leaves nothing to try. */
  lemma ReceiveEnds(s: State)
    requires Inv(s) && Enabled(s, Receive)
    ensures var r, m := Apply(s, Receive), s.chan[0];
            var last := m.o.Failure? && s.pending == 1;
            && (r.phase == Won(m.who) <==> m.o.Success?)
            && (r.phase.Racing? <==> m.o.Failure? && s.pending > 1)
            && (r.phase == Fallback(s.cfg.plan[|s.launches|..]) <==> last && |s.cfg.plan| > |s.launches| && !m.o.final)
            && (r.phase.Stopped? <==> last && |s.cfg.plan| > |s.launches| && m.o.final)
            && (r.phase.Exhausted? <==> last && |s.cfg.plan| == |s.launches|)
  {
  }

  lemma {:induction false} RunSnoc(s: State, xs: seq<Action>, x: Action)
    requires |s.cfg.plan| >= 2 && Schedule(s, xs) && Enabled(Run(s, xs), x)
    ensures Schedule(s, xs + [x]) && Run(s, xs + [x]) == Apply(Run(s, xs), x)
    decreases |xs|
  {
    if xs == [] {
      assert xs + [x] == [x] && [x][1..] == [];
    } else {
      assert (xs + [x])[1..] == xs[1..] + [x];
      RunSnoc(Apply(s, xs[0]), xs[1..], x);
    }
  }

  /** Every launched attempt but the sender of the waiting outcome has failed and been taken. */
  ghost predicate LastOutcome(s: State) {
    |s.chan| == 1 && s.chan[0].o.Failure? && !s.a.Running? && !s.b.Running?
  }

  /** In every schedule, when the last outcome is taken and it is a failure: the rest of the plan is tried exactly
      if there is a rest and the error is not final. */
  lemma {:induction false} FallbackIff(cfg: Config, xs: seq<Action>)
    requires |cfg.plan| >= 2 && Schedule(Init(cfg), xs)
    requires Run(Init(cfg), xs).phase.Racing? && LastOutcome(Run(Init(cfg), xs))
    ensures Schedule(Init(cfg), xs + [Receive]) && |Run(Init(cfg), xs).launches| <= |cfg.plan|
    ensures var s, r := Run(Init(cfg), xs), Run(Init(cfg), xs + [Receive]);
            var left, final := cfg.plan[|s.launches|..], s.chan[0].o.final;
            && (r.phase == Fallback(left) <==> left != [] && !final)
            && (r.phase.Stopped? <==> left != [] && final)
            && (r.phase.Exhausted? <==> left == [])
  {
    RunInv(Init(cfg), xs);
    RunSnoc(Init(cfg), xs, Receive);
    ReceiveEnds(Run(Init(cfg), xs));
  }

  /** For example, on every plan: the primary fails before the delay with an error that allows failover. */
  lemma FallbackReached(cfg: Config)
    requires |cfg.plan| >= 2
    ensures var xs := [Send(Primary, Failure(false)), Receive];
            Schedule(Init(cfg), xs) && Run(Init(cfg), xs).phase == Fallback(cfg.plan[1..])
  {
    var s1 := Apply(Init(cfg), Send(Primary, Failure(false)));
    RunCons(Init(cfg), Send(Primary, Failure(false)), [Receive]);
  }

  ghost predicate ContextCut(s: State, w: Who) {
    if w.Primary? then s.cancelA else s.cancelB
  }

  /** A winner keeps its own context exactly when the call has no deadline and it is not a hedge that
      won on a plan whose first two targets are equal; there the code cancels the wrong side. */
  lemma {:induction false} WinnerContextLiveIff(cfg: Config, xs: seq<Action>)
    requires |cfg.plan| >= 2 && Schedule(Init(cfg), xs)
    requires Run(Init(cfg), xs).phase.Won?
    ensures var s := Run(Init(cfg), xs);
            var w := s.phase.winner;
            && (!ContextCut(s, w) <==> !cfg.deadline && !(w.Hedge? && cfg.plan[0] == cfg.plan[1]))
            && (ContextCut(s, Other(w)) <==> cfg.deadline || !(w.Hedge? && cfg.plan[0] == cfg.plan[1]))
  {
    RunInv(Init(cfg), xs);
  }

  /** In every schedule that ends in a win, the winner keeps its context. */
  ghost predicate WinnersStayLive(cfg: Config)
    requires |cfg.plan| >= 2
  {
    forall xs :: Schedule(Init(cfg), xs) && Run(Init(cfg), xs).phase.Won?
      ==> !ContextCut(Run(Init(cfg), xs), Run(Init(cfg), xs).phase.winner)
  }

  /** Before the call: every winner will keep its context exactly when there is no deadline and the first
      two targets of the plan differ. */
  lemma WinnersStayLiveIff(cfg: Config)
    requires |cfg.plan| >= 2
    ensures WinnersStayLive(cfg) <==> !cfg.deadline && cfg.plan[0] != cfg.plan[1]
  {
    if !cfg.deadline && cfg.plan[0] != cfg.plan[1] {
      forall xs | Schedule(Init(cfg), xs) && Run(Init(cfg), xs).phase.Won?
        ensures !ContextCut(Run(Init(cfg), xs), Run(Init(cfg), xs).phase.winner)
      {
        WinnerContextLiveIff(cfg, xs);
      }
    } else {
      WinnerContextLiveIff(cfg, HedgeWin);
    }
  }

  const HedgeWin := [Timer(true), Send(Hedge, Success), Receive]

  lemma {:induction false} RunCons(s: State, x: Action, xs: seq<Action>)
    requires |s.cfg.plan| >= 2 && Enabled(s, x) && Schedule(Apply(s, x), xs)
    ensures Schedule(s, [x] + xs) && Run(s, [x] + xs) == Run(Apply(s, x), xs)
  {
    assert ([x] + xs)[1..] == xs;
  }

  /** For example, on a plan that names one target twice the winning hedge is the side that is cancelled. */
  lemma WinnerCanBeCut(t: Target)
    ensures var s := Init(Config([t, t], false, true));
            && Schedule(s, HedgeWin) && Run(s, HedgeWin).phase == Won(Hedge)
            && ContextCut(Run(s, HedgeWin), Hedge) && !ContextCut(Run(s, HedgeWin), Primary)
  {
    WinnerContextLiveIff(Config([t, t], false, true), HedgeWin);
  }

  /** The number of attempts reported (for a fallback, the part added to the sequential count) is
      the number launched, except when a final error or the end of the context stops the race:
      those exits report none. */
  lemma {:induction false} ReportedAttemptsIff(cfg: Config, xs: seq<Action>)
    requires |cfg.plan| >= 2 && Schedule(Init(cfg), xs)
    requires !Run(Init(cfg), xs).phase.Racing?
    ensures var s := Run(Init(cfg), xs);
            s.reported == |s.launches| <==> !s.phase.Stopped? && !s.phase.Ended?
  {
    RunInv(Init(cfg), xs);
  }

  /** No plan rules those exits out: on every plan a final error of the primary, or the end of the context,
      reports no attempt although one was made. */
  lemma ReportsNone(cfg: Config)
    requires |cfg.plan| >= 2
    ensures var xs := [Send(Primary, Failure(true)), Receive];
            Schedule(Init(cfg), xs) && Run(Init(cfg), xs).phase.Stopped?
            && Run(Init(cfg), xs).reported == 0 && |Run(Init(cfg), xs).launches| == 1
    ensures Schedule(Init(cfg), [CtxDone]) && Run(Init(cfg), [CtxDone]).phase.Ended?
            && Run(Init(cfg), [CtxDone]).reported == 0 && |Run(Init(cfg), [CtxDone]).launches| == 1
  {
    var s1 := Apply(Init(cfg), Send(Primary, Failure(true)));
    RunCons(Init(cfg), Send(Primary, Failure(true)), [Receive]);
  }

  /** The attempt succeeded, is not the winner, was not discarded, and nothing will discard it. */
  ghost predicate SuccessLost(s: State, w: Who) {
    Status(s, w) == Sent(Success) && s.phase != Won(w) && w !in s.discarded && s.drain == 0
  }

  /** Once the race is over, a success is lost exactly when the context ended it, or when another attempt won
      and no discard function was given. */
  lemma {:induction false} SuccessLostIff(cfg: Config, xs: seq<Action>, w: Who)
    requires |cfg.plan| >= 2 && Schedule(Init(cfg), xs)
    requires !Run(Init(cfg), xs).phase.Racing?
    ensures var s := Run(Init(cfg), xs);
            SuccessLost(s, w) <==>
              Status(s, w) == Sent(Success) && (s.phase.Ended? || (s.phase == Won(Other(w)) && !cfg.drains))
  {
    RunInv(Init(cfg), xs);
  }

  /** The context exit leaves a finished success in the channel that nothing will discard. */
  lemma ContextExitLeaks(plan: seq<Target>)
    requires |plan| >= 2
    ensures var s := Init(Config(plan, false, true));
            var xs := [Send(Primary, Success), CtxDone];
            Schedule(s, xs) && var r := Run(s, xs);
            && r.chan == [Message(Primary, Success)] && SuccessLost(r, Primary)
            && !Enabled(r, Drain) && !Enabled(r, Receive)
  {
    var s := Init(Config(plan, false, true));
    var s1 := Apply(s, Send(Primary, Success));
    RunCons(s, Send(Primary, Success), [CtxDone]);
  }

  /** Without a discard function, as non-streaming calls are made, a loser that succeeds is lost. */
  lemma UndrainedLoserLeaks(plan: seq<Target>)
    requires |plan| >= 2
    ensures var s := Init(Config(plan, false, false));
            var xs := HedgeWin + [Send(Primary, Success)];
            Schedule(s, xs) && Run(s, xs).phase == Won(Hedge) && SuccessLost(Run(s, xs), Primary)
  {
    var s := Init(Config(plan, false, false));
    var s1 := Apply(s, Timer(true));
    var s2 := Apply(s1, Send(Hedge, Success));
    var s3 := Apply(s2, Receive);
    RunCons(s2, Receive, [Send(Primary, Success)]);
    RunCons(s1, Send(Hedge, Success), [Receive, Send(Primary, Success)]);
    RunCons(s, Timer(true), [Send(Hedge, Success), Receive, Send(Primary, Success)]);
    assert HedgeWin + [Send(Primary, Success)]
        == [Timer(true)] + [Send(Hedge, Success), Receive, Send(Primary, Success)];
  }
}
