/**
 Lease-based leader election (internal/proof/leader.go).

 Replicas share one Redis key with an expiry. Every command executes atomically at Redis; its reply
 is handled by the replica later, and may be an error although the command was executed. The claims
 are about every interleaving of commands, replies and the passing of time.
 */
module Leader {

  /** The shared key: absent, or a holder with an expiry time. */
  datatype Lock = Absent | Held(owner: string, expiry: int)

  /** The live holder, if any; an expired key is as good as absent. */
  predicate Live(k: Lock, now: int) {
    k.Held? && now < k.expiry
  }

  predicate HeldBy(k: Lock, now: int, id: string) {
    Live(k, now) && k.owner == id
  }

  /** SET NX with a time to live. */
  function Acquired(k: Lock, now: int, id: string, ttl: int): Lock {
    if Live(k, now) then k else Held(id, now + ttl)
  }

  /** renewScript: extend only one's own key. */
  function Renewed(k: Lock, now: int, id: string, ttl: int): Lock {
    if HeldBy(k, now, id) then Held(id, now + ttl) else k
  }

  /** releaseScript: delete only one's own key. */
  function Released(k: Lock, now: int, id: string): Lock {
    if HeldBy(k, now, id) then Absent else k
  }

  class Redis {
    var key: Lock

    method SetNX(now: int, id: string, ttl: int) returns (ok: bool)
      modifies this
      ensures ok <==> !Live(old(key), now)
      ensures key == Acquired(old(key), now, id, ttl)
    {
      if Live(key, now) {
        return false;
      }
      key := Held(id, now + ttl);
      return true;
    }

    method Renew(now: int, id: string, ttl: int) returns (res: int)
      modifies this
      ensures res == (if HeldBy(old(key), now, id) then 1 else 0)
      ensures key == Renewed(old(key), now, id, ttl)
    {
      if HeldBy(key, now, id) {
        key := Held(key.owner, now + ttl);
        return 1;
      }
      return 0;
    }

    method Release(now: int, id: string) returns (res: int)
      modifies this
      ensures res == (if HeldBy(old(key), now, id) then 1 else 0)
      ensures key == Released(old(key), now, id)
    {
      if HeldBy(key, now, id) {
        key := Absent;
        return 1;
      }
      return 0;
    }
  }

  /** How a command fares on the network: never executed, or executed and answered, or executed with
      the answer lost. */
  datatype Network = Delivered | Unsent | AnswerLost

  class Replica {
    const id: string
    const ttl: int
    const redis: Redis
    var isLeader: bool

    constructor (id: string, ttl: int, redis: Redis)
      ensures this.id == id && this.ttl == ttl && this.redis == redis && !isLeader
    {
      this.id, this.ttl, this.redis := id, ttl, redis;
      isLeader := false;
    }

    method Step(now: int, net: Network)
      modifies this, redis
      ensures redis.key == if net.Unsent? then old(redis.key)
                           else if old(isLeader) then Renewed(old(redis.key), now, id, ttl)
                           else Acquired(old(redis.key), now, id, ttl)
      ensures isLeader <==> net.Delivered? && (if old(isLeader) then HeldBy(old(redis.key), now, id)
                                               else !Live(old(redis.key), now))
    {
      if isLeader {
        var res := 0;
        if !net.Unsent? {
          res := redis.Renew(now, id, ttl);
        }
        if !net.Delivered? || res == 0 {
          isLeader := false;
        }
      } else {
        var ok := false;
        if !net.Unsent? {
          ok := redis.SetNX(now, id, ttl);
        }
        if net.Delivered? && ok {
          isLeader := true;
        }
      }
    }

    method Release(now: int, net: Network)
      modifies this, redis
      ensures redis.key == if old(isLeader) && !net.Unsent? then Released(old(redis.key), now, id) else old(redis.key)
      ensures !isLeader
    {
      if isLeader {
        if !net.Unsent? {
          var _ := redis.Release(now, id);
        }
        isLeader := false;
      }
    }
  }

  // ----- many replicas, replies handled later

  /** A replica between commands, or waiting for the answer to one. */
  datatype Phase = Idle | AwaitAcquire(won: bool) | AwaitRenew(kept: bool) | AwaitRelease

  /** `lease` is the expiry last granted to this replica, 0 before the first grant and after its key
      was deleted by its own release. */
  datatype Member = Member(isLeader: bool, phase: Phase, lease: int)

  datatype State = State(now: int, key: Lock, members: map<string, Member>)

  datatype Action =
    | Tick(ms: nat)
    | Command(id: string, sent: bool)        // Step's command; `sent` is whether Redis executed it
    | Reply(id: string, error: bool)
    | GiveUp(id: string, sent: bool)         // release

  predicate Enabled(s: State, a: Action) {
    match a
    case Tick(_) => true
    case Command(id, _) => id in s.members && s.members[id].phase.Idle?
    case Reply(id, _) => id in s.members && !s.members[id].phase.Idle?
    case GiveUp(id, _) => id in s.members && s.members[id].phase.Idle? && s.members[id].isLeader
  }

  function Apply(ttl: int, s: State, a: Action): State
    requires Enabled(s, a)
  {
    match a
    case Tick(ms) => s.(now := s.now + ms)
    case Command(id, sent) =>
      var r := s.members[id];
      if r.isLeader then
        var kept := sent && HeldBy(s.key, s.now, id);
        s.(key := if sent then Renewed(s.key, s.now, id, ttl) else s.key,
           members := s.members[id := r.(phase := AwaitRenew(kept), lease := if kept then s.now + ttl else r.lease)])
      else
        var won := sent && !Live(s.key, s.now);
        s.(key := if sent then Acquired(s.key, s.now, id, ttl) else s.key,
           members := s.members[id := r.(phase := AwaitAcquire(won), lease := if won then s.now + ttl else r.lease)])
    case Reply(id, error) =>
      var r := s.members[id];
      var leads := match r.phase
                   case AwaitAcquire(won) => r.isLeader || (won && !error)
                   case AwaitRenew(kept) => r.isLeader && kept && !error
                   case _ => false;
      s.(members := s.members[id := r.(isLeader := leads, phase := Idle)])
    case GiveUp(id, sent) =>
      var r := s.members[id];
      var gone := sent && HeldBy(s.key, s.now, id);
      s.(key := if sent then Released(s.key, s.now, id) else s.key,
         members := s.members[id := r.(phase := AwaitRelease, lease := if gone then 0 else r.lease)])
  }

  ghost predicate Reaches(ttl: int, s: State, xs: seq<Action>, t: State)
    decreases |xs|
  {
    if xs == [] then t == s else Enabled(s, xs[0]) && Reaches(ttl, Apply(ttl, s, xs[0]), xs[1..], t)
  }

  ghost predicate Start(s: State) {
    && s.now >= 0 && s.key == Absent
    && forall id :: id in s.members ==> s.members[id] == Member(false, Idle, 0)
  }

  /** A replica's lease is running exactly when the key is live and its own, with that expiry. */
  ghost predicate LeaseOk(s: State, id: string)
    requires id in s.members
  {
    (s.now < s.members[id].lease <==> HeldBy(s.key, s.now, id))
    && (HeldBy(s.key, s.now, id) ==> s.key.expiry == s.members[id].lease)
  }

  ghost predicate Inv(s: State) {
    && s.now >= 0
    && (forall id :: id in s.members ==> LeaseOk(s, id))
    && (s.key.Held? ==> s.key.owner in s.members)
  }

  lemma {:induction false} ReachesInv(ttl: int, s: State, xs: seq<Action>, t: State)
    requires ttl >= 1 && Inv(s) && Reaches(ttl, s, xs, t)
    ensures Inv(t)
    decreases |xs|
  {
    if xs != [] {
      ReachesInv(ttl, Apply(ttl, s, xs[0]), xs[1..], t);
    }
  }

  ghost predicate Leads(s: State, id: string) {
    id in s.members && s.members[id].isLeader && s.now < s.members[id].lease
  }

  /** In every run at most one replica has its flag set with its lease running, and it is the one the
      key names. For a replica whose flag is set, holding the key and a running lease are the same. */
  lemma {:induction false} OneLeader(ttl: int, s: State, xs: seq<Action>, t: State, a: string, b: string)
    requires ttl >= 1 && Start(s) && Reaches(ttl, s, xs, t)
    ensures Leads(t, a) && Leads(t, b) ==> a == b
    ensures a in t.members && t.members[a].isLeader ==> (Leads(t, a) <==> HeldBy(t.key, t.now, a))
  {
    ReachesInv(ttl, s, xs, t);
    assert a in t.members ==> LeaseOk(t, a);
    assert b in t.members ==> LeaseOk(t, b);
  }

  /** What the scripts grant: a free key is held for exactly the time to live, a renewal extends one's own key to
      exactly that, and a release frees it. */
  lemma GrantsExactly(k: Lock, now: int, id: string, ttl: int, t: int)
    ensures !Live(k, now) ==> (HeldBy(Acquired(k, now, id, ttl), t, id) <==> t < now + ttl)
    ensures HeldBy(k, now, id) ==> (HeldBy(Renewed(k, now, id, ttl), t, id) <==> t < now + ttl)
    ensures HeldBy(k, now, id) ==> !Live(Released(k, now, id), t)
  {
  }

  /** Whoever finds the key free, or its own still live, and gets an answer leads for a whole time to live. */
  lemma LeadsAfterStep(ttl: int, s: State, id: string)
    requires ttl >= 1 && Inv(s) && id in s.members && s.members[id].phase.Idle?
    requires if s.members[id].isLeader then s.now < s.members[id].lease else !Live(s.key, s.now)
    ensures var t := Apply(ttl, Apply(ttl, s, Command(id, true)), Reply(id, false));
            Leads(t, id) && t.members[id].lease == s.now + ttl && HeldBy(t.key, t.now, id)
  {
    assert LeaseOk(s, id);
  }

  /** Until its lease ends a leader keeps leading, whatever the others do. */
  lemma {:induction false} LeadsUntilEnd(ttl: int, s: State, xs: seq<Action>, t: State, id: string)
    requires ttl >= 1 && Inv(s) && Leads(s, id) && Reaches(ttl, s, xs, t)
    requires forall i :: 0 <= i < |xs| ==> !Acts(xs[i], id)
    ensures Leads(t, id) <==> t.now < s.members[id].lease
    ensures id in t.members && t.members[id] == s.members[id]
    decreases |xs|
  {
    if xs != [] {
      var s' := Apply(ttl, s, xs[0]);
      assert forall i :: 0 <= i < |xs[1..]| ==> xs[1..][i] == xs[i + 1];
      assert !Acts(xs[0], id);
      if Leads(s', id) {
        LeadsUntilEnd(ttl, s', xs[1..], t, id);
      } else {
        Unchanged(ttl, s', xs[1..], t, id);
      }
    }
  }

  lemma {:induction false} Unchanged(ttl: int, s: State, xs: seq<Action>, t: State, id: string)
    requires id in s.members && Reaches(ttl, s, xs, t) && forall i :: 0 <= i < |xs| ==> !Acts(xs[i], id)
    ensures id in t.members && t.members[id] == s.members[id] && s.now <= t.now
    decreases |xs|
  {
    if xs != [] {
      assert !Acts(xs[0], id);
      assert forall i :: 0 <= i < |xs[1..]| ==> xs[1..][i] == xs[i + 1];
      Unchanged(ttl, Apply(ttl, s, xs[0]), xs[1..], t, id);
    }
  }

  /** An answer that is an error never makes a leader, and ends a leadership at its renewal; an answer that says no does
      the same. */
  lemma RefusedReply(ttl: int, s: State, id: string, error: bool)
    requires Enabled(s, Reply(id, error))
    requires error || s.members[id].phase == AwaitAcquire(false) || s.members[id].phase == AwaitRenew(false)
    ensures var flag := Apply(ttl, s, Reply(id, error)).members[id].isLeader;
            flag <==> s.members[id].isLeader && s.members[id].phase.AwaitAcquire?
  {
  }

  predicate Acts(x: Action, id: string) {
    !x.Tick? && x.id == id
  }

  /** No replica extends or deletes a key that another replica holds. */
  lemma OthersKeyUntouched(ttl: int, s: State, x: Action, owner: string)
    requires Enabled(s, x) && HeldBy(s.key, s.now, owner) && !Acts(x, owner)
    ensures Apply(ttl, s, x).key == s.key
  {
  }

  /** The flag alone excludes nobody: a replica that does not run for a whole lease keeps its flag while
      another one acquires. */
  lemma TwoFlagsPossible(ttl: nat)
    requires ttl >= 1
    ensures var s := State(0, Absent, map["a" := Member(false, Idle, 0), "b" := Member(false, Idle, 0)]);
            var xs := [Command("a", true), Reply("a", false), Tick(ttl), Command("b", true), Reply("b", false)];
            exists t :: Reaches(ttl, s, xs, t)
                        && "a" in t.members && t.members["a"].isLeader && !Leads(t, "a") && Leads(t, "b")
  {
    var s := State(0, Absent, map["a" := Member(false, Idle, 0), "b" := Member(false, Idle, 0)]);
    var xs := [Command("a", true), Reply("a", false), Tick(ttl), Command("b", true), Reply("b", false)];
    var s1 := Apply(ttl, s, xs[0]);
    var s2 := Apply(ttl, s1, xs[1]);
    var s3 := Apply(ttl, s2, xs[2]);
    var s4 := Apply(ttl, s3, xs[3]);
    var t := Apply(ttl, s4, xs[4]);
    assert Reaches(ttl, t, xs[5..], t);
    assert xs[4..][0] == xs[4] && xs[4..][1..] == xs[5..] && Reaches(ttl, s4, xs[4..], t);
    assert xs[3..][0] == xs[3] && xs[3..][1..] == xs[4..] && Reaches(ttl, s3, xs[3..], t);
    assert xs[2..][0] == xs[2] && xs[2..][1..] == xs[3..] && Reaches(ttl, s2, xs[2..], t);
    assert xs[1..][0] == xs[1] && xs[1..][1..] == xs[2..] && Reaches(ttl, s1, xs[1..], t);
    assert Reaches(ttl, s, xs, t);
  }
}
