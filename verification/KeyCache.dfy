/**
 The credential cache (internal/secrets/keycache.go) and its epoch-guarded fill.

 A load reads the epoch, fetches the active credential without holding the lock, and stores it only
 if the epoch has not moved. Rotations and purges may come at any point in between. A credential is
 identified by the version of its provider's secret it was fetched from.
 */
module KeyCache {

  datatype Entry = Entry(version: nat, expires: int, staleUntil: int)

  type Cache = map<string, Entry>

  predicate HasSuffix(s: string, suffix: string) {
    |suffix| <= |s| && s[|s| - |suffix|..] == suffix
  }

  /** The provider itself, or a tenant override `tenant/provider`. */
  predicate Covers(provider: string, name: string) {
    name == provider || HasSuffix(name, "/" + provider)
  }

  /** The White_Space characters of Unicode. */
  predicate IsSpace(c: char) {
    || '\t' <= c <= '\r' || c == ' ' || c == '\U{85}' || c == '\U{A0}' || c == '\U{1680}'
    || '\U{2000}' <= c <= '\U{200A}' || c == '\U{2028}' || c == '\U{2029}' || c == '\U{202F}'
    || c == '\U{205F}' || c == '\U{3000}'
  }

  function TrimSpace(s: string): string {
    if s != "" && IsSpace(s[0]) then TrimSpace(s[1..])
    else if s != "" && IsSpace(s[|s| - 1]) then TrimSpace(s[..|s| - 1])
    else s
  }

  /** What a purge of `provider` leaves: nothing it covers, everything else. */
  function Purged(m: Cache, provider: string): Cache {
    map n | n in m && !Covers(provider, n) :: m[n]
  }

  /** A load that read the epoch `loadEpoch` stores its entry only if the epoch has not moved. */
  function Filled(m: Cache, epoch: nat, name: string, loadEpoch: nat, e: Entry): Cache {
    if epoch == loadEpoch then m[name := e] else m
  }

  predicate IsFresh(m: Cache, name: string, now: int) {
    name in m && now < m[name].expires
  }

  /** Still within its stale grace. */
  predicate InGrace(m: Cache, name: string, now: int) {
    name in m && now < m[name].staleUntil
  }

  /** A purge removes exactly the provider's own entry and those of tenants, `tenant/provider`. */
  lemma PurgedExactly(m: Cache, provider: string, n: string)
    ensures n in Purged(m, provider)
            <==> n in m && n != provider && forall tenant: string :: n != tenant + "/" + provider
    ensures n in Purged(m, provider) ==> Purged(m, provider)[n] == m[n]
  {
    var suffix := "/" + provider;
    if HasSuffix(n, suffix) {
      assert n == n[..|n| - |suffix|] + "/" + provider;
    }
    forall tenant: string ensures n == tenant + "/" + provider ==> HasSuffix(n, suffix) {
      assert tenant + "/" + provider == tenant + suffix;
    }
  }

  /** Trimming removes white space at both ends and nothing else. */
  lemma {:induction false} TrimmedExactly(s: string) returns (a: string, b: string)
    ensures s == a + TrimSpace(s) + b
    ensures (forall c :: c in a ==> IsSpace(c)) && (forall c :: c in b ==> IsSpace(c))
    ensures var t := TrimSpace(s); t != "" ==> !IsSpace(t[0]) && !IsSpace(t[|t| - 1])
    decreases |s|
  {
    a, b := "", "";
    if s != "" && IsSpace(s[0]) {
      a, b := TrimmedExactly(s[1..]);
      a := [s[0]] + a;
    } else if s != "" && IsSpace(s[|s| - 1]) {
      a, b := TrimmedExactly(s[..|s| - 1]);
      b := b + [s[|s| - 1]];
    }
  }

  class Store {
    var m: Cache
    var epoch: nat

    constructor ()
      ensures m == map[] && epoch == 0
    {
      m, epoch := map[], 0;
    }

    /** The fast path and the double check: a fresh entry. */
    method Lookup(name: string, now: int) returns (hit: bool, version: nat)
      ensures hit <==> IsFresh(m, name, now)
      ensures hit ==> version == m[name].version
    {
      hit, version := false, 0;
      if name in m && now < m[name].expires {
        hit, version := true, m[name].version;
      }
    }

    /** The end of a successful load: stored only in the epoch it started in. */
    method Fill(name: string, loadEpoch: nat, e: Entry)
      modifies this`m
      ensures m == Filled(old(m), epoch, name, loadEpoch, e)
    {
      if epoch == loadEpoch {
        m := m[name := e];
      }
    }

    /** The fallback of a failed refresh: an entry within its stale grace. */
    method Stale(name: string, now: int) returns (hit: bool, version: nat)
      ensures hit <==> InGrace(m, name, now)
      ensures hit ==> version == m[name].version
    {
      hit, version := false, 0;
      if name in m && now < m[name].staleUntil {
        hit, version := true, m[name].version;
      }
    }

    method Purge()
      modifies this
      ensures m == map[] && epoch == old(epoch) + 1
    {
      epoch := epoch + 1;
      m := map[];
    }

    /** Entries are deleted one by one, in whatever order the map yields them. */
    method PurgeProvider(provider: string)
      modifies this
      ensures TrimSpace(provider) == "" ==> m == old(m) && epoch == old(epoch)
      ensures TrimSpace(provider) != "" ==> m == Purged(old(m), TrimSpace(provider)) && epoch == old(epoch) + 1
    {
      var p := TrimSpace(provider);
      if p == "" {
        return;
      }
      epoch := epoch + 1;
      var left := m.Keys;
      while left != {}
        invariant left <= old(m).Keys && epoch == old(epoch) + 1
        invariant forall n :: n in m <==> n in old(m) && (n in left || !Covers(p, n))
        invariant forall n :: n in m ==> m[n] == old(m)[n]
        decreases left
      {
        var name :| name in left;
        if Covers(p, name) {
          m := m - {name};
        }
        left := left - {name};
      }
      assert m == Purged(old(m), p);
    }
  }

  // ----- loads, rotations and purges in any order

  /** A call for a credential that missed the cache. Callers that ask for the same name meanwhile join it. */
  datatype Load =
    | Missed(name: string)                              // not in the cache, nothing read yet
    | Started(name: string, epoch: nat)                 // epoch read
    | Fetched(name: string, epoch: nat, version: nat)   // credential read from the source
    | Failed(name: string)                              // the fetch failed
    | Returned(name: string, version: nat)              // what all its callers receive
    | GaveUp(name: string)

  predicate InFlight(l: Load) {
    !l.Returned? && !l.GaveUp?
  }

  /** `active` is the source; `floor` is the version active at a name's last purge. */
  datatype State = State(m: Cache, epoch: nat, loads: seq<Load>, active: string -> nat, floor: string -> nat)

  datatype Action =
    | Hit(name: string, now: int)                         // the fast path
    | Begin(name: string)
    | Join(i: nat)                                        // another call for the name of load `i`
    | Recheck(i: nat, now: int)                           // the load finds a fresh entry after all
    | ReadEpoch(i: nat)
    | Fetch(i: nat)
    | FetchFails(i: nat)
    | Finish(i: nat, expires: int, staleUntil: int)
    | Fallback(i: nat, now: int)
    | Rotate(name: string, version: nat)
    | PurgeAll
    | PurgeOne(provider: string)

  predicate Enabled(s: State, a: Action) {
    match a
    case Hit(name, now) => IsFresh(s.m, name, now)
    case Begin(name) => forall i :: 0 <= i < |s.loads| && s.loads[i].name == name ==> !InFlight(s.loads[i])
    case Join(i) => i < |s.loads| && InFlight(s.loads[i])
    case Recheck(i, now) => i < |s.loads| && s.loads[i].Missed? && IsFresh(s.m, s.loads[i].name, now)
    case ReadEpoch(i) => i < |s.loads| && s.loads[i].Missed?
    case Fetch(i) => i < |s.loads| && s.loads[i].Started?
    case FetchFails(i) => i < |s.loads| && s.loads[i].Started?
    case Finish(i, _, _) => i < |s.loads| && s.loads[i].Fetched?
    case Fallback(i, _) => i < |s.loads| && s.loads[i].Failed?
    case Rotate(name, v) => s.active(name) < v
    case PurgeAll => true
    case PurgeOne(_) => true
  }

  function Apply(s: State, a: Action): State
    requires Enabled(s, a)
  {
    match a
    case Hit(name, _) => s
    case Begin(name) => s.(loads := s.loads + [Missed(name)])
    case Join(i) => s
    case Recheck(i, _) =>
      var n := s.loads[i].name;
      s.(loads := s.loads[i := Returned(n, s.m[n].version)])
    case ReadEpoch(i) => s.(loads := s.loads[i := Started(s.loads[i].name, s.epoch)])
    case Fetch(i) =>
      var l := s.loads[i];
      s.(loads := s.loads[i := Fetched(l.name, l.epoch, s.active(l.name))])
    case FetchFails(i) => s.(loads := s.loads[i := Failed(s.loads[i].name)])
    case Finish(i, expires, staleUntil) =>
      var l := s.loads[i];
      s.(m := Filled(s.m, s.epoch, l.name, l.epoch, Entry(l.version, expires, staleUntil)),
         loads := s.loads[i := Returned(l.name, l.version)])
    case Fallback(i, now) =>
      var n := s.loads[i].name;
      s.(loads := s.loads[i := if InGrace(s.m, n, now) then Returned(n, s.m[n].version) else GaveUp(n)])
    case Rotate(name, v) => s.(active := n => if n == name then v else s.active(n))
    case PurgeAll => s.(epoch := s.epoch + 1, m := map[], floor := s.active)
    case PurgeOne(provider) =>
      var p := TrimSpace(provider);
      if p == "" then s
      else s.(epoch := s.epoch + 1, m := Purged(s.m, p), floor := Raised(s, p))
  }

  function RaisedAt(s: State, p: string, n: string): nat {
    if Covers(p, n) then s.active(n) else s.floor(n)
  }

  function Raised(s: State, p: string): string -> nat {
    n => RaisedAt(s, p, n)
  }

  /** A run: the states before, between and after the actions. */
  ghost predicate Run(ss: seq<State>, xs: seq<Action>) {
    && |ss| == |xs| + 1
    && forall n {:trigger xs[n]} :: 0 <= n < |xs| ==> Enabled(ss[n], xs[n]) && ss[n + 1] == Apply(ss[n], xs[n])
  }

  ghost predicate Empty(s: State) {
    s.m == map[] && s.loads == [] && forall n :: s.floor(n) <= s.active(n)
  }

  /** A load can still store only in the current epoch, and then it is recent enough. */
  ghost predicate LoadOk(s: State, l: Load) {
    match l
    case Started(_, e) => e <= s.epoch
    case Fetched(name, e, v) => e <= s.epoch && v <= s.active(name) && (e == s.epoch ==> s.floor(name) <= v)
    case _ => true
  }

  ghost predicate Inv(s: State) {
    && (forall n :: s.floor(n) <= s.active(n))
    && (forall n :: n in s.m ==> s.floor(n) <= s.m[n].version <= s.active(n))
    && (forall i :: 0 <= i < |s.loads| ==> LoadOk(s, s.loads[i]))
  }

  lemma ApplyKeeps(s: State, a: Action)
    requires Inv(s) && Enabled(s, a)
    ensures Inv(Apply(s, a))
  {
    var s' := Apply(s, a);
    forall i | 0 <= i < |s'.loads| ensures LoadOk(s', s'.loads[i]) {
      assert i < |s.loads| ==> LoadOk(s, s.loads[i]);
    }
  }

  lemma StepInv(ss: seq<State>, xs: seq<Action>, k: nat)
    requires Run(ss, xs) && k < |xs| && Inv(ss[k])
    ensures Inv(ss[k + 1])
  {
    ApplyKeeps(ss[k], xs[k]);
  }

  lemma {:induction false} RunInv(ss: seq<State>, xs: seq<Action>, j: nat, k: nat)
    requires Run(ss, xs) && j <= k <= |xs| && Inv(ss[j])
    ensures Inv(ss[k])
    decreases k
  {
    if j < k {
      RunInv(ss, xs, j, k - 1);
      StepInv(ss, xs, k - 1);
    }
  }

  /** In every interleaving, each stored credential comes from a version at least as new as the one
      active at that name's last purge, so no hit after rotate-then-purge reads an older one. */
  lemma {:induction false} StoredIsRecent(ss: seq<State>, xs: seq<Action>, k: nat, n: string)
    requires Run(ss, xs) && Empty(ss[0]) && k <= |xs| && n in ss[k].m
    ensures ss[k].floor(n) <= ss[k].m[n].version <= ss[k].active(n)
  {
    RunInv(ss, xs, 0, k);
  }

  lemma {:induction false} FloorStays(ss: seq<State>, xs: seq<Action>, j: nat, k: nat, n: string)
    requires Run(ss, xs) && j <= k <= |xs| && Inv(ss[j])
    ensures ss[j].floor(n) <= ss[k].floor(n)
    decreases k
  {
    if j < k {
      FloorStays(ss, xs, j, k - 1, n);
      RunInv(ss, xs, j, k - 1);
      assert ss[k] == Apply(ss[k - 1], xs[k - 1]);
    }
  }

  /** The action purges the name. */
  predicate Purges(a: Action, name: string) {
    a.PurgeAll? || (a.PurgeOne? && TrimSpace(a.provider) != "" && Covers(TrimSpace(a.provider), name))
  }

  /** Rotate, then purge, then anything: what is stored for the provider is never older than the
      version it was rotated to. */
  lemma {:induction false} NoOldCredentialAfterPurge(ss: seq<State>, xs: seq<Action>, j: nat, k: nat, n: string)
    requires Run(ss, xs) && Empty(ss[0]) && j < k <= |xs| && Purges(xs[j], n) && n in ss[k].m
    ensures ss[j].active(n) <= ss[k].m[n].version
  {
    RunInv(ss, xs, 0, j);
    RunInv(ss, xs, 0, j + 1);
    assert ss[j + 1] == Apply(ss[j], xs[j]) && ss[j + 1].floor(n) == ss[j].active(n);
    FloorStays(ss, xs, j + 1, k, n);
    StoredIsRecent(ss, xs, k, n);
  }

  // ----- what the cache holds

  /** The action stores an entry for the name: a load that finishes in its own epoch. */
  predicate Stores(s: State, a: Action, name: string)
    requires Enabled(s, a)
  {
    a.Finish? && s.loads[a.i].name == name && s.loads[a.i].epoch == s.epoch
  }

  function StoredEntry(s: State, a: Action): Entry
    requires Enabled(s, a) && a.Finish?
  {
    Entry(s.loads[a.i].version, a.expires, a.staleUntil)
  }

  /** What one step does to a name: a purge removes it, a store sets it, anything else leaves it. */
  lemma EntryStep(s: State, a: Action, name: string)
    requires Enabled(s, a)
    ensures var m' := Apply(s, a).m;
            && (Purges(a, name) ==> name !in m')
            && (Stores(s, a, name) ==> name in m' && m'[name] == StoredEntry(s, a))
            && (!Purges(a, name) && !Stores(s, a, name) ==>
                  (name in m' <==> name in s.m) && (name in s.m ==> m'[name] == s.m[name]))
  {
  }

  datatype Option<T> = None | Some(value: T)

  /** The step that last stored the name before step `k`, unless it was purged since. */
  ghost function LastStore(ss: seq<State>, xs: seq<Action>, k: nat, name: string): Option<nat>
    requires Run(ss, xs) && k <= |xs|
  {
    if k == 0 || Purges(xs[k - 1], name) then None
    else if Stores(ss[k - 1], xs[k - 1], name) then Some(k - 1)
    else LastStore(ss, xs, k - 1, name)
  }

  /** Step `g` neither replaces nor purges the name. */
  ghost predicate LeftAlone(ss: seq<State>, xs: seq<Action>, g: nat, name: string)
    requires Run(ss, xs) && g < |xs|
  {
    !Stores(ss[g], xs[g], name) && !Purges(xs[g], name)
  }

  /** No step after `f` and before `k` replaces or purges the name. */
  ghost predicate Untouched(ss: seq<State>, xs: seq<Action>, f: nat, k: nat, name: string)
    requires Run(ss, xs) && k <= |xs|
  {
    forall g :: f < g < k ==> LeftAlone(ss, xs, g, name)
  }

  lemma UntouchedNext(ss: seq<State>, xs: seq<Action>, f: nat, k: nat, name: string)
    requires Run(ss, xs) && f < k < |xs|
    ensures Untouched(ss, xs, f, k + 1, name) <==> Untouched(ss, xs, f, k, name) && LeftAlone(ss, xs, k, name)
  {
  }

  /** The last store is the step that stored the name and was followed by nothing that replaces or purges it. */
  lemma {:induction false} LastStoreMeans(ss: seq<State>, xs: seq<Action>, k: nat, name: string, f: nat)
    requires Run(ss, xs) && k <= |xs| && f < k
    ensures LastStore(ss, xs, k, name) == Some(f) <==> Stores(ss[f], xs[f], name) && Untouched(ss, xs, f, k, name)
    decreases k
  {
    if f < k - 1 {
      LastStoreMeans(ss, xs, k - 1, name, f);
      UntouchedNext(ss, xs, f, k - 1, name);
    } else {
      EarlierStore(ss, xs, k - 1, name);
    }
  }

  lemma {:induction false} EarlierStore(ss: seq<State>, xs: seq<Action>, k: nat, name: string)
    requires Run(ss, xs) && k <= |xs|
    ensures var f := LastStore(ss, xs, k, name);
            f.Some? ==> f.value < k && xs[f.value].Finish? && Stores(ss[f.value], xs[f.value], name)
    decreases k
  {
    if k > 0 {
      EarlierStore(ss, xs, k - 1, name);
    }
  }

  /** In every run the cache holds for a name exactly what the last load stored that finished in its own epoch, if
      the name was not purged since. */
  lemma {:induction false} HoldsIff(ss: seq<State>, xs: seq<Action>, k: nat, name: string)
    requires Run(ss, xs) && Empty(ss[0]) && k <= |xs|
    ensures var f := LastStore(ss, xs, k, name);
            && (name in ss[k].m <==> f.Some?)
            && (f.Some? ==> f.value < k && xs[f.value].Finish?
                            && ss[k].m[name] == StoredEntry(ss[f.value], xs[f.value]))
    decreases k
  {
    if k > 0 {
      HoldsIff(ss, xs, k - 1, name);
      EntryStep(ss[k - 1], xs[k - 1], name);
    }
  }

  /** So a call is answered from the cache if and only if such a load is there and its entry has not expired; the
      answer is the version that load fetched. */
  lemma {:induction false} HitIff(ss: seq<State>, xs: seq<Action>, k: nat, name: string, now: int)
    requires Run(ss, xs) && Empty(ss[0]) && k <= |xs|
    ensures var f := LastStore(ss, xs, k, name);
            && (f.Some? ==> f.value < k && xs[f.value].Finish?)
            && (Enabled(ss[k], Hit(name, now)) <==> f.Some? && now < xs[f.value].expires)
            && (f.Some? && now < xs[f.value].expires ==>
                  VersionFor(ss[k], Hit(name, now)) == ss[f.value].loads[xs[f.value].i].version)
  {
    HoldsIff(ss, xs, k, name);
  }

  /** A load that could not fetch is answered from the cache if and only if the last stored entry is within its stale
      grace, and then with that entry's version. */
  lemma {:induction false} FallbackIff(ss: seq<State>, xs: seq<Action>, k: nat)
    requires Run(ss, xs) && Empty(ss[0]) && k < |xs| && xs[k].Fallback?
    ensures var l := ss[k].loads[xs[k].i];
            var f := LastStore(ss, xs, k, l.name);
            && (f.Some? ==> f.value < k && xs[f.value].Finish?)
            && ss[k + 1].loads[xs[k].i] ==
                 if f.Some? && xs[k].now < xs[f.value].staleUntil
                 then Returned(l.name, ss[f.value].loads[xs[f.value].i].version)
                 else GaveUp(l.name)
  {
    HoldsIff(ss, xs, k, ss[k].loads[xs[k].i].name);
  }

  /** Right after such a load a call before the expiry is answered with what it fetched. */
  lemma FilledIsHit(s: State, a: Action, now: int)
    requires Enabled(s, a) && a.Finish? && Stores(s, a, s.loads[a.i].name) && now < a.expires
    ensures var s', hit := Apply(s, a), Hit(s.loads[a.i].name, now);
            Enabled(s', hit) && VersionFor(s', hit) == s.loads[a.i].version
  {
  }

  /** The action moves the epoch. */
  predicate MovesEpoch(a: Action) {
    a.PurgeAll? || (a.PurgeOne? && TrimSpace(a.provider) != "")
  }

  ghost predicate EpochMoved(xs: seq<Action>, j: nat, k: nat)
    requires k <= |xs|
  {
    exists b :: j <= b < k && MovesEpoch(xs[b])
  }

  /** The epoch is the same at two steps exactly when no purge came in between. */
  lemma {:induction false} EpochIff(ss: seq<State>, xs: seq<Action>, j: nat, k: nat)
    requires Run(ss, xs) && j <= k <= |xs|
    ensures ss[j].epoch <= ss[k].epoch && (ss[j].epoch == ss[k].epoch <==> !EpochMoved(xs, j, k))
    decreases k
  {
    if j < k {
      EpochIff(ss, xs, j, k - 1);
      assert ss[k] == Apply(ss[k - 1], xs[k - 1]);
    }
  }

  /** A load that read the epoch at step `j` keeps it until it finishes. */
  lemma {:induction false} EpochKept(ss: seq<State>, xs: seq<Action>, i: nat, j: nat, k: nat)
    requires Run(ss, xs) && j < k <= |xs| && xs[j] == ReadEpoch(i)
    ensures i < |ss[k].loads| && !ss[k].loads[i].Missed?
    ensures var l := ss[k].loads[i]; (l.Started? || l.Fetched?) ==> l.epoch == ss[j].epoch
    decreases k
  {
    assert ss[k] == Apply(ss[k - 1], xs[k - 1]);
    if j < k - 1 {
      EpochKept(ss, xs, i, j, k - 1);
    }
  }

  /** A load stores what it fetched if and only if no purge of any provider came between its reading of the epoch
      and its end. */
  lemma {:induction false} StoresIff(ss: seq<State>, xs: seq<Action>, j: nat, k: nat)
    requires Run(ss, xs) && j < k < |xs| && xs[k].Finish? && xs[j] == ReadEpoch(xs[k].i)
    ensures Stores(ss[k], xs[k], ss[k].loads[xs[k].i].name) <==> !EpochMoved(xs, j, k)
  {
    EpochKept(ss, xs, xs[k].i, j, k);
    EpochIff(ss, xs, j, k);
  }

  // ----- what callers receive

  /** The action hands a credential to callers. */
  predicate Delivers(s: State, a: Action)
    requires Enabled(s, a)
  {
    match a
    case Hit(_, _) => true
    case Recheck(_, _) => true
    case Finish(_, _, _) => true
    case Fallback(i, now) => InGrace(s.m, s.loads[i].name, now)
    case _ => false
  }

  function NameFor(s: State, a: Action): string
    requires Enabled(s, a) && Delivers(s, a)
  {
    if a.Hit? then a.name else s.loads[a.i].name
  }

  /** The version it hands out: a stored one, or the one just fetched. */
  function VersionFor(s: State, a: Action): nat
    requires Enabled(s, a) && Delivers(s, a)
  {
    if a.Finish? then s.loads[a.i].version else s.m[NameFor(s, a)].version
  }

  /** What a load hands out is what its callers get when it ends. */
  lemma DeliveredIsReturned(s: State, a: Action)
    requires Enabled(s, a) && Delivers(s, a) && !a.Hit?
    ensures Apply(s, a).loads[a.i] == Returned(NameFor(s, a), VersionFor(s, a))
  {
  }

  ghost predicate IsRotation(xs: seq<Action>, a: nat, name: string)
    requires a < |xs|
  {
    xs[a].Rotate? && xs[a].name == name
  }

  /** After step `j` and before step `k`, the name was rotated. */
  ghost predicate Rotated(xs: seq<Action>, j: nat, k: nat, name: string)
    requires k <= |xs|
  {
    exists a :: j < a < k && IsRotation(xs, a, name)
  }

  /** After step `j` and before step `k`, the name was rotated and then purged. */
  ghost predicate RotatedThenPurged(xs: seq<Action>, j: nat, k: nat, name: string)
    requires k <= |xs|
  {
    exists b :: j < b < k && Purges(xs[b], name) && Rotated(xs, j, b, name)
  }

  lemma {:induction false} RotatedNext(xs: seq<Action>, j: nat, k: nat, name: string)
    requires j < k < |xs|
    ensures Rotated(xs, j, k + 1, name) <==> Rotated(xs, j, k, name) || IsRotation(xs, k, name)
  {
  }

  /** Version `v`, active at step `j`, seen from the state before step `k`. */
  ghost predicate Since(s: State, xs: seq<Action>, j: nat, k: nat, name: string, v: nat)
    requires k <= |xs|
  {
    && v <= s.active(name)
    && (v < s.active(name) <==> Rotated(xs, j, k, name))
    && (v < s.floor(name) <==> RotatedThenPurged(xs, j, k, name))
  }

  lemma {:induction false} SinceNext(s: State, xs: seq<Action>, j: nat, k: nat, name: string, v: nat)
    requires j < k < |xs| && Enabled(s, xs[k]) && Since(s, xs, j, k, name, v)
    ensures Since(Apply(s, xs[k]), xs, j, k + 1, name, v)
  {
    RotatedNext(xs, j, k, name);
  }

  lemma {:induction false} SinceFirst(s: State, xs: seq<Action>, j: nat, name: string)
    requires j < |xs| && Enabled(s, xs[j]) && !xs[j].Rotate? && !Purges(xs[j], name) && s.floor(name) <= s.active(name)
    ensures Since(Apply(s, xs[j]), xs, j, j + 1, name, s.active(name))
  {
  }

  /** The version active at step `j` is below the floor at step `k` exactly when a rotation and then a purge
      came in between. */
  lemma {:induction false} BelowFloorIff(ss: seq<State>, xs: seq<Action>, j: nat, k: nat, name: string)
    requires Run(ss, xs) && j < k <= |xs| && !xs[j].Rotate? && !Purges(xs[j], name)
    requires ss[j].floor(name) <= ss[j].active(name)
    ensures Since(ss[k], xs, j, k, name, ss[j].active(name))
    decreases k
  {
    assert ss[k] == Apply(ss[k - 1], xs[k - 1]);
    if j < k - 1 {
      BelowFloorIff(ss, xs, j, k - 1, name);
      SinceNext(ss[k - 1], xs, j, k - 1, name, ss[j].active(name));
    } else {
      SinceFirst(ss[j], xs, j, name);
    }
  }

  /** A load that has fetched keeps what it fetched until it finishes. */
  ghost predicate Holds(s: State, i: nat, name: string, v: nat) {
    && i < |s.loads| && s.loads[i].name == name
    && ((s.loads[i].Fetched? && s.loads[i].version == v) || s.loads[i].Returned?)
  }

  lemma {:induction false} FetchedStays(ss: seq<State>, xs: seq<Action>, i: nat, j: nat, k: nat)
    requires Run(ss, xs) && j < k <= |xs| && xs[j] == Fetch(i)
    ensures i < |ss[j].loads| && Holds(ss[k], i, ss[j].loads[i].name, ss[j].active(ss[j].loads[i].name))
    decreases k
  {
    assert ss[k] == Apply(ss[k - 1], xs[k - 1]);
    if j < k - 1 {
      FetchedStays(ss, xs, i, j, k - 1);
    }
  }

  /** A load that has fetched did so at some step. */
  lemma {:induction false} FetchedBefore(ss: seq<State>, xs: seq<Action>, i: nat, k: nat) returns (j: nat)
    requires Run(ss, xs) && Empty(ss[0]) && k <= |xs| && i < |ss[k].loads| && ss[k].loads[i].Fetched?
    ensures j < k && xs[j] == Fetch(i)
    decreases k
  {
    assert ss[k] == Apply(ss[k - 1], xs[k - 1]);
    if xs[k - 1] == Fetch(i) {
      j := k - 1;
    } else {
      j := FetchedBefore(ss, xs, i, k - 1);
    }
  }

  /** For every run and every call that ends with a credential, at step `k`: the credential is older than the
      one active at the name's last purge if and only if it was fetched, not read from the cache, and the name
      was rotated and then purged between the fetch and the return. */
  lemma {:induction false} ReturnsOldIff(ss: seq<State>, xs: seq<Action>, k: nat)
    requires Run(ss, xs) && Empty(ss[0]) && k < |xs| && Delivers(ss[k], xs[k])
    ensures var n := NameFor(ss[k], xs[k]);
            VersionFor(ss[k], xs[k]) < ss[k].floor(n)
            <==> xs[k].Finish? && exists j :: 0 <= j < k && xs[j] == Fetch(xs[k].i) && RotatedThenPurged(xs, j, k, n)
  {
    if xs[k].Finish? {
      var i := xs[k].i;
      var j := FetchedBefore(ss, xs, i, k);
      FetchedSince(ss, xs, i, j, k);
      forall j' | 0 <= j' < k && xs[j'] == Fetch(i)
        ensures ss[k].loads[i].version < ss[k].floor(ss[k].loads[i].name)
                <==> RotatedThenPurged(xs, j', k, ss[k].loads[i].name)
      {
        FetchedSince(ss, xs, i, j', k);
      }
    } else {
      RunInv(ss, xs, 0, k);
    }
  }

  lemma {:induction false} FetchedSince(ss: seq<State>, xs: seq<Action>, i: nat, j: nat, k: nat)
    requires Run(ss, xs) && Empty(ss[0]) && j < k <= |xs| && xs[j] == Fetch(i)
    requires i < |ss[k].loads| && ss[k].loads[i].Fetched?
    ensures var l := ss[k].loads[i];
            && l.version == ss[j].active(l.name)
            && (l.version < ss[k].floor(l.name) <==> RotatedThenPurged(xs, j, k, l.name))
  {
    RunInv(ss, xs, 0, j);
    FetchedStays(ss, xs, i, j, k);
    BelowFloorIff(ss, xs, j, k, ss[k].loads[i].name);
  }

  /** A call that joins a load at step `q` receives, when the load finishes at step `k`, a credential older than
      the last purge before it even asked, if and only if the load fetched at a step `j` and the name was
      rotated and then purged between the fetch and the question. */
  lemma {:induction false} JoinsOldIff(ss: seq<State>, xs: seq<Action>, q: nat, k: nat)
    requires Run(ss, xs) && Empty(ss[0]) && q < k < |xs| && xs[q].Join? && xs[k].Finish? && xs[k].i == xs[q].i
    ensures var n := NameFor(ss[k], xs[k]);
            VersionFor(ss[k], xs[k]) < ss[q].floor(n)
            <==> exists j :: 0 <= j < q && xs[j] == Fetch(xs[k].i) && RotatedThenPurged(xs, j, q, n)
  {
    var i, l := xs[k].i, ss[k].loads[xs[k].i];
    forall j | 0 <= j < k && xs[j] == Fetch(i)
      ensures l.version == ss[j].active(l.name)
      ensures j < q ==> (l.version < ss[q].floor(l.name) <==> RotatedThenPurged(xs, j, q, l.name))
    {
      FetchedSince(ss, xs, i, j, k);
      if j < q {
        RunInv(ss, xs, 0, j);
        BelowFloorIff(ss, xs, j, q, l.name);
      }
    }
    var j := FetchedBefore(ss, xs, i, k);
    if q < j {
      RunInv(ss, xs, 0, q);
      RunInv(ss, xs, 0, j);
      FloorStays(ss, xs, q, j, l.name);
      assert ss[q].floor(l.name) <= ss[j].active(l.name);
      forall j' | 0 <= j' < q && xs[j'] == Fetch(i) ensures l.version >= ss[q].floor(l.name) {}
    }
  }

  function FirstVersion(name: string): nat {
    1
  }

  const Example := State(map[], 0, [], FirstVersion, FirstVersion)

  /** A load in flight that has fetched version 1. */
  const OneFetched := State(map[], 0, [Fetched("p", 0, 1)], FirstVersion, FirstVersion)

  const Before := [Begin("p"), ReadEpoch(0), Fetch(0)]
  const LateFill := Before + [Rotate("p", 2), PurgeOne("p"), Join(0), Finish(0, 60, 120)]

  lemma FetchesFirst() returns (ss: seq<State>)
    ensures Run(ss, Before) && ss[0] == Example && ss[3] == OneFetched
  {
    var s1 := Apply(Example, Before[0]);
    var s2 := Apply(s1, Before[1]);
    ss := [Example, s1, s2, Apply(s2, Before[2])];
  }

  lemma {:induction false} RunAppend(ss: seq<State>, xs: seq<Action>, x: Action) returns (ss': seq<State>)
    requires Run(ss, xs) && Enabled(ss[|xs|], x)
    ensures Run(ss', xs + [x]) && ss' == ss + [Apply(ss[|xs|], x)]
  {
    ss' := ss + [Apply(ss[|xs|], x)];
    forall n | 0 <= n < |xs + [x]|
      ensures Enabled(ss'[n], (xs + [x])[n]) && ss'[n + 1] == Apply(ss'[n], (xs + [x])[n])
    {
      assert n < |xs| ==> Enabled(ss[n], xs[n]) && ss[n + 1] == Apply(ss[n], xs[n]);
    }
  }

  /** The guarantee is about the cache: a load already in flight still hands the old credential to its callers,
      also to one that asks after the purge, but does not store it. */
  lemma InFlightLoadMayReturnOld() returns (ss: seq<State>)
    ensures Run(ss, LateFill) && ss[0] == Example
    ensures ss[5].floor("p") == 2 && Delivers(ss[6], LateFill[6]) && VersionFor(ss[6], LateFill[6]) == 1
    ensures "p" !in ss[7].m
  {
    assert TrimSpace("p") == "p";
    var r3 := FetchesFirst();
    var r4 := RunAppend(r3, Before, Rotate("p", 2));
    var r5 := RunAppend(r4, Before + [Rotate("p", 2)], PurgeOne("p"));
    var r6 := RunAppend(r5, Before + [Rotate("p", 2)] + [PurgeOne("p")], Join(0));
    ss := RunAppend(r6, Before + [Rotate("p", 2)] + [PurgeOne("p")] + [Join(0)], Finish(0, 60, 120));
    assert LateFill == Before + [Rotate("p", 2)] + [PurgeOne("p")] + [Join(0)] + [Finish(0, 60, 120)];
  }
}
