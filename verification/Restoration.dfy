/**
 Placeholder restoration (internal/guard/restore.go).

 `Pass` is the reference: one left-to-right pass over the whole text in which every
 placeholder that starts at the cursor is replaced by its original. `Restore` (repeated
 whole-text replacement in map iteration order) and `StreamRestorer` (a scanner that
 holds back an unfinished `<...`) are each related to it.
 */
module Restoration {
  import opened Text

  type Mapping = map<string, string>

  const MAX_PLACEHOLDER_LEN := 40

  predicate BracketFree(s: string) {
    '<' !in s && '>' !in s
  }

  function Body(k: string): string
    requires |k| >= 2
  {
    k[1..|k| - 1]
  }

  predicate IsPlaceholder(k: string) {
    |k| >= 2 && k[0] == '<' && k[|k| - 1] == '>' && BracketFree(Body(k))
  }

  /** What `Redact` produces: bracketed keys, values without brackets. */
  ghost predicate Bracketed(m: Mapping) {
    forall k :: k in m ==> IsPlaceholder(k) && BracketFree(m[k])
  }

  /** No original can complete the body of another placeholder. */
  ghost predicate Independent(m: Mapping)
    requires Bracketed(m)
  {
    forall j, k :: j in m && k in m && j != k ==> !Occurs(m[j], Body(k))
  }

  ghost predicate KeyAt(m: Mapping, s: string, k: string) {
    k in m && k <= s
  }

  /** The reference: one left-to-right replacement pass. */
  ghost function Pass(m: Mapping, s: string): string
    requires "" !in m
    decreases |s|
  {
    if s == "" then ""
    else if exists k :: KeyAt(m, s, k) then
      var k :| KeyAt(m, s, k);
      m[k] + Pass(m, s[|k|..])
    else [s[0]] + Pass(m, s[1..])
  }

  // ----- strings.ReplaceAll and Restore

  /** The value before every character and at the end: what replacing an empty key does. */
  function Interleave(value: string, s: string): string {
    if s == "" then value else value + [s[0]] + Interleave(value, s[1..])
  }

  /** strings.ReplaceAll. */
  function ReplaceEvery(s: string, key: string, value: string): string {
    if key == "" then Interleave(value, s) else ReplaceAll(s, key, value)
  }

  function ReplaceAll(s: string, key: string, value: string): string
    requires key != ""
    decreases |s|
  {
    if s == "" then ""
    else if key <= s then value + ReplaceAll(s[|key|..], key, value)
    else [s[0]] + ReplaceAll(s[1..], key, value)
  }

  /** Replacing the empty key puts the value before the text and after each of its characters. */
  lemma {:induction false} EmptyKeyEverywhere(s: string, c: char, value: string)
    ensures ReplaceEvery("", "", value) == value
    ensures ReplaceEvery(s + [c], "", value) == ReplaceEvery(s, "", value) + [c] + value
    decreases |s|
  {
    if s == "" {
      assert s + [c] == [c] && [c][1..] == "";
    } else {
      assert (s + [c])[1..] == s[1..] + [c];
      EmptyKeyEverywhere(s[1..], c, value);
    }
  }

  /** `Restore` when the map iterates its keys in the given order. */
  function RestoreIn(m: Mapping, order: seq<string>, text: string): string
    requires forall k :: k in order ==> k in m
  {
    if order == [] then text
    else RestoreIn(m, order[1..], ReplaceEvery(text, order[0], m[order[0]]))
  }

  /** `order` lists every key of the map exactly once. */
  ghost predicate IsOrder(m: Mapping, order: seq<string>) {
    && (forall k :: k in order <==> k in m)
    && (forall i, j :: 0 <= i < j < |order| ==> order[i] != order[j])
  }

  // ----- facts about the reference pass

  lemma PlaceholderNotLonger(j: string, k: string, s: string)
    requires IsPlaceholder(j) && IsPlaceholder(k) && j <= s && k <= s
    ensures |k| <= |j|
  {
    assert s[|j| - 1] == '>';
    assert forall i :: 1 <= i < |k| - 1 ==> s[i] == k[i] == Body(k)[i - 1];
  }

  /** Placeholders end at their first '>', so at most one starts at the cursor. */
  lemma PlaceholderUnique(j: string, k: string, s: string)
    requires IsPlaceholder(j) && IsPlaceholder(k) && j <= s && k <= s
    ensures j == k
  {
    PlaceholderNotLonger(j, k, s);
    PlaceholderNotLonger(k, j, s);
  }

  lemma PassKey(m: Mapping, s: string, k: string)
    requires Bracketed(m) && KeyAt(m, s, k)
    ensures Pass(m, s) == m[k] + Pass(m, s[|k|..])
  {
    forall j | KeyAt(m, s, j) ensures j == k {
      PlaceholderUnique(j, k, s);
    }
  }

  lemma PassChar(m: Mapping, s: string)
    requires Bracketed(m) && s != "" && !exists k :: KeyAt(m, s, k)
    ensures Pass(m, s) == [s[0]] + Pass(m, s[1..])
  {
  }

  lemma {:induction false} PassPlain(m: Mapping, p: string, s: string)
    requires Bracketed(m) && '<' !in p
    ensures Pass(m, p + s) == p + Pass(m, s)
    decreases |p|
  {
    if p == "" {
      assert p + s == s;
    } else {
      assert (p + s)[0] == p[0] != '<';
      assert forall k :: k in m && k <= p + s ==> k[0] == (p + s)[0];
      PassChar(m, p + s);
      assert (p + s)[1..] == p[1..] + s;
      PassPlain(m, p[1..], s);
      assert p == [p[0]] + p[1..];
    }
  }

  lemma PassEmptyMap(s: string)
    ensures Pass(map[], s) == s
  {
    if s != "" {
      assert !exists k :: KeyAt(map[], s, k);
      PassEmptyMap(s[1..]);
    }
  }

  // ----- Restore equals the pass, for every iteration order, exactly when values are independent

  lemma {:induction false} ReplacePlain(p: string, s: string, k: string, v: string)
    requires IsPlaceholder(k) && '<' !in p
    ensures ReplaceAll(p + s, k, v) == p + ReplaceAll(s, k, v)
    decreases |p|
  {
    if p == "" {
      assert p + s == s;
    } else {
      assert (p + s)[0] == p[0];
      assert (p + s)[1..] == p[1..] + s;
      ReplacePlain(p[1..], s, k, v);
      assert p == [p[0]] + p[1..];
    }
  }

  lemma ReplaceSkip(s: string, k: string, v: string, j: string)
    requires IsPlaceholder(k) && IsPlaceholder(j) && j <= s && !(k <= s)
    ensures ReplaceAll(s, k, v) == j + ReplaceAll(s[|j|..], k, v)
  {
    var t := s[|j|..];
    assert s[1..] == j[1..] + t;
    assert j[1..] == Body(j) + ">";
    ReplacePlain(j[1..], t, k, v);
    assert j == [s[0]] + j[1..];
  }

  lemma ValueIsNoFragment(p: string, v: string, r: string)
    requires BracketFree(v) && !Occurs(v, p)
    ensures !(p + ">" <= v + r)
  {
    var q := p + ">";
    if |v| > |p| {
      assert (v + r)[|p|] == v[|p|] != '>' == q[|p|];
    } else {
      assert (v + r)[..|v|] == v;
      assert !OccursAt(v, p, 0);
      assert q[..|v|] == p[0..|v|];
    }
  }

  /** A closing fragment `p>` seen after replacement was already there before it. */
  lemma {:induction false} FragmentWasThere(p: string, s: string, k: string, v: string)
    requires IsPlaceholder(k) && BracketFree(v) && BracketFree(p) && !Occurs(v, p)
    ensures p + ">" <= ReplaceAll(s, k, v) ==> p + ">" <= s
    decreases |p|
  {
    var q := p + ">";
    if s == "" {
    } else if k <= s {
      ValueIsNoFragment(p, v, ReplaceAll(s[|k|..], k, v));
    } else {
      var r := ReplaceAll(s[1..], k, v);
      assert ([s[0]] + r)[1..] == r;
      if p != "" {
        assert q[1..] == p[1..] + ">";
        if Occurs(v, p[1..]) {
          OccursShift(v, p);
          assert false;
        }
        FragmentWasThere(p[1..], s[1..], k, v);
        assert s == [s[0]] + s[1..];
      }
    }
  }

  /** Replacing one key first and passing over the rest is one pass with that key added. */
  lemma {:induction false} Fuse(m: Mapping, k: string, v: string, s: string)
    requires k !in m && Bracketed(m) && IsPlaceholder(k) && BracketFree(v)
    requires forall j :: j in m ==> !Occurs(v, Body(j))
    ensures Pass(m, ReplaceAll(s, k, v)) == Pass(m[k := v], s)
    decreases |s|
  {
    var m' := m[k := v];
    if s == "" {
    } else if k <= s {
      var r := ReplaceAll(s[|k|..], k, v);
      PassPlain(m, v, r);
      Fuse(m, k, v, s[|k|..]);
      PassKey(m', s, k);
    } else if exists j :: KeyAt(m, s, j) {
      var j :| KeyAt(m, s, j);
      FuseOther(m, k, v, s, j);
      Fuse(m, k, v, s[|j|..]);
      PassKey(m', s, j);
    } else {
      forall j | KeyAt(m', s, j) ensures false { assert KeyAt(m, s, j); }
      PassChar(m', s);
      FuseChar(m, k, v, s);
      Fuse(m, k, v, s[1..]);
    }
  }

  lemma FuseOther(m: Mapping, k: string, v: string, s: string, j: string)
    requires Bracketed(m) && IsPlaceholder(k) && !(k <= s) && KeyAt(m, s, j)
    ensures Pass(m, ReplaceAll(s, k, v)) == m[j] + Pass(m, ReplaceAll(s[|j|..], k, v))
  {
    var r := ReplaceAll(s, k, v);
    ReplaceSkip(s, k, v, j);
    assert r[|j|..] == ReplaceAll(s[|j|..], k, v);
    PassKey(m, r, j);
  }

  /** A placeholder cannot start at a copied character unless its fragment was there before. */
  lemma NoKeyAfterCopy(k: string, c: char, before: string, after: string)
    requires IsPlaceholder(k) && !(k <= [c] + before)
    requires Body(k) + ">" <= after ==> Body(k) + ">" <= before
    ensures !(k <= [c] + after)
  {
    var f := Body(k) + ">";
    assert k == [k[0]] + f && k[1..] == f;
    assert ([c] + after)[1..] == after;
    if f <= before {
      assert [c] + f <= [c] + before;
    }
  }

  lemma NoNewKey(k: string, v: string, s: string, j: string)
    requires IsPlaceholder(k) && BracketFree(v) && s != "" && !(k <= s)
    requires IsPlaceholder(j) && !(j <= s) && !Occurs(v, Body(j))
    ensures !(j <= ReplaceAll(s, k, v))
  {
    FragmentWasThere(Body(j), s[1..], k, v);
    assert s == [s[0]] + s[1..];
    NoKeyAfterCopy(j, s[0], s[1..], ReplaceAll(s[1..], k, v));
  }

  lemma FuseChar(m: Mapping, k: string, v: string, s: string)
    requires Bracketed(m) && IsPlaceholder(k) && BracketFree(v) && s != "" && !(k <= s)
    requires !exists j :: KeyAt(m, s, j)
    requires forall j :: j in m ==> !Occurs(v, Body(j))
    ensures Pass(m, ReplaceAll(s, k, v)) == [s[0]] + Pass(m, ReplaceAll(s[1..], k, v))
  {
    var r := ReplaceAll(s, k, v);
    forall j | j in m ensures !KeyAt(m, r, j) {
      assert !KeyAt(m, s, j);
      NoNewKey(k, v, s, j);
    }
    PassChar(m, r);
    assert r[1..] == ReplaceAll(s[1..], k, v);
  }

  lemma {:induction false} RestoreInIsPass(m: Mapping, order: seq<string>, text: string)
    requires Bracketed(m) && Independent(m) && IsOrder(m, order)
    ensures RestoreIn(m, order, text) == Pass(m, text)
    decreases |order|
  {
    if order == [] {
      assert m == map[];
      PassEmptyMap(text);
    } else {
      var k := order[0];
      var rest := m - {k};
      assert IsOrder(rest, order[1..]) by {
        forall j ensures j in order[1..] <==> j in rest {}
      }
      assert m == rest[k := m[k]];
      forall j | j in rest ensures !Occurs(m[k], Body(j)) {}
      Fuse(rest, k, m[k], text);
      RestoreInIsPass(rest, order[1..], ReplaceAll(text, k, m[k]));
      RestoreInSubmap(m, rest, order[1..], ReplaceAll(text, k, m[k]));
    }
  }

  lemma {:induction false} RestoreInSubmap(m: Mapping, n: Mapping, order: seq<string>, text: string)
    requires forall k :: k in order ==> k in m && k in n && m[k] == n[k]
    ensures RestoreIn(m, order, text) == RestoreIn(n, order, text)
    decreases |order|
  {
    if order != [] {
      RestoreInSubmap(m, n, order[1..], ReplaceEvery(text, order[0], m[order[0]]));
    }
  }

  /** `<a` + key + `b>` where the key's value turns it into another placeholder. */
  ghost function Trap(m: Mapping, j: string, k: string, i: nat): string
    requires Bracketed(m) && j in m && k in m && OccursAt(m[j], Body(k), i)
  {
    "<" + (Body(k)[..i] + (j + (Body(k)[i + |m[j]|..] + ">")))
  }

  lemma TrapCloses(k: string, v: string, i: nat)
    requires IsPlaceholder(k) && OccursAt(v, Body(k), i)
    ensures "<" + (Body(k)[..i] + (v + (Body(k)[i + |v|..] + ">"))) == k
  {
    assert Body(k) == Body(k)[..i] + (v + Body(k)[i + |v|..]);
    assert k == "<" + (Body(k) + ">");
  }

  lemma NoKeyBeforeBracket(c: string, a: string, t: string)
    requires IsPlaceholder(c) && BracketFree(a) && t != "" && t[0] == '<'
    ensures !(c <= "<" + (a + t))
  {
    var s := "<" + (a + t);
    assert s[|a| + 1] == '<';
    assert forall i :: 1 <= i < |c| - 1 ==> c[i] == Body(c)[i - 1];
    if |c| - 1 <= |a| {
      assert s[|c| - 1] == a[|c| - 2];
    }
  }

  lemma PassAtInner(m: Mapping, a: string, j: string, b: string)
    requires Bracketed(m) && BracketFree(a) && '<' !in b && j in m
    ensures Pass(m, a + (j + b)) == a + (m[j] + b)
  {
    PassPlain(m, a, j + b);
    PassKey(m, j + b, j);
    assert (j + b)[|j|..] == b == b + "";
    PassPlain(m, b, "");
  }

  lemma PassOnTrap(m: Mapping, a: string, j: string, b: string)
    requires Bracketed(m) && BracketFree(a) && '<' !in b && j in m
    ensures Pass(m, "<" + (a + (j + b))) == "<" + (a + (m[j] + b))
  {
    var t := a + (j + b);
    forall c | c in m ensures !KeyAt(m, "<" + t, c) {
      NoKeyBeforeBracket(c, a, j + b);
    }
    PassChar(m, "<" + t);
    assert ("<" + t)[1..] == t;
    PassAtInner(m, a, j, b);
  }

  lemma ReplaceAtInner(a: string, j: string, v: string, b: string)
    requires IsPlaceholder(j) && BracketFree(a) && '<' !in b
    ensures ReplaceAll(a + (j + b), j, v) == a + (v + b)
  {
    ReplacePlain(a, j + b, j, v);
    assert (j + b)[|j|..] == b == b + "";
    ReplacePlain(b, "", j, v);
  }

  lemma ReplaceOnTrap(a: string, j: string, v: string, b: string)
    requires IsPlaceholder(j) && BracketFree(a) && '<' !in b
    ensures ReplaceAll("<" + (a + (j + b)), j, v) == "<" + (a + (v + b))
  {
    var t := a + (j + b);
    NoKeyBeforeBracket(j, a, j + b);
    assert ("<" + t)[1..] == t;
    ReplaceAtInner(a, j, v, b);
  }

  lemma {:induction false} RestorePlain(m: Mapping, order: seq<string>, text: string)
    requires Bracketed(m) && (forall k :: k in order ==> k in m)
    requires forall k :: k in m ==> !Occurs(k, text)
    ensures RestoreIn(m, order, text) == text
    decreases |order|
  {
    if order != [] {
      ReplaceAbsent(text, order[0], m[order[0]]);
      RestorePlain(m, order[1..], text);
    }
  }

  lemma {:induction false} ReplaceAbsent(s: string, k: string, v: string)
    requires k != "" && !Occurs(k, s)
    ensures ReplaceAll(s, k, v) == s
    decreases |s|
  {
    if s != "" {
      if k <= s {
        assert OccursAt(k, s, 0);
        assert false;
      }
      if Occurs(k, s[1..]) {
        OccursShift(k, s);
        assert false;
      }
      ReplaceAbsent(s[1..], k, v);
    }
  }

  lemma AbsentWithout(k: string, s: string, c: char)
    requires c in k && c !in s
    ensures !Occurs(k, s)
  {
    var n :| 0 <= n < |k| && k[n] == c;
    forall i ensures !OccursAt(k, s, i) {
      assert 0 <= i && i + |k| <= |s| ==> s[i..i + |k|][n] == s[i + n];
    }
  }

  ghost function SomeOrder(keys: set<string>): (order: seq<string>)
    ensures forall k :: k in order <==> k in keys
    ensures forall i, j :: 0 <= i < j < |order| ==> order[i] != order[j]
  {
    if keys == {} then [] else
      var k :| k in keys;
      [k] + SomeOrder(keys - {k})
  }

  lemma TrapReplaced(m: Mapping, j: string, k: string, i: nat)
    requires Bracketed(m) && j in m && k in m && OccursAt(m[j], Body(k), i)
    ensures ReplaceAll(Trap(m, j, k, i), j, m[j]) == k
  {
    ReplaceOnTrap(Body(k)[..i], j, m[j], Body(k)[i + |m[j]|..] + ">");
    TrapCloses(k, m[j], i);
  }

  lemma TrapPassed(m: Mapping, j: string, k: string, i: nat)
    requires Bracketed(m) && j in m && k in m && OccursAt(m[j], Body(k), i)
    ensures Pass(m, Trap(m, j, k, i)) == k
  {
    PassOnTrap(m, Body(k)[..i], j, Body(k)[i + |m[j]|..] + ">");
    TrapCloses(k, m[j], i);
  }

  lemma RestoreTwo(m: Mapping, j: string, k: string, rest: seq<string>, s: string)
    requires j in m && k in m && j != "" && k != "" && forall c :: c in rest ==> c in m
    ensures RestoreIn(m, [j, k] + rest, s) == RestoreIn(m, rest, ReplaceAll(ReplaceAll(s, j, m[j]), k, m[k]))
  {
    assert ([j, k] + rest)[1..] == [k] + rest && ([k] + rest)[1..] == rest;
  }

  lemma PlainRestored(m: Mapping, rest: seq<string>, v: string)
    requires Bracketed(m) && BracketFree(v) && forall c :: c in rest ==> c in m
    ensures RestoreIn(m, rest, v) == v
  {
    forall c | c in m ensures !Occurs(c, v) {
      AbsentWithout(c, v, '<');
    }
    RestorePlain(m, rest, v);
  }

  lemma ReplaceWhole(k: string, v: string)
    requires k != ""
    ensures ReplaceAll(k, k, v) == v
  {
    assert k[|k|..] == "";
  }

  lemma TrapRestored(m: Mapping, j: string, k: string, i: nat, rest: seq<string>)
    requires Bracketed(m) && j in m && k in m && OccursAt(m[j], Body(k), i)
    requires forall c :: c in rest ==> c in m
    ensures RestoreIn(m, [j, k] + rest, Trap(m, j, k, i)) == m[k]
  {
    RestoreTwo(m, j, k, rest, Trap(m, j, k, i));
    TrapReplaced(m, j, k, i);
    ReplaceWhole(k, m[k]);
    PlainRestored(m, rest, m[k]);
  }

  /** `Restore` gives the single pass on every text, whatever order the map iterates in. */
  ghost predicate OrderFree(m: Mapping)
    requires "" !in m
  {
    forall order, text :: IsOrder(m, order) ==> RestoreIn(m, order, text) == Pass(m, text)
  }

  lemma DependentIsOrderBound(m: Mapping, j: string, k: string, i: nat)
    requires Bracketed(m) && j in m && k in m && j != k && OccursAt(m[j], Body(k), i)
    ensures !OrderFree(m)
  {
    var rest := SomeOrder(m.Keys - {j, k});
    PairFirst(m, j, k, rest);
    TrapRestored(m, j, k, i, rest);
    TrapPassed(m, j, k, i);
    assert IsOrder(m, [j, k] + rest);
    assert m[k] != k;
  }

  lemma PairFirst(m: Mapping, j: string, k: string, rest: seq<string>)
    requires j in m && k in m && j != k && IsOrder(m - {j, k}, rest)
    ensures IsOrder(m, [j, k] + rest)
  {
    var order := [j, k] + rest;
    forall c ensures c in order <==> c in m {}
    forall x, y | 0 <= x < y < |order| ensures order[x] != order[y] {
      assert order[y] == if y == 1 then k else rest[y - 2];
      assert x >= 2 ==> order[x] == rest[x - 2];
    }
  }

  /** Replacing another key first leaves the trap alone. */
  lemma TrapSkipped(m: Mapping, j: string, k: string, i: nat)
    requires Bracketed(m) && j in m && k in m && j != k && OccursAt(m[j], Body(k), i)
    ensures ReplaceAll(Trap(m, j, k, i), k, m[k]) == Trap(m, j, k, i)
  {
    SkipsTrap(Body(k)[..i], j, k, m[k], Body(k)[i + |m[j]|..] + ">");
  }

  lemma SkipsTrap(a: string, j: string, k: string, v: string, b: string)
    requires IsPlaceholder(j) && IsPlaceholder(k) && j != k && BracketFree(a) && '<' !in b
    ensures ReplaceAll("<" + (a + (j + b)), k, v) == "<" + (a + (j + b))
  {
    var t := a + (j + b);
    NoKeyBeforeBracket(k, a, j + b);
    assert ("<" + t)[1..] == t;
    ReplacePlain(a, j + b, k, v);
    SkipsInner(j, k, v, b);
  }

  lemma SkipsInner(j: string, k: string, v: string, b: string)
    requires IsPlaceholder(j) && IsPlaceholder(k) && j != k && '<' !in b
    ensures ReplaceAll(j + b, k, v) == j + b
  {
    if k <= j + b {
      PlaceholderUnique(j, k, j + b);
      assert false;
    }
    ReplaceSkip(j + b, k, v, j);
    assert (j + b)[|j|..] == b == b + "";
    ReplacePlain(b, "", k, v);
  }

  /** A lone placeholder is left alone by all other keys. */
  lemma {:induction false} LoneKeyStays(m: Mapping, rest: seq<string>, k: string)
    requires Bracketed(m) && IsPlaceholder(k) && forall c :: c in rest ==> c in m && c != k
    ensures RestoreIn(m, rest, k) == k
    decreases |rest|
  {
    if rest != [] {
      SkipsInner(k, rest[0], m[rest[0]], "");
      assert k + "" == k;
      LoneKeyStays(m, rest[1..], k);
    }
  }

  lemma TrapRestoredLate(m: Mapping, j: string, k: string, i: nat, rest: seq<string>)
    requires Bracketed(m) && j in m && k in m && j != k && OccursAt(m[j], Body(k), i)
    requires forall c :: c in rest ==> c in m && c != k
    ensures RestoreIn(m, [k, j] + rest, Trap(m, j, k, i)) == k
  {
    RestoreTwo(m, k, j, rest, Trap(m, j, k, i));
    TrapSkipped(m, j, k, i);
    TrapReplaced(m, j, k, i);
    LoneKeyStays(m, rest, k);
  }

  /** Any two iteration orders give the same result on every text. */
  ghost predicate OrdersAgree(m: Mapping) {
    forall order, order', text :: IsOrder(m, order) && IsOrder(m, order')
      ==> RestoreIn(m, order, text) == RestoreIn(m, order', text)
  }

  lemma Disagree(m: Mapping, order: seq<string>, order': seq<string>, text: string)
    requires IsOrder(m, order) && IsOrder(m, order') && RestoreIn(m, order, text) != RestoreIn(m, order', text)
    ensures !OrdersAgree(m)
  {
  }

  lemma TrapTold(m: Mapping, j: string, k: string, i: nat, rest: seq<string>)
    requires Bracketed(m) && j in m && k in m && j != k && OccursAt(m[j], Body(k), i)
    requires forall c :: c in rest ==> c in m && c != k
    ensures RestoreIn(m, [j, k] + rest, Trap(m, j, k, i)) != RestoreIn(m, [k, j] + rest, Trap(m, j, k, i))
  {
    TrapRestored(m, j, k, i, rest);
    TrapRestoredLate(m, j, k, i, rest);
    assert m[k] != k;
  }

  lemma OrdersDiffer(m: Mapping, j: string, k: string, i: nat)
    requires Bracketed(m) && j in m && k in m && j != k && OccursAt(m[j], Body(k), i)
    ensures !OrdersAgree(m)
  {
    var rest := SomeOrder(m.Keys - {j, k});
    BothFirst(m, j, k, rest);
    TrapTold(m, j, k, i, rest);
    Disagree(m, [j, k] + rest, [k, j] + rest, Trap(m, j, k, i));
  }

  lemma BothFirst(m: Mapping, j: string, k: string, rest: seq<string>)
    requires j in m && k in m && j != k && IsOrder(m - {j, k}, rest)
    ensures IsOrder(m, [j, k] + rest) && IsOrder(m, [k, j] + rest)
    ensures forall c :: c in rest ==> c in m && c != k
  {
    PairFirst(m, j, k, rest);
    assert m - {j, k} == m - {k, j};
    PairFirst(m, k, j, rest);
  }

  /** Two iteration orders can differ exactly when an original occurs in the body of another placeholder. */
  lemma OrdersAgreeIff(m: Mapping)
    requires Bracketed(m)
    ensures OrdersAgree(m) <==> Independent(m)
  {
    if Independent(m) {
      forall order, order', text | IsOrder(m, order) && IsOrder(m, order')
        ensures RestoreIn(m, order, text) == RestoreIn(m, order', text)
      {
        RestoreInIsPass(m, order, text);
        RestoreInIsPass(m, order', text);
      }
    } else {
      var j, k :| j in m && k in m && j != k && Occurs(m[j], Body(k));
      var i :| OccursAt(m[j], Body(k), i);
      OrdersDiffer(m, j, k, i);
    }
  }

  /** Every iteration order gives the single pass exactly when no original occurs in the body of
      another placeholder. */
  lemma RestoreIsPassIff(m: Mapping)
    requires Bracketed(m)
    ensures OrderFree(m) <==> Independent(m)
  {
    if Independent(m) {
      forall order, text | IsOrder(m, order) ensures RestoreIn(m, order, text) == Pass(m, text) {
        RestoreInIsPass(m, order, text);
      }
    } else {
      var j, k :| j in m && k in m && j != k && Occurs(m[j], Body(k));
      var i :| OccursAt(m[j], Body(k), i);
      DependentIsOrderBound(m, j, k, i);
    }
  }

  /** Whole-text restoration. The loop takes the keys in whatever order the map yields them. */
  method Restore(text: string, m: Mapping) returns (r: string)
    ensures exists order :: IsOrder(m, order) && r == RestoreIn(m, order, text)
    ensures Bracketed(m) && Independent(m) ==> r == Pass(m, text)
  {
    r := text;
    var left := m.Keys;
    ghost var done: seq<string> := [];
    while left != {}
      invariant left <= m.Keys
      invariant forall k :: k in done <==> k in m.Keys - left
      invariant forall i, j :: 0 <= i < j < |done| ==> done[i] != done[j]
      invariant r == RestoreIn(m, done, text)
      decreases left
    {
      var k :| k in left;
      RestoreInSnoc(m, done, k, text);
      assert k !in done;
      r := ReplaceEvery(r, k, m[k]);
      left := left - {k};
      done := done + [k];
    }
    assert IsOrder(m, done);
    if Bracketed(m) && Independent(m) {
      RestoreInIsPass(m, done, text);
    }
  }

  lemma {:induction false} RestoreInSnoc(m: Mapping, order: seq<string>, k: string, text: string)
    requires k in m && forall c :: c in order ==> c in m
    ensures forall c :: c in order + [k] ==> c in m
    ensures RestoreIn(m, order + [k], text) == ReplaceEvery(RestoreIn(m, order, text), k, m[k])
    decreases |order|
  {
    if order == [] {
      assert order + [k] == [k];
    } else {
      assert (order + [k])[1..] == order[1..] + [k];
      RestoreInSnoc(m, order[1..], k, ReplaceEvery(text, order[0], m[order[0]]));
    }
  }

  // ----- the streaming scanner

  /** What one `Process` call does to the accumulated buffer: text to emit, text to hold back. */
  datatype Scanned = Scanned(out: string, held: string)

  ghost predicate MayHold(held: string) {
    held == "" || (held[0] == '<' && '>' !in held && |held| <= MAX_PLACEHOLDER_LEN)
  }

  function Scan(m: Mapping, b: string): (r: Scanned)
    ensures MayHold(r.held)
    decreases |b|, 1
  {
    var open := IndexOf(b, '<');
    if open == |b| then Scanned(b, "")
    else
      var r := ScanToken(m, b[open..]);
      Scanned(b[..open] + r.out, r.held)
  }

  function ScanToken(m: Mapping, t: string): (r: Scanned)
    requires t != "" && t[0] == '<'
    ensures MayHold(r.held)
    decreases |t|, 0
  {
    var close := IndexOf(t, '>');
    if close == |t| && |t| <= MAX_PLACEHOLDER_LEN then
      assert t[..close] == t;
      Scanned("", t)
    else if close < |t| && t[..close + 1] in m then
      var r := Scan(m, t[close + 1..]);
      Scanned(m[t[..close + 1]] + r.out, r.held)
    else
      var r := Scan(m, t[1..]);
      Scanned("<" + r.out, r.held)
  }

  /** `out` has been emitted already and `r` follows. */
  ghost function After(out: string, r: Scanned): Scanned {
    Scanned(out + r.out, r.held)
  }

  lemma AfterMore(out: string, x: string, r: Scanned)
    ensures After(out + x, r) == After(out, After(x, r))
  {
    assert out + x + r.out == out + (x + r.out);
  }

  /** The scanner at an opening bracket: hold the token, replace it, or give up on the bracket. */
  method AtBracket(m: Mapping, t: string) returns (hold: bool, emit: string, rest: string)
    requires t != "" && t[0] == '<'
    ensures hold ==> emit == "" && rest == t && ScanToken(m, t) == Scanned("", t)
    ensures !hold ==> |rest| < |t| && ScanToken(m, t) == After(emit, Scan(m, rest))
  {
    var close := IndexOf(t, '>');
    if close == |t| {
      if |t| > MAX_PLACEHOLDER_LEN {
        assert t[..1] == "<";
        return false, t[..1], t[1..];
      }
      return true, "", t;
    }
    var token := t[..close + 1];
    if token in m {
      return false, m[token], t[close + 1..];
    }
    return false, "<", t[1..];
  }

  lemma OpenStep(m: Mapping, out: string, b: string)
    ensures var open := IndexOf(b, '<');
            After(out, Scan(m, b)) ==
              if open == |b| then Scanned(out + b, "") else After(out + b[..open], ScanToken(m, b[open..]))
  {
    var open := IndexOf(b, '<');
    if open < |b| {
      AfterMore(out, b[..open], ScanToken(m, b[open..]));
    }
  }

  /** Everything a stream emits: each chunk processed in turn, then `Flush` of what is held. */
  function Streamed(m: Mapping, held: string, chunks: seq<string>): string
    decreases |chunks|
  {
    if chunks == [] then held
    else
      var r := Scan(m, held + chunks[0]);
      r.out + Streamed(m, r.held, chunks[1..])
  }

  ghost predicate KeysFit(m: Mapping) {
    forall k :: k in m ==> |k| <= MAX_PLACEHOLDER_LEN + 1
  }

  lemma NoKeyAtLongOpening(k: string, t: string, rest: string)
    requires IsPlaceholder(k) && |k| <= MAX_PLACEHOLDER_LEN + 1
    requires '>' !in t && |t| > MAX_PLACEHOLDER_LEN
    ensures !(k <= t + rest)
  {
    assert (t + rest)[|k| - 1] == t[|k| - 1];
  }

  lemma KeyIsToken(k: string, t: string, rest: string, close: nat)
    requires IsPlaceholder(k) && t != "" && t[0] == '<'
    requires close < |t| && t[close] == '>' && '>' !in t[..close] && k <= t + rest
    ensures k == t[..close + 1]
  {
    var s := t + rest;
    assert s[close] == '>' && s[|k| - 1] == '>';
    assert forall i :: 1 <= i < |k| - 1 ==> k[i] == Body(k)[i - 1] && k[i] == s[i];
    assert forall i :: 0 <= i < close ==> s[i] == t[..close][i];
    assert |k| == close + 1;
    assert s[..close + 1] == t[..close + 1];
  }

  /** Where no key starts, the pass copies one character and moves on. */
  lemma PassCopies(m: Mapping, t: string, rest: string)
    requires Bracketed(m) && t != "" && forall k :: k in m ==> !(k <= t + rest)
    ensures Pass(m, t + rest) == [t[0]] + Pass(m, t[1..] + rest)
  {
    assert forall k :: k in m ==> !KeyAt(m, t + rest, k);
    PassChar(m, t + rest);
    assert (t + rest)[1..] == t[1..] + rest;
  }

  lemma PassSplit(m: Mapping, b: string, open: nat, rest: string)
    requires Bracketed(m) && open <= |b| && '<' !in b[..open]
    ensures Pass(m, b + rest) == b[..open] + Pass(m, b[open..] + rest)
  {
    assert b + rest == b[..open] + (b[open..] + rest);
    PassPlain(m, b[..open], b[open..] + rest);
  }

  /** What is emitted now plus the pass over what is held is the pass over the buffer,
      whatever text still follows. */
  lemma {:induction false} ScanIsPass(m: Mapping, b: string, rest: string)
    requires Bracketed(m) && KeysFit(m)
    ensures Pass(m, b + rest) == Scan(m, b).out + Pass(m, Scan(m, b).held + rest)
    decreases |b|, 1
  {
    var open := IndexOf(b, '<');
    PassSplit(m, b, open, rest);
    if open == |b| {
      assert b[..open] == b && b[open..] + rest == rest && "" + rest == rest;
    } else {
      ScanTokenPasses(m, b[open..], rest);
    }
  }

  lemma {:induction false} ScanTokenPasses(m: Mapping, t: string, rest: string)
    requires Bracketed(m) && KeysFit(m) && t != "" && t[0] == '<'
    ensures Pass(m, t + rest) == ScanToken(m, t).out + Pass(m, ScanToken(m, t).held + rest)
    decreases |t|, 0
  {
    var close := IndexOf(t, '>');
    if close < |t| {
      ScanTokenIsPass(m, t, close, rest);
    }
    if close < |t| && t[..close + 1] in m {
      var u := t[close + 1..];
      ScanIsPass(m, u, rest);
      Glue(m[t[..close + 1]], Scan(m, u).out, Pass(m, Scan(m, u).held + rest));
    } else if close < |t| || |t| > MAX_PLACEHOLDER_LEN {
      if close == |t| {
        LongOpeningPasses(m, t, rest);
      }
      ScanIsPass(m, t[1..], rest);
      Glue("<", Scan(m, t[1..]).out, Pass(m, Scan(m, t[1..]).held + rest));
    }
  }

  lemma Glue(a: string, b: string, c: string)
    ensures a + (b + c) == (a + b) + c
  {
  }

  lemma LongOpeningPasses(m: Mapping, t: string, rest: string)
    requires Bracketed(m) && KeysFit(m) && t != "" && t[0] == '<'
    requires IndexOf(t, '>') == |t| > MAX_PLACEHOLDER_LEN
    ensures Pass(m, t + rest) == "<" + Pass(m, t[1..] + rest)
  {
    assert t[..|t|] == t;
    forall k | k in m ensures !(k <= t + rest) {
      NoKeyAtLongOpening(k, t, rest);
    }
    PassCopies(m, t, rest);
  }

  lemma ScanTokenIsPass(m: Mapping, t: string, close: nat, rest: string)
    requires Bracketed(m) && t != "" && t[0] == '<'
    requires close < |t| && t[close] == '>' && '>' !in t[..close]
    ensures t[..close + 1] in m ==>
              Pass(m, t + rest) == m[t[..close + 1]] + Pass(m, t[close + 1..] + rest)
    ensures t[..close + 1] !in m ==> Pass(m, t + rest) == "<" + Pass(m, t[1..] + rest)
  {
    var token := t[..close + 1];
    assert t + rest == token + (t[close + 1..] + rest);
    if token in m {
      PassKey(m, t + rest, token);
    } else {
      forall k | k in m ensures !(k <= t + rest) {
        if k <= t + rest {
          KeyIsToken(k, t, rest, close);
          assert false;
        }
      }
      PassCopies(m, t, rest);
    }
  }

  lemma PassOnHeld(m: Mapping, held: string)
    requires Bracketed(m) && '>' !in held
    ensures Pass(m, held) == held
    decreases |held|
  {
    if held != "" {
      forall k | k in m ensures !KeyAt(m, held, k) {
        if |k| <= |held| {
          assert held[|k| - 1] != k[|k| - 1];
        }
      }
      PassChar(m, held);
      PassOnHeld(m, held[1..]);
    }
  }

  lemma {:induction false} StreamIsPass(m: Mapping, held: string, chunks: seq<string>)
    requires Bracketed(m) && KeysFit(m) && '>' !in held
    ensures Streamed(m, held, chunks) == Pass(m, held + Concat(chunks))
    decreases |chunks|
  {
    if chunks == [] {
      assert held + Concat(chunks) == held;
      PassOnHeld(m, held);
    } else {
      var b := held + chunks[0];
      var rest := Concat(chunks[1..]);
      assert held + Concat(chunks) == b + rest;
      ScanIsPass(m, b, rest);
      StreamIsPass(m, Scan(m, b).held, chunks[1..]);
    }
  }

  lemma ScanPlain(m: Mapping, s: string)
    requires '<' !in s
    ensures Scan(m, s) == Scanned(s, "")
  {
  }

  lemma LongOpeningIsEmitted(m: Mapping, t: string)
    requires t != "" && t[0] == '<' && '>' !in t && '<' !in t[1..] && |t| > MAX_PLACEHOLDER_LEN
    ensures Scan(m, t) == Scanned(t, "")
  {
    assert IndexOf(t, '<') == 0 && IndexOf(t, '>') == |t|;
    ScanPlain(m, t[1..]);
    assert t[0..] == t && t == "<" + t[1..];
  }

  lemma LongKeySplit(m: Mapping, k: string)
    requires Bracketed(m) && k in m && |k| > MAX_PLACEHOLDER_LEN + 1
    ensures Streamed(m, "", [k[..|k| - 1]] + [">"]) == k == Concat([k[..|k| - 1]] + [">"])
  {
    var head := k[..|k| - 1];
    assert "" + head == head && head[1..] == Body(k) && k == head + ">";
    LongOpeningIsEmitted(m, head);
    ScanPlain(m, "" + ">");
    StreamedPair(m, head, ">");
  }

  lemma StreamedPair(m: Mapping, a: string, b: string)
    ensures Concat([a] + [b]) == a + b
    ensures var r := Scan(m, "" + a); var q := Scan(m, r.held + b);
            Streamed(m, "", [a] + [b]) == r.out + (q.out + q.held)
  {
    var chunks := [a] + [b];
    var r := Scan(m, "" + a);
    assert chunks[1..] == [b] && [b][1..] == [];
    assert Concat([b]) == b + "" == b;
    assert Streamed(m, r.held, [b]) == Scan(m, r.held + b).out + Streamed(m, Scan(m, r.held + b).held, []);
  }

  lemma PassOnKey(m: Mapping, k: string)
    requires Bracketed(m) && k in m
    ensures Pass(m, k) == m[k] != k
  {
    PassKey(m, k, k);
    assert k[|k|..] == "";
  }

  ghost predicate CutFree(m: Mapping)
    requires "" !in m
  {
    forall chunks :: Streamed(m, "", chunks) == Pass(m, Concat(chunks))
  }

  /** Streaming gives the single pass for every way of cutting every text exactly when no
      placeholder is longer than 41 characters, one more than the constant in the code. */
  lemma StreamIsPassIff(m: Mapping)
    requires Bracketed(m)
    ensures CutFree(m) <==> KeysFit(m)
  {
    if KeysFit(m) {
      forall chunks ensures Streamed(m, "", chunks) == Pass(m, Concat(chunks)) {
        StreamIsPass(m, "", chunks);
        assert "" + Concat(chunks) == Concat(chunks);
      }
    } else {
      var k :| k in m && |k| > MAX_PLACEHOLDER_LEN + 1;
      LongKeySplit(m, k);
      PassOnKey(m, k);
    }
  }

  class StreamRestorer {
    const mapping: Mapping
    var buffer: string

    ghost predicate Valid()
      reads this
    {
      && (mapping == map[] ==> buffer == "")
      && MayHold(buffer)
    }

    constructor (mapping: Mapping)
      ensures Valid() && this.mapping == mapping && buffer == ""
    {
      this.mapping := mapping;
      buffer := "";
    }

    method Process(chunk: string) returns (out: string)
      requires Valid()
      modifies this
      ensures Valid()
      ensures mapping == map[] ==> out == chunk && buffer == old(buffer)
      ensures mapping != map[] ==> Scanned(out, buffer) == Scan(mapping, old(buffer) + chunk)
    {
      if mapping == map[] {
        return chunk;
      }
      buffer := buffer + chunk;
      out := "";
      ghost var whole := Scan(mapping, buffer);
      while true
        invariant whole == After(out, Scan(mapping, buffer))
        decreases |buffer|
      {
        var open := IndexOf(buffer, '<');
        OpenStep(mapping, out, buffer);
        if open == |buffer| {
          out := out + buffer;
          buffer := "";
          break;
        }
        var before := buffer[..open];
        buffer := buffer[open..];
        var hold, emit, rest := AtBracket(mapping, buffer);
        AfterMore(out + before, emit, Scan(mapping, rest));
        out := out + before + emit;
        buffer := rest;
        if hold {
          break;
        }
      }
    }

    method Flush() returns (rem: string)
      requires Valid()
      modifies this
      ensures Valid() && buffer == ""
      ensures Bracketed(mapping) ==> rem == old(buffer)
    {
      if buffer == "" {
        return "";
      }
      rem := Restore(buffer, mapping);
      if Bracketed(mapping) {
        HeldIsFixed(mapping, buffer, rem);
      }
      buffer := "";
    }
  }

  lemma HeldIsFixed(m: Mapping, held: string, r: string)
    requires Bracketed(m) && '>' !in held
    requires exists order :: IsOrder(m, order) && r == RestoreIn(m, order, held)
    ensures r == held
  {
    var order :| IsOrder(m, order) && r == RestoreIn(m, order, held);
    forall k | k in m ensures !Occurs(k, held) {
      assert k[|k| - 1] == '>';
      AbsentWithout(k, held, '>');
    }
    RestorePlain(m, order, held);
  }

  /** Each chunk in turn: what is still to come is what is held and the chunks that are left. */
  method ProcessNext(s: StreamRestorer, chunk: string, ghost left: seq<string>, ghost more: string) returns (o: string)
    requires s.Valid() && s.mapping != map[]
    requires more == Streamed(s.mapping, s.buffer, [chunk] + left)
    modifies s
    ensures s.Valid() && more == o + Streamed(s.mapping, s.buffer, left)
  {
    assert ([chunk] + left)[1..] == left;
    o := s.Process(chunk);
  }

  /** Chunks through a restorer that has something to restore. */
  method ProcessAll(s: StreamRestorer, chunks: seq<string>) returns (out: string)
    requires s.Valid() && s.mapping != map[]
    modifies s
    ensures s.Valid() && out + s.buffer == Streamed(s.mapping, old(s.buffer), chunks)
  {
    out := "";
    var rest := chunks;
    ghost var whole := Streamed(s.mapping, s.buffer, chunks);
    while rest != []
      invariant s.Valid() && whole == out + Streamed(s.mapping, s.buffer, rest)
      decreases |rest|
    {
      assert rest == [rest[0]] + rest[1..];
      var o := ProcessNext(s, rest[0], rest[1..], Streamed(s.mapping, s.buffer, rest));
      out := out + o;
      rest := rest[1..];
    }
  }

  /** A whole stream: however the text is cut, the client sees the single pass over it. */
  method RestoreStream(m: Mapping, chunks: seq<string>) returns (out: string)
    requires Bracketed(m)
    ensures KeysFit(m) ==> out == Pass(m, Concat(chunks))
    ensures m != map[] ==> out == Streamed(m, "", chunks)
  {
    var s := new StreamRestorer(m);
    if m == map[] {
      out := "";
      var rest := chunks;
      while rest != []
        invariant s.Valid() && fresh(s) && Concat(chunks) == out + Concat(rest)
        decreases |rest|
      {
        var o := s.Process(rest[0]);
        out := out + o;
        rest := rest[1..];
      }
    } else {
      out := ProcessAll(s, chunks);
    }
    var o := s.Flush();
    out := out + o;
    StreamRestored(m, chunks, out);
  }

  lemma StreamRestored(m: Mapping, chunks: seq<string>, out: string)
    requires Bracketed(m)
    requires m == map[] ==> out == Concat(chunks)
    requires m != map[] ==> out == Streamed(m, "", chunks)
    ensures KeysFit(m) ==> out == Pass(m, Concat(chunks))
  {
    if m == map[] {
      PassEmptyMap(Concat(chunks));
    } else if KeysFit(m) {
      StreamIsPass(m, "", chunks);
      assert "" + Concat(chunks) == Concat(chunks);
    }
  }
}
