/**
 Reversible redaction (internal/guard/redact.go, the redaction loop of internal/guard/stage.go).

 Every text of a request is redacted in turn with one shared numbering, and the per-text
 mappings are merged. The claims are that no two placeholders of a request coincide and
 exactly when restoring gives each original text back.
 */
module Redaction {
  import opened Text
  import opened Restoration

  datatype PIIType = Email | IPv4 | IPv6 | CreditCard | UsSsn | Aadhaar | Phone

  function TypeName(t: PIIType): string {
    match t
    case Email => "EMAIL"
    case IPv4 => "IPV4"
    case IPv6 => "IPV6"
    case CreditCard => "CREDIT_CARD"
    case UsSsn => "US_SSN"
    case Aadhaar => "AADHAAR"
    case Phone => "PHONE"
  }

  function Digit(d: nat): char
    requires d < 10
  {
    "0123456789"[d]
  }

  /** Decimal rendering of a counter. */
  function Decimal(n: nat): string {
    if n < 10 then [Digit(n)] else Decimal(n / 10) + [Digit(n % 10)]
  }

  function Placeholder(t: PIIType, n: nat): string {
    "<" + (TypeName(t) + "_" + Decimal(n)) + ">"
  }

  datatype Match = Match(kind: PIIType, value: string, start: nat, end: nat)

  predicate Within(text: string, ms: seq<Match>) {
    forall i :: 0 <= i < |ms| ==> ms[i].start <= ms[i].end <= |text| && ms[i].value == text[ms[i].start..ms[i].end]
  }

  /** Sorted, pairwise disjoint spans from `last` on: what overlap resolution delivers. */
  predicate Spaced(ms: seq<Match>, last: nat) {
    ms == [] || (last <= ms[0].start <= ms[0].end && Spaced(ms[1..], ms[0].end))
  }

  type Counts = map<PIIType, nat>

  function Count(c: Counts, t: PIIType): nat {
    if t in c then c[t] else 0
  }

  function Bump(c: Counts, h: Match): Counts {
    c[h.kind := Count(c, h.kind) + 1]
  }

  /** The placeholder the next match of this kind gets. */
  function KeyFor(c: Counts, h: Match): string {
    Placeholder(h.kind, Count(c, h.kind) + 1)
  }

  datatype Redacted = Redacted(text: string, mapping: Mapping, counts: Counts)

  /** The redaction of `text[last..]` for the remaining matches. */
  function RedactFrom(text: string, ms: seq<Match>, last: nat, counts: Counts): Redacted
    requires Within(text, ms) && last <= |text|
    decreases |ms|
  {
    if ms == [] then Redacted(text[last..], map[], counts)
    else
      var h := ms[0];
      var r := RedactFrom(text, ms[1..], h.end, Bump(counts, h));
      Redacted((if h.start > last then text[last..h.start] else "") + (KeyFor(counts, h) + r.text),
               map[KeyFor(counts, h) := h.value] + r.mapping, r.counts)
  }

  // ----- placeholders are placeholders, and distinct

  lemma {:induction false} DecimalShape(n: nat)
    ensures Decimal(n) != "" && BracketFree(Decimal(n)) && '_' !in Decimal(n)
  {
    if n >= 10 {
      DecimalShape(n / 10);
    }
  }

  lemma {:induction false} DecimalInjective(a: nat, b: nat)
    requires Decimal(a) == Decimal(b)
    ensures a == b
  {
    var x, y := Decimal(a), Decimal(b);
    assert x[|x| - 1] == Digit(a % 10) && y[|y| - 1] == Digit(b % 10);
    assert a % 10 == b % 10;
    DecimalShape(a / 10);
    DecimalShape(b / 10);
    if a >= 10 && b >= 10 {
      assert x[..|x| - 1] == Decimal(a / 10) && y[..|y| - 1] == Decimal(b / 10);
      DecimalInjective(a / 10, b / 10);
    } else {
      assert (a >= 10 ==> |x| > 1) && (b >= 10 ==> |y| > 1);
    }
  }

  lemma SplitAtLast(a: string, d: string, b: string, e: string)
    requires '_' !in d && '_' !in e && a + "_" + d == b + "_" + e
    ensures a == b && d == e
  {
    var s, t := a + "_" + d, b + "_" + e;
    assert s[|a|] == '_' && t[|b|] == '_';
    assert forall i :: |a| < i < |s| ==> s[i] == d[i - |a| - 1];
    assert forall i :: |b| < i < |t| ==> t[i] == e[i - |b| - 1];
    assert |a| == |b|;
    assert s[..|a|] == a && t[..|b|] == b;
    assert s[|a| + 1..] == d && t[|b| + 1..] == e;
  }

  lemma PlaceholderShape(t: PIIType, n: nat)
    ensures IsPlaceholder(Placeholder(t, n))
  {
    var b := TypeName(t) + "_" + Decimal(n);
    DecimalShape(n);
    assert Body(Placeholder(t, n)) == b;
  }

  lemma PlaceholderInjective(t: PIIType, n: nat, u: PIIType, k: nat)
    requires Placeholder(t, n) == Placeholder(u, k)
    ensures t == u && n == k
  {
    var b, c := TypeName(t) + "_" + Decimal(n), TypeName(u) + "_" + Decimal(k);
    assert Placeholder(t, n)[1..|Placeholder(t, n)| - 1] == b;
    assert Placeholder(u, k)[1..|Placeholder(u, k)| - 1] == c;
    DecimalShape(n);
    DecimalShape(k);
    SplitAtLast(TypeName(t), Decimal(n), TypeName(u), Decimal(k));
    DecimalInjective(n, k);
  }

  ghost predicate InRange(k: string, t: PIIType, n: nat, low: Counts, high: Counts) {
    k == Placeholder(t, n) && Count(low, t) < n <= Count(high, t)
  }

  ghost predicate KeyInRange(k: string, low: Counts, high: Counts) {
    exists t, n: nat :: InRange(k, t, n, low, high)
  }

  /** Every key is a placeholder numbered above `low` and up to `high`. */
  ghost predicate Numbered(m: Mapping, low: Counts, high: Counts) {
    forall k :: k in m ==> KeyInRange(k, low, high)
  }

  ghost predicate NotAbove(low: Counts, high: Counts) {
    forall t :: Count(low, t) <= Count(high, t)
  }

  lemma RangesDisjoint(k: string, a: Counts, b: Counts, c: Counts)
    requires KeyInRange(k, a, b)
    ensures !KeyInRange(k, b, c)
  {
    var t, i: nat :| InRange(k, t, i, a, b);
    forall u, j: nat ensures !InRange(k, u, j, b, c) {
      if k == Placeholder(u, j) {
        PlaceholderInjective(t, i, u, j);
      }
    }
  }

  lemma NumberedDisjoint(m: Mapping, n: Mapping, a: Counts, b: Counts, c: Counts)
    requires Numbered(m, a, b) && Numbered(n, b, c)
    ensures m.Keys !! n.Keys
  {
    forall k | k in m ensures k !in n {
      RangesDisjoint(k, a, b, c);
    }
  }

  lemma RangeWider(k: string, a: Counts, b: Counts, c: Counts, d: Counts)
    requires KeyInRange(k, b, c) && NotAbove(a, b) && NotAbove(c, d)
    ensures KeyInRange(k, a, d)
  {
    var t, n: nat :| InRange(k, t, n, b, c);
    assert InRange(k, t, n, a, d);
  }

  lemma NumberedWider(m: Mapping, a: Counts, b: Counts, c: Counts, d: Counts)
    requires Numbered(m, b, c) && NotAbove(a, b) && NotAbove(c, d)
    ensures Numbered(m, a, d)
  {
    forall k | k in m ensures KeyInRange(k, a, d) {
      RangeWider(k, a, b, c, d);
    }
  }

  lemma NumberedUnion(m: Mapping, n: Mapping, a: Counts, b: Counts, c: Counts)
    requires Numbered(m, a, b) && Numbered(n, b, c) && NotAbove(a, b) && NotAbove(b, c)
    ensures Numbered(m + n, a, c) && m.Keys !! n.Keys
    ensures Extends(m, m + n) && Extends(n, m + n)
  {
    NumberedDisjoint(m, n, a, b, c);
    NumberedWider(m, a, a, b, c);
    NumberedWider(n, a, b, c, c);
  }

  lemma FirstNumbered(h: Match, counts: Counts)
    ensures NotAbove(counts, Bump(counts, h)) && Numbered(map[KeyFor(counts, h) := h.value], counts, Bump(counts, h))
  {
    assert InRange(KeyFor(counts, h), h.kind, Count(counts, h.kind) + 1, counts, Bump(counts, h));
  }

  /** One text's placeholders continue the numbering, one new key per match. */
  lemma {:induction false} RedactNumbers(text: string, ms: seq<Match>, last: nat, counts: Counts)
    requires Within(text, ms) && last <= |text|
    ensures var r := RedactFrom(text, ms, last, counts);
            NotAbove(counts, r.counts) && Numbered(r.mapping, counts, r.counts)
    decreases |ms|
  {
    if ms != [] {
      var h := ms[0];
      var c := Bump(counts, h);
      RedactNumbers(text, ms[1..], h.end, c);
      var r := RedactFrom(text, ms[1..], h.end, c);
      FirstNumbered(h, counts);
      NumberedUnion(map[KeyFor(counts, h) := h.value], r.mapping, counts, c, r.counts);
    }
  }

  /** Within one text every match gets a placeholder of its own. */
  lemma {:induction false} OneKeyPerMatch(text: string, ms: seq<Match>, last: nat, counts: Counts)
    requires Within(text, ms) && last <= |text|
    ensures |RedactFrom(text, ms, last, counts).mapping| == |ms|
    decreases |ms|
  {
    if ms != [] {
      var h := ms[0];
      var c := Bump(counts, h);
      var r := RedactFrom(text, ms[1..], h.end, c);
      OneKeyPerMatch(text, ms[1..], h.end, c);
      RedactNumbers(text, ms[1..], h.end, c);
      FirstNumbered(h, counts);
      NumberedDisjoint(map[KeyFor(counts, h) := h.value], r.mapping, counts, c, r.counts);
      AddedKey(KeyFor(counts, h), h.value, r.mapping);
    }
  }

  lemma AddedKey(k: string, v: string, m: Mapping)
    requires k !in m
    ensures |map[k := v] + m| == 1 + |m|
  {
    assert (map[k := v] + m).Keys == {k} + m.Keys;
  }

  // ----- what the redacted text looks like

  /** How many of the first `n` matches are of a kind. */
  function KindCount(ms: seq<Match>, n: nat, t: PIIType): nat
    requires n <= |ms|
  {
    if n == 0 then 0 else KindCount(ms, n - 1, t) + if ms[n - 1].kind == t then 1 else 0
  }

  /** Where match `j - 1` ends, or the text begins. */
  function EndBefore(ms: seq<Match>, j: nat): nat
    requires j <= |ms|
  {
    if j == 0 then 0 else ms[j - 1].end
  }

  /** The placeholder of match `j`: its kind, numbered on from the counter by the matches of that kind so far. */
  function PlaceholderOf(ms: seq<Match>, counts: Counts, j: nat): string
    requires j < |ms|
  {
    Placeholder(ms[j].kind, Count(counts, ms[j].kind) + KindCount(ms, j + 1, ms[j].kind))
  }

  /** Every match starts where the one before it has ended, or later. */
  predicate InTurn(text: string, ms: seq<Match>) {
    && (forall j :: 0 <= j < |ms| ==> EndBefore(ms, j) <= ms[j].start <= ms[j].end <= |text|)
    && EndBefore(ms, |ms|) <= |text|
  }

  /** From match `j` on: the text between the matches as it is, and a placeholder for each match. */
  function Blanked(text: string, ms: seq<Match>, counts: Counts, j: nat): string
    requires InTurn(text, ms) && j <= |ms|
    decreases |ms| - j
  {
    if j == |ms| then text[EndBefore(ms, j)..]
    else text[EndBefore(ms, j)..ms[j].start] + (PlaceholderOf(ms, counts, j) + Blanked(text, ms, counts, j + 1))
  }

  lemma {:induction false} SpacedFrom(ms: seq<Match>, last: nat, j: nat)
    requires Spaced(ms, last) && j <= |ms|
    ensures Spaced(ms[j..], if j == 0 then last else ms[j - 1].end)
  {
    if j > 0 {
      SpacedFrom(ms, last, j - 1);
      assert ms[j - 1..][0] == ms[j - 1] && ms[j - 1..][1..] == ms[j..];
    } else {
      assert ms[0..] == ms;
    }
  }

  lemma SpacedInTurn(text: string, ms: seq<Match>)
    requires Within(text, ms) && Spaced(ms, 0)
    ensures InTurn(text, ms)
  {
    forall j | 0 <= j < |ms| ensures EndBefore(ms, j) <= ms[j].start {
      SpacedFrom(ms, 0, j);
      assert ms[j..][0] == ms[j];
    }
  }

  /** The counters after the first `j` matches. */
  function CountsAfter(ms: seq<Match>, counts: Counts, j: nat): Counts
    requires j <= |ms|
  {
    if j == 0 then counts else Bump(CountsAfter(ms, counts, j - 1), ms[j - 1])
  }

  lemma {:induction false} CountedAfter(ms: seq<Match>, counts: Counts, j: nat, t: PIIType)
    requires j <= |ms|
    ensures Count(CountsAfter(ms, counts, j), t) == Count(counts, t) + KindCount(ms, j, t)
  {
    if j > 0 {
      CountedAfter(ms, counts, j - 1, t);
    }
  }

  lemma KeyIsPlaceholderOf(ms: seq<Match>, counts: Counts, j: nat)
    requires j < |ms|
    ensures KeyFor(CountsAfter(ms, counts, j), ms[j]) == PlaceholderOf(ms, counts, j)
  {
    CountedAfter(ms, counts, j, ms[j].kind);
  }

  lemma RestOf(ms: seq<Match>, j: nat)
    requires j < |ms|
    ensures ms[j..] != [] && ms[j..][0] == ms[j] && ms[j..][1..] == ms[j + 1..]
  {
  }

  /** The redaction from match `j` on. */
  ghost function RedactRest(text: string, ms: seq<Match>, counts: Counts, j: nat): Redacted
    requires Within(text, ms) && InTurn(text, ms) && j <= |ms|
  {
    RedactFrom(text, ms[j..], EndBefore(ms, j), CountsAfter(ms, counts, j))
  }

  lemma RedactRestStep(text: string, ms: seq<Match>, counts: Counts, j: nat)
    requires Within(text, ms) && InTurn(text, ms) && j < |ms|
    ensures var r, k := RedactRest(text, ms, counts, j + 1), PlaceholderOf(ms, counts, j);
            && RedactRest(text, ms, counts, j).text == text[EndBefore(ms, j)..ms[j].start] + (k + r.text)
            && RedactRest(text, ms, counts, j).mapping == map[k := ms[j].value] + r.mapping
  {
    RestOf(ms, j);
    KeyIsPlaceholderOf(ms, counts, j);
    assert ms[j].start == EndBefore(ms, j) ==> text[EndBefore(ms, j)..ms[j].start] == "";
  }

  /** `rests[j]` is what follows the matches before `j`. */
  ghost predicate Follows(rests: seq<string>, text: string, ms: seq<Match>, counts: Counts)
    requires InTurn(text, ms)
  {
    && |rests| == |ms| + 1 && rests[|ms|] == text[EndBefore(ms, |ms|)..]
    && forall j {:trigger PlaceholderOf(ms, counts, j)} :: 0 <= j < |ms| ==>
         rests[j] == text[EndBefore(ms, j)..ms[j].start] + (PlaceholderOf(ms, counts, j) + rests[j + 1])
  }

  lemma BlankedNext(text: string, ms: seq<Match>, counts: Counts, j: nat, rest: string, whole: string)
    requires InTurn(text, ms) && j < |ms| && rest == Blanked(text, ms, counts, j + 1)
    requires whole == text[EndBefore(ms, j)..ms[j].start] + (PlaceholderOf(ms, counts, j) + rest)
    ensures whole == Blanked(text, ms, counts, j)
  {
  }

  lemma {:induction false} FollowsBlanked(rests: seq<string>, text: string, ms: seq<Match>, counts: Counts, j: nat)
    requires InTurn(text, ms) && Follows(rests, text, ms, counts) && j <= |ms|
    ensures rests[j] == Blanked(text, ms, counts, j)
    decreases |ms| - j
  {
    if j < |ms| {
      FollowsBlanked(rests, text, ms, counts, j + 1);
      BlankedNext(text, ms, counts, j, rests[j + 1], rests[j]);
    }
  }

  ghost predicate Tells(rests: seq<string>, text: string, ms: seq<Match>, counts: Counts)
    requires Within(text, ms) && InTurn(text, ms)
  {
    && |rests| == |ms| + 1
    && forall j {:trigger RedactRest(text, ms, counts, j)} :: 0 <= j <= |ms| ==>
         rests[j] == RedactRest(text, ms, counts, j).text
  }

  lemma AllRests(text: string, ms: seq<Match>, counts: Counts) returns (rests: seq<string>)
    requires Within(text, ms) && InTurn(text, ms)
    ensures Tells(rests, text, ms, counts)
  {
    rests := seq(|ms| + 1, j requires 0 <= j <= |ms| => RedactRest(text, ms, counts, j).text);
  }

  lemma TellsNext(rests: seq<string>, text: string, ms: seq<Match>, counts: Counts, j: nat)
    requires Within(text, ms) && InTurn(text, ms) && Tells(rests, text, ms, counts) && j < |ms|
    ensures rests[j] == text[EndBefore(ms, j)..ms[j].start] + (PlaceholderOf(ms, counts, j) + rests[j + 1])
  {
    RedactRestStep(text, ms, counts, j);
    assert rests[j] == RedactRest(text, ms, counts, j).text && rests[j + 1] == RedactRest(text, ms, counts, j + 1).text;
  }

  lemma TellsLast(rests: seq<string>, text: string, ms: seq<Match>, counts: Counts)
    requires Within(text, ms) && InTurn(text, ms) && Tells(rests, text, ms, counts)
    ensures rests[|ms|] == text[EndBefore(ms, |ms|)..]
    ensures rests[0] == RedactFrom(text, ms, 0, counts).text
  {
    assert rests[|ms|] == RedactRest(text, ms, counts, |ms|).text && rests[0] == RedactRest(text, ms, counts, 0).text;
    assert ms[|ms|..] == [] && ms[0..] == ms;
  }

  lemma TellsFollows(rests: seq<string>, text: string, ms: seq<Match>, counts: Counts)
    requires Within(text, ms) && InTurn(text, ms) && Tells(rests, text, ms, counts)
    ensures Follows(rests, text, ms, counts)
  {
    TellsLast(rests, text, ms, counts);
    forall j | 0 <= j < |ms|
      ensures rests[j] == text[EndBefore(ms, j)..ms[j].start] + (PlaceholderOf(ms, counts, j) + rests[j + 1])
    {
      TellsNext(rests, text, ms, counts, j);
    }
  }

  /** A redacted text is the original with each match replaced by its placeholder: the gaps between the matches as
      they are, and nothing of a match. */
  lemma RedactedText(text: string, ms: seq<Match>, counts: Counts)
    requires Within(text, ms) && Spaced(ms, 0)
    ensures InTurn(text, ms) && RedactFrom(text, ms, 0, counts).text == Blanked(text, ms, counts, 0)
  {
    SpacedInTurn(text, ms);
    var rests := AllRests(text, ms, counts);
    TellsFollows(rests, text, ms, counts);
    TellsLast(rests, text, ms, counts);
    FollowsBlanked(rests, text, ms, counts, 0);
  }

  lemma {:induction false} RestMapped(text: string, ms: seq<Match>, counts: Counts, j: nat, i: nat)
    requires Within(text, ms) && InTurn(text, ms) && j <= i < |ms|
    ensures var m, k := RedactRest(text, ms, counts, j).mapping, PlaceholderOf(ms, counts, i);
            k in m && m[k] == ms[i].value
    decreases |ms| - j
  {
    RedactRestStep(text, ms, counts, j);
    if j < i {
      RestMapped(text, ms, counts, j + 1, i);
    } else {
      RestOf(ms, j);
      KeyIsPlaceholderOf(ms, counts, j);
      FirstKeyKept(text, ms[j..], EndBefore(ms, j), CountsAfter(ms, counts, j));
    }
  }

  /** Each match's placeholder stands for its value. */
  lemma MatchesMapped(text: string, ms: seq<Match>, counts: Counts, i: nat)
    requires Within(text, ms) && Spaced(ms, 0) && i < |ms|
    ensures var m, k := RedactFrom(text, ms, 0, counts).mapping, PlaceholderOf(ms, counts, i);
            k in m && m[k] == ms[i].value
  {
    SpacedInTurn(text, ms);
    RestMapped(text, ms, counts, 0, i);
    assert ms[0..] == ms;
  }

  /** The value of a decimal numeral. */
  function NumeralValue(s: string): nat
    requires forall x :: 0 <= x < |s| ==> '0' <= s[x] <= '9'
  {
    if s == "" then 0 else 10 * NumeralValue(s[..|s| - 1]) + (s[|s| - 1] as int - '0' as int)
  }

  /** Counters are written as usual: digits that denote the number, without a leading zero. */
  lemma {:induction false} DecimalDenotes(n: nat)
    ensures forall x :: 0 <= x < |Decimal(n)| ==> '0' <= Decimal(n)[x] <= '9'
    ensures NumeralValue(Decimal(n)) == n && Decimal(n) != "" && (Decimal(n)[0] == '0' ==> n == 0)
  {
    var s := Decimal(n);
    if n >= 10 {
      DecimalDenotes(n / 10);
      assert s[..|s| - 1] == Decimal(n / 10);
    } else {
      assert s[..|s| - 1] == "";
    }
  }

  /** The first placeholder of each kind. */
  lemma FirstPlaceholders()
    ensures Placeholder(Email, 1) == "<EMAIL_1>" && Placeholder(IPv4, 1) == "<IPV4_1>"
    ensures Placeholder(IPv6, 1) == "<IPV6_1>"
    ensures Placeholder(CreditCard, 1) == "<CREDIT_CARD_1>" && Placeholder(UsSsn, 1) == "<US_SSN_1>"
    ensures Placeholder(Aadhaar, 1) == "<AADHAAR_1>" && Placeholder(Phone, 1) == "<PHONE_1>"
  {
    assert Decimal(1) == "1";
  }

  // ----- a whole request

  datatype Batch = Batch(texts: seq<string>, mapping: Mapping, counts: Counts)

  /** What detection reports for one text: in-bounds spans, sorted and disjoint. */
  predicate Detected(text: string, ms: seq<Match>) {
    Within(text, ms) && Spaced(ms, 0)
  }

  ghost predicate Hits(texts: seq<string>, hits: seq<seq<Match>>) {
    && |hits| == |texts|
    && forall i :: 0 <= i < |texts| ==> Detected(texts[i], hits[i])
  }

  /** The first `n` texts redacted in turn with one numbering, their mappings merged. */
  ghost function RedactAll(texts: seq<string>, hits: seq<seq<Match>>, n: nat): Batch
    requires Hits(texts, hits) && n <= |texts|
  {
    if n == 0 then Batch([], map[], map[])
    else
      var b := RedactAll(texts, hits, n - 1);
      var r := RedactFrom(texts[n - 1], hits[n - 1], 0, b.counts);
      Batch(b.texts + [r.text], b.mapping + r.mapping, r.counts)
  }

  ghost predicate BatchOk(b: Batch, n: nat) {
    |b.texts| == n && Numbered(b.mapping, map[], b.counts)
  }

  lemma NextText(texts: seq<string>, hits: seq<seq<Match>>, n: nat)
    requires Hits(texts, hits) && n < |texts| && BatchOk(RedactAll(texts, hits, n), n)
    ensures var b, b' := RedactAll(texts, hits, n), RedactAll(texts, hits, n + 1);
            var r := RedactFrom(texts[n], hits[n], 0, b.counts);
            && b' == Batch(b.texts + [r.text], b.mapping + r.mapping, r.counts)
            && BatchOk(b', n + 1) && b.mapping.Keys !! r.mapping.Keys
            && Extends(b.mapping, b'.mapping) && Extends(r.mapping, b'.mapping)
  {
    var b := RedactAll(texts, hits, n);
    var r := RedactFrom(texts[n], hits[n], 0, b.counts);
    RedactNumbers(texts[n], hits[n], 0, b.counts);
    NumberedUnion(b.mapping, r.mapping, map[], b.counts, r.counts);
  }

  lemma {:induction false} BatchNumbered(texts: seq<string>, hits: seq<seq<Match>>, n: nat)
    requires Hits(texts, hits) && n <= |texts|
    ensures BatchOk(RedactAll(texts, hits, n), n)
  {
    if n > 0 {
      BatchNumbered(texts, hits, n - 1);
      NextText(texts, hits, n - 1);
    }
  }

  /** Merging the next text's mapping never meets an existing key. */
  lemma NoCollision(texts: seq<string>, hits: seq<seq<Match>>, n: nat)
    requires Hits(texts, hits) && n < |texts|
    ensures var b := RedactAll(texts, hits, n);
            b.mapping.Keys !! RedactFrom(texts[n], hits[n], 0, b.counts).mapping.Keys
  {
    BatchNumbered(texts, hits, n);
    NextText(texts, hits, n);
  }

  ghost predicate Extends(m: Mapping, n: Mapping) {
    forall k :: k in m ==> k in n && n[k] == m[k]
  }

  ghost predicate Holds(b: Batch, i: nat, r: Redacted) {
    i < |b.texts| && b.texts[i] == r.text && Extends(r.mapping, b.mapping)
  }

  lemma Grows(texts: seq<string>, hits: seq<seq<Match>>, n: nat)
    requires Hits(texts, hits) && n < |texts|
    ensures var b, b' := RedactAll(texts, hits, n), RedactAll(texts, hits, n + 1);
            b.texts <= b'.texts && Extends(b.mapping, b'.mapping)
  {
    BatchNumbered(texts, hits, n);
    NextText(texts, hits, n);
  }

  lemma HoldsFirst(texts: seq<string>, hits: seq<seq<Match>>, i: nat)
    requires Hits(texts, hits) && i < |texts|
    ensures Holds(RedactAll(texts, hits, i + 1), i,
                  RedactFrom(texts[i], hits[i], 0, RedactAll(texts, hits, i).counts))
  {
    BatchNumbered(texts, hits, i);
    NextText(texts, hits, i);
  }

  lemma HoldsNext(texts: seq<string>, hits: seq<seq<Match>>, n: nat, i: nat, r: Redacted)
    requires Hits(texts, hits) && n < |texts| && Holds(RedactAll(texts, hits, n), i, r)
    ensures Holds(RedactAll(texts, hits, n + 1), i, r)
  {
    Grows(texts, hits, n);
  }

  /** The merged result keeps each text's own redaction and mapping. */
  lemma {:induction false} HoldsAlways(texts: seq<string>, hits: seq<seq<Match>>, n: nat, i: nat, r: Redacted)
    requires Hits(texts, hits) && n <= |texts| && Holds(RedactAll(texts, hits, n), i, r)
    ensures Holds(RedactAll(texts, hits, |texts|), i, r)
    decreases |texts| - n
  {
    if n < |texts| {
      HoldsNext(texts, hits, n, i, r);
      HoldsAlways(texts, hits, n + 1, i, r);
    }
  }

  // ----- round trip

  /** The conditions on the originals: no brackets, and none hidden in a placeholder. */
  ghost predicate Clear(m: Mapping) {
    Bracketed(m) && forall j, k :: j in m && k in m ==> !Occurs(m[j], Body(k))
  }

  ghost predicate KeyFree(m: Mapping, text: string) {
    forall k :: k in m ==> !Occurs(k, text)
  }

  lemma KeyFreeSlice(m: Mapping, text: string, a: nat, b: nat)
    requires KeyFree(m, text) && a <= b <= |text|
    ensures KeyFree(m, text[a..b])
  {
    forall k | k in m && Occurs(k, text[a..b]) ensures false {
      OccursInSlice(k, text, a, b);
    }
  }

  lemma KeyNotAcross(k: string, g: string, t: string)
    requires IsPlaceholder(k) && !Occurs(k, g) && (t == "" || t[0] == '<') && g != ""
    ensures !(k <= g + t)
  {
    if |k| <= |g| {
      assert !OccursAt(k, g, 0);
      assert (g + t)[..|k|] == g[0..|k|];
    } else if t != "" {
      assert (g + t)[|g|] == '<';
      assert |g| < |k| - 1 ==> k[|g|] == Body(k)[|g| - 1];
    }
  }

  lemma KeylessHead(m: Mapping, g: string, t: string)
    requires Bracketed(m) && KeyFree(m, g) && (t == "" || t[0] == '<') && g != ""
    ensures Pass(m, g + t) == [g[0]] + Pass(m, g[1..] + t)
  {
    forall k | k in m ensures !(k <= g + t) {
      KeyNotAcross(k, g, t);
    }
    PassCopies(m, g, t);
  }

  lemma {:induction false} PassKeyless(m: Mapping, g: string, t: string)
    requires Bracketed(m) && KeyFree(m, g) && (t == "" || t[0] == '<')
    ensures Pass(m, g + t) == g + Pass(m, t)
    decreases |g|
  {
    if g == "" {
      assert g + t == t;
    } else {
      KeylessHead(m, g, t);
      KeyFreeSlice(m, g, 1, |g|);
      assert g[1..|g|] == g[1..];
      PassKeyless(m, g[1..], t);
      Glue([g[0]], g[1..], Pass(m, t));
      assert g == [g[0]] + g[1..];
    }
  }

  lemma UndoStep(m: Mapping, text: string, ms: seq<Match>, last: nat, counts: Counts, rest: string)
    requires Within(text, ms) && ms != [] && last <= ms[0].start <= ms[0].end <= |text|
    requires Bracketed(m) && KeyFree(m, text) && KeyFor(counts, ms[0]) in m && m[KeyFor(counts, ms[0])] == ms[0].value
    requires Pass(m, rest) == text[ms[0].end..]
    ensures Pass(m, text[last..ms[0].start] + (KeyFor(counts, ms[0]) + rest)) == text[last..]
  {
    var h := ms[0];
    KeyFreeSlice(m, text, last, h.start);
    PassAtKey(m, text[last..h.start], KeyFor(counts, h), rest);
    Rejoined(text, last, h.start, h.end);
  }

  lemma Rejoined(text: string, a: nat, b: nat, c: nat)
    requires a <= b <= c <= |text|
    ensures text[a..] == text[a..b] + (text[b..c] + text[c..])
  {
  }

  lemma {:induction false} PassUndoesRedact(m: Mapping, text: string, ms: seq<Match>, last: nat, counts: Counts)
    requires Within(text, ms) && last <= |text| && Spaced(ms, last)
    requires Bracketed(m) && KeyFree(m, text) && Extends(RedactFrom(text, ms, last, counts).mapping, m)
    ensures Pass(m, RedactFrom(text, ms, last, counts).text) == text[last..]
    decreases |ms|
  {
    if ms == [] {
      KeyFreeSlice(m, text, last, |text|);
      assert text[last..] == text[last..|text|] == text[last..|text|] + "";
      PassKeyless(m, text[last..|text|], "");
    } else {
      var h := ms[0];
      var c := Bump(counts, h);
      var r := RedactFrom(text, ms[1..], h.end, c);
      FirstKeyKept(text, ms, last, counts);
      assert Extends(r.mapping, m);
      PassUndoesRedact(m, text, ms[1..], h.end, c);
      UndoStep(m, text, ms, last, counts, r.text);
      assert h.start == last ==> text[last..h.start] == "";
    }
  }

  lemma PassAtKey(m: Mapping, g: string, p: string, r: string)
    requires Bracketed(m) && KeyFree(m, g) && p in m
    ensures Pass(m, g + (p + r)) == g + (m[p] + Pass(m, r))
  {
    PassKeyless(m, g, p + r);
    PassKey(m, p + r, p);
    assert (p + r)[|p|..] == r;
  }

  lemma FirstKeyKept(text: string, ms: seq<Match>, last: nat, counts: Counts)
    requires Within(text, ms) && last <= |text| && ms != []
    ensures var p := KeyFor(counts, ms[0]);
            var r := RedactFrom(text, ms[1..], ms[0].end, Bump(counts, ms[0]));
            var full := RedactFrom(text, ms, last, counts).mapping;
            p in full && full[p] == ms[0].value && Extends(r.mapping, full)
  {
    var h := ms[0];
    var c := Bump(counts, h);
    var r := RedactFrom(text, ms[1..], h.end, c);
    RedactNumbers(text, ms[1..], h.end, c);
    FirstNumbered(h, counts);
    NumberedUnion(map[KeyFor(counts, h) := h.value], r.mapping, counts, c, r.counts);
  }

  // ----- the pass never leaves a placeholder behind

  lemma {:induction false} FragmentOfPass(m: Mapping, p: string, s: string)
    requires Bracketed(m) && BracketFree(p) && forall k :: k in m ==> !Occurs(m[k], p)
    ensures p + ">" <= Pass(m, s) ==> p + ">" <= s
    decreases |p|
  {
    var q := p + ">";
    if s == "" {
    } else if exists k :: KeyAt(m, s, k) {
      var k :| KeyAt(m, s, k);
      PassKey(m, s, k);
      ValueIsNoFragment(p, m[k], Pass(m, s[|k|..]));
    } else {
      PassChar(m, s);
      var r := Pass(m, s[1..]);
      assert ([s[0]] + r)[1..] == r;
      if p != "" {
        assert q[1..] == p[1..] + ">";
        forall k | k in m ensures !Occurs(m[k], p[1..]) {
          if Occurs(m[k], p[1..]) {
            OccursShift(m[k], p);
            assert false;
          }
        }
        FragmentOfPass(m, p[1..], s[1..]);
        assert s == [s[0]] + s[1..];
      }
    }
  }

  lemma NoKeyStartsPass(m: Mapping, s: string, k: string)
    requires Clear(m) && k in m && s != "" && !exists j :: KeyAt(m, s, j)
    ensures !(k <= Pass(m, s))
  {
    PassChar(m, s);
    FragmentOfPass(m, Body(k), s[1..]);
    assert !KeyAt(m, s, k);
    assert s == [s[0]] + s[1..];
    NoKeyAfterCopy(k, s[0], s[1..], Pass(m, s[1..]));
  }

  lemma {:induction false} PassIsKeyFree(m: Mapping, s: string, k: string, i: int)
    requires Clear(m) && k in m
    ensures !OccursAt(k, Pass(m, s), i)
    decreases |s|
  {
    if s == "" {
    } else if exists j :: KeyAt(m, s, j) {
      var j :| KeyAt(m, s, j);
      PassKey(m, s, j);
      var v, r := m[j], Pass(m, s[|j|..]);
      PassIsKeyFree(m, s[|j|..], k, i - |v|);
      OccursAfter(k, v, r, i);
    } else {
      PassChar(m, s);
      var r := Pass(m, s[1..]);
      if i == 0 {
        NoKeyStartsPass(m, s, k);
        if |k| <= |Pass(m, s)| {
          assert Pass(m, s)[0..|k|] != k;
        }
      } else {
        PassIsKeyFree(m, s[1..], k, i - 1);
        assert 1 <= i && i + |k| <= |[s[0]] + r| ==> ([s[0]] + r)[i..i + |k|] == r[i - 1..i - 1 + |k|];
      }
    }
  }

  lemma OccursAfter(k: string, v: string, r: string, i: int)
    requires IsPlaceholder(k) && BracketFree(v) && !OccursAt(k, r, i - |v|)
    ensures !OccursAt(k, v + r, i)
  {
    if 0 <= i && i + |k| <= |v + r| {
      if i < |v| {
        assert (v + r)[i..i + |k|][0] == v[i] != k[0];
      } else {
        assert (v + r)[i..i + |k|] == r[i - |v|..i - |v| + |k|];
      }
    }
  }

  /** Text `i` of the final batch is a redaction of the original, with its mapping merged. */
  lemma FinalText(texts: seq<string>, hits: seq<seq<Match>>, i: nat) returns (c: Counts)
    requires Hits(texts, hits) && i < |texts|
    ensures Detected(texts[i], hits[i]) && BatchOk(RedactAll(texts, hits, |texts|), |texts|)
    ensures Holds(RedactAll(texts, hits, |texts|), i, RedactFrom(texts[i], hits[i], 0, c))
  {
    c := RedactAll(texts, hits, i).counts;
    BatchNumbered(texts, hits, |texts|);
    HoldsFirst(texts, hits, i);
    HoldsAlways(texts, hits, i + 1, i, RedactFrom(texts[i], hits[i], 0, c));
  }

  lemma TextRoundTrip(m: Mapping, text: string, ms: seq<Match>, c: Counts, out: string)
    requires Clear(m) && Detected(text, ms) && out == RedactFrom(text, ms, 0, c).text
    requires Extends(RedactFrom(text, ms, 0, c).mapping, m)
    ensures Pass(m, out) == text <==> KeyFree(m, text)
  {
    if KeyFree(m, text) {
      PassUndoesRedact(m, text, ms, 0, c);
      assert text[0..] == text;
    } else {
      var k :| k in m && Occurs(k, text);
      var j :| OccursAt(k, text, j);
      PassIsKeyFree(m, out, k, j);
    }
  }

  /** Redact-then-restore over a whole request: with originals that are clear of the
      placeholders, text `i` comes back exactly when it did not itself contain one of them. */
  lemma RoundTripIff(texts: seq<string>, hits: seq<seq<Match>>, i: nat)
    requires Hits(texts, hits) && i < |texts| && Clear(RedactAll(texts, hits, |texts|).mapping)
    ensures var b := RedactAll(texts, hits, |texts|);
            |b.texts| == |texts| && (Pass(b.mapping, b.texts[i]) == texts[i] <==> KeyFree(b.mapping, texts[i]))
  {
    var b := RedactAll(texts, hits, |texts|);
    var c := FinalText(texts, hits, i);
    TextRoundTrip(b.mapping, texts[i], hits[i], c, b.texts[i]);
  }

  /** Without the condition it fails: a prompt that spells out a placeholder gets it replaced. */
  lemma RoundTripCanFail()
    ensures var texts := ["<EMAIL_1> a@b.co"];
            var hits := [[Match(Email, "a@b.co", 10, 16)]];
            && Hits(texts, hits)
            && RedactAll(texts, hits, 1).texts == ["<EMAIL_1> <EMAIL_1>"]
            && Pass(RedactAll(texts, hits, 1).mapping, "<EMAIL_1> <EMAIL_1>") != texts[0]
  {
    var text := "<EMAIL_1> a@b.co";
    var ms := [Match(Email, "a@b.co", 10, 16)];
    assert text[10..16] == "a@b.co";
    assert Spaced(ms, 0) by { assert ms[1..] == []; }
    EmailOnce(text, ms);
    var b := RedactAll([text], [ms], 1);
    assert RedactAll([text], [ms], 0) == Batch([], map[], map[]);
    assert b.mapping == map["<EMAIL_1>" := "a@b.co"];
    EmailPass();
  }

  lemma EmailKey()
    ensures Placeholder(Email, 1) == "<EMAIL_1>"
  {
    assert Decimal(1) == "1";
  }

  /** A text with one match. */
  lemma RedactOne(text: string, m: Match, counts: Counts)
    requires Within(text, [m]) && m.start > 0
    ensures m.start <= m.end <= |text|
    ensures var r := RedactFrom(text, [m], 0, counts);
            && r.text == text[0..m.start] + (KeyFor(counts, m) + text[m.end..])
            && r.mapping == map[KeyFor(counts, m) := m.value]
  {
    assert [m][0] == m && [m][1..] == [];
    assert RedactFrom(text, [], m.end, Bump(counts, m)).mapping == map[];
  }

  lemma EmailOnce(text: string, ms: seq<Match>)
    requires text == "<EMAIL_1> a@b.co" && ms == [Match(Email, "a@b.co", 10, 16)] && Within(text, ms)
    ensures var r := RedactFrom(text, ms, 0, map[]);
            r.text == "<EMAIL_1> <EMAIL_1>" && r.mapping == map["<EMAIL_1>" := "a@b.co"]
  {
    EmailKey();
    RedactOne(text, ms[0], map[]);
    assert text[0..10] == "<EMAIL_1> " && text[16..] == "";
  }

  lemma EmailPass()
    ensures Pass(map["<EMAIL_1>" := "a@b.co"], "<EMAIL_1> <EMAIL_1>") != "<EMAIL_1> a@b.co"
  {
    EmailKey();
    PlaceholderShape(Email, 1);
    var m := map["<EMAIL_1>" := "a@b.co"];
    PassKey(m, "<EMAIL_1> <EMAIL_1>", "<EMAIL_1>");
    assert Pass(m, "<EMAIL_1> <EMAIL_1>")[0] == 'a';
  }

  // ----- every way of restoring a whole request

  ghost function Pow10(d: nat): nat {
    if d == 0 then 1 else 10 * Pow10(d - 1)
  }

  lemma {:induction false} DecimalLength(n: nat, d: nat)
    requires d >= 1 && n < Pow10(d)
    ensures |Decimal(n)| <= d
    decreases d
  {
    if n >= 10 {
      assert Pow10(1) == 10 * Pow10(0);
      assert n / 10 < Pow10(d - 1);
      DecimalLength(n / 10, d - 1);
    }
  }

  /** Counters of up to 26 digits give placeholders the scanner can recognise. */
  lemma PlaceholderFits(t: PIIType, n: nat)
    requires n < Pow10(26)
    ensures |Placeholder(t, n)| <= MAX_PLACEHOLDER_LEN
  {
    DecimalLength(n, 26);
  }

  ghost predicate CountsFit(c: Counts) {
    forall t :: Count(c, t) < Pow10(26)
  }

  lemma NumberedFits(m: Mapping, c: Counts)
    requires Numbered(m, map[], c) && CountsFit(c)
    ensures KeysFit(m)
  {
    forall k | k in m ensures |k| <= MAX_PLACEHOLDER_LEN + 1 {
      assert KeyInRange(k, map[], c);
      var t, n: nat :| InRange(k, t, n, map[], c);
      PlaceholderFits(t, n);
    }
  }

  // ----- originals that cannot be mistaken for part of a placeholder

  predicate IsDigit(c: char) {
    '0' <= c <= '9'
  }

  /** The characters of placeholder bodies. */
  predicate InBody(c: char) {
    'A' <= c <= 'Z' || IsDigit(c) || c == '_'
  }

  /** What detectors report has no brackets; it has some character of another kind (an `@`, a dot, a colon, a
      hyphen, a space), or it is a digit string longer than any counter of at most `d` digits. */
  ghost predicate Shaped(v: string, d: nat) {
    BracketFree(v) && ((exists x :: 0 <= x < |v| && !InBody(v[x])) || (|v| > d && |v| >= 2 && AllDigits(v)))
  }

  predicate AllDigits(v: string) {
    forall x :: 0 <= x < |v| ==> IsDigit(v[x])
  }

  lemma {:induction false} DecimalDigits(n: nat)
    ensures AllDigits(Decimal(n))
  {
    if n >= 10 {
      DecimalDigits(n / 10);
    }
  }

  lemma StrangeNotInside(v: string, b: string, x: nat)
    requires x < |v| && !InBody(v[x]) && forall y :: 0 <= y < |b| ==> InBody(b[y])
    ensures !Occurs(v, b)
  {
    forall i ensures !OccursAt(v, b, i) {
      assert 0 <= i && i + |v| <= |b| ==> b[i..i + |v|][x] == b[i + x];
    }
  }

  /** A digit string longer than the number does not fit behind the underscore, and not before it. */
  lemma DigitsNotInside(v: string, name: string, number: string)
    requires AllDigits(v) && |v| >= 2 && |v| > |number|
    requires forall x :: 0 <= x < |name| - 1 ==> !(IsDigit(name[x]) && IsDigit(name[x + 1]))
    ensures !Occurs(v, name + "_" + number)
  {
    var b := name + "_" + number;
    forall i ensures !OccursAt(v, b, i) {
      if 0 <= i && i + |v| <= |b| {
        var w := b[i..i + |v|];
        if i + |v| <= |name| {
          assert w[0] == name[i] && w[1] == name[i + 1];
        } else {
          assert w[|name| - i] == b[|name|] == '_';
        }
      }
    }
  }

  lemma ShapedNotInside(v: string, t: PIIType, n: nat, d: nat)
    requires Shaped(v, d) && 1 <= d && n < Pow10(d)
    ensures !Occurs(v, TypeName(t) + "_" + Decimal(n))
  {
    DecimalDigits(n);
    DecimalLength(n, d);
    var b := TypeName(t) + "_" + Decimal(n);
    if AllDigits(v) && |v| >= 2 && |v| > d {
      DigitsNotInside(v, TypeName(t), Decimal(n));
    } else {
      var x :| 0 <= x < |v| && !InBody(v[x]);
      StrangeNotInside(v, b, x);
    }
  }

  ghost predicate CountsBelow(c: Counts, d: nat) {
    forall t :: Count(c, t) < Pow10(d)
  }

  ghost predicate ValuesShaped(m: Mapping, d: nat) {
    forall k :: k in m ==> Shaped(m[k], d)
  }

  lemma ShapedClear(m: Mapping, c: Counts, d: nat)
    requires Numbered(m, map[], c) && CountsBelow(c, d) && 1 <= d && ValuesShaped(m, d)
    ensures Clear(m)
  {
    forall k | k in m ensures IsPlaceholder(k) && BracketFree(m[k]) {
      var t, n := KeyShaped(m, c, k);
    }
    forall j, k | j in m && k in m ensures !Occurs(m[j], Body(k)) {
      var t, n := KeyShaped(m, c, k);
      ShapedNotInside(m[j], t, n, d);
    }
  }

  lemma KeyShaped(m: Mapping, c: Counts, k: string) returns (t: PIIType, n: nat)
    requires Numbered(m, map[], c) && k in m
    ensures IsPlaceholder(k) && Body(k) == TypeName(t) + "_" + Decimal(n) && n <= Count(c, t)
  {
    assert KeyInRange(k, map[], c);
    t, n :| InRange(k, t, n, map[], c);
    PlaceholderShape(t, n);
    assert Placeholder(t, n)[1..|k| - 1] == TypeName(t) + "_" + Decimal(n);
  }

  ghost predicate MatchesShaped(ms: seq<Match>, d: nat) {
    forall j :: 0 <= j < |ms| ==> Shaped(ms[j].value, d)
  }

  /** One text's values are those of its matches, and each match raises one counter by one. */
  lemma {:induction false} RedactShaped(text: string, ms: seq<Match>, last: nat, counts: Counts, d: nat)
    requires Within(text, ms) && last <= |text| && MatchesShaped(ms, d)
    ensures ValuesShaped(RedactFrom(text, ms, last, counts).mapping, d)
    decreases |ms|
  {
    if ms != [] {
      assert forall j :: 0 <= j < |ms[1..]| ==> ms[1..][j] == ms[j + 1];
      RedactShaped(text, ms[1..], ms[0].end, Bump(counts, ms[0]), d);
    }
  }

  lemma {:induction false} RedactCounts(text: string, ms: seq<Match>, last: nat, counts: Counts, t: PIIType)
    requires Within(text, ms) && last <= |text|
    ensures Count(RedactFrom(text, ms, last, counts).counts, t) <= Count(counts, t) + |ms|
    decreases |ms|
  {
    if ms != [] {
      RedactCounts(text, ms[1..], ms[0].end, Bump(counts, ms[0]), t);
    }
  }

  /** How many matches the first `n` texts have. */
  function Total(hits: seq<seq<Match>>, n: nat): nat
    requires n <= |hits|
  {
    if n == 0 then 0 else Total(hits, n - 1) + |hits[n - 1]|
  }

  lemma NextCounts(b: Batch, text: string, ms: seq<Match>, t: PIIType)
    requires Within(text, ms)
    ensures Count(RedactFrom(text, ms, 0, b.counts).counts, t) <= Count(b.counts, t) + |ms|
  {
    RedactCounts(text, ms, 0, b.counts, t);
  }

  lemma NextShaped(b: Batch, text: string, ms: seq<Match>, d: nat)
    requires Within(text, ms) && ValuesShaped(b.mapping, d) && MatchesShaped(ms, d)
    ensures ValuesShaped(b.mapping + RedactFrom(text, ms, 0, b.counts).mapping, d)
  {
    RedactShaped(text, ms, 0, b.counts, d);
  }

  lemma {:induction false} BatchCounts(bs: seq<Batch>, texts: seq<string>, hits: seq<seq<Match>>, n: nat, t: PIIType)
    requires Hits(texts, hits) && n <= |texts| && Batches(bs, texts, hits)
    ensures Count(bs[n].counts, t) <= Total(hits, n)
  {
    if n > 0 {
      BatchCounts(bs, texts, hits, n - 1, t);
      BatchCountsNext(bs, texts, hits, n - 1, t);
    }
  }

  lemma BatchCountsNext(bs: seq<Batch>, texts: seq<string>, hits: seq<seq<Match>>, n: nat, t: PIIType)
    requires Hits(texts, hits) && n < |texts| && Batches(bs, texts, hits)
    ensures Count(bs[n + 1].counts, t) <= Count(bs[n].counts, t) + |hits[n]|
  {
    NextBatch(bs, texts, hits, n);
    assert Detected(texts[n], hits[n]);
    NextCounts(bs[n], texts[n], hits[n], t);
  }

  ghost predicate AllShaped(hits: seq<seq<Match>>, d: nat) {
    forall i :: 0 <= i < |hits| ==> MatchesShaped(hits[i], d)
  }

  lemma {:induction false} BatchShaped(bs: seq<Batch>, texts: seq<string>, hits: seq<seq<Match>>, n: nat, d: nat)
    requires Hits(texts, hits) && n <= |texts| && Batches(bs, texts, hits) && AllShaped(hits, d)
    ensures ValuesShaped(bs[n].mapping, d)
  {
    if n > 0 {
      BatchShaped(bs, texts, hits, n - 1, d);
      BatchShapedNext(bs, texts, hits, n - 1, d);
    }
  }

  lemma BatchShapedNext(bs: seq<Batch>, texts: seq<string>, hits: seq<seq<Match>>, n: nat, d: nat)
    requires Hits(texts, hits) && n < |texts| && Batches(bs, texts, hits)
    requires MatchesShaped(hits[n], d) && ValuesShaped(bs[n].mapping, d)
    ensures ValuesShaped(bs[n + 1].mapping, d)
  {
    NextBatch(bs, texts, hits, n);
    assert Detected(texts[n], hits[n]);
    NextShaped(bs[n], texts[n], hits[n], d);
  }

  lemma {:induction false} Pow10Grows(d: nat, e: nat)
    requires d <= e
    ensures Pow10(d) <= Pow10(e)
    decreases e
  {
    if d < e {
      Pow10Grows(d, e - 1);
    }
  }

  /** With fewer than ten to the `d` matches, all of them shaped, no original can be mistaken for part of a
      placeholder, and the stream scanner recognises every placeholder. */
  lemma RequestClear(texts: seq<string>, hits: seq<seq<Match>>, d: nat)
    requires Hits(texts, hits) && 1 <= d <= 26 && Total(hits, |hits|) < Pow10(d)
    requires AllShaped(hits, d)
    ensures Clear(RedactAll(texts, hits, |texts|).mapping) && CountsFit(RedactAll(texts, hits, |texts|).counts)
  {
    var bs := AllBatches(texts, hits);
    var b := bs[|texts|];
    assert b == RedactAll(texts, hits, |texts|);
    Pow10Grows(d, 26);
    forall t ensures Count(b.counts, t) < Pow10(d) {
      BatchCounts(bs, texts, hits, |texts|, t);
    }
    BatchNumbered(texts, hits, |texts|);
    BatchShaped(bs, texts, hits, |texts|, d);
    ShapedClear(b.mapping, b.counts, d);
  }

  /** A request whose texts contain none of its placeholders is recovered exactly, whatever order
      `Restore` iterates in and however the redacted text is cut into stream chunks. */
  lemma RequestRecovered(texts: seq<string>, hits: seq<seq<Match>>, i: nat, order: seq<string>, chunks: seq<string>)
    requires Hits(texts, hits) && i < |texts|
    requires var b := RedactAll(texts, hits, |texts|);
             && Clear(b.mapping) && KeyFree(b.mapping, texts[i]) && CountsFit(b.counts)
             && IsOrder(b.mapping, order) && |b.texts| == |texts| && Concat(chunks) == b.texts[i]
    ensures var b := RedactAll(texts, hits, |texts|);
            RestoreIn(b.mapping, order, b.texts[i]) == texts[i] && Streamed(b.mapping, "", chunks) == texts[i]
  {
    var b := RedactAll(texts, hits, |texts|);
    RoundTripIff(texts, hits, i);
    RestoreInIsPass(b.mapping, order, b.texts[i]);
    BatchNumbered(texts, hits, |texts|);
    NumberedFits(b.mapping, b.counts);
    StreamIsPass(b.mapping, "", chunks);
    assert "" + Concat(chunks) == b.texts[i];
  }

  // ----- the imperative form

  class Numberer {
    var counts: Counts

    constructor ()
      ensures counts == map[]
    {
      counts := map[];
    }
  }

  ghost function Then(done: string, known: Mapping, r: Redacted): Redacted {
    Redacted(done + r.text, known + r.mapping, r.counts)
  }

  lemma ThenStep(text: string, ms: seq<Match>, last: nat, counts: Counts, done: string, known: Mapping)
    requires Within(text, ms) && last <= |text| && ms != []
    ensures var h := ms[0];
            var gap := if h.start > last then text[last..h.start] else "";
            Then(done, known, RedactFrom(text, ms, last, counts))
            == Then(done + gap + KeyFor(counts, h), known[KeyFor(counts, h) := h.value],
                    RedactFrom(text, ms[1..], h.end, Bump(counts, h)))
  {
    var h := ms[0];
    var k := KeyFor(counts, h);
    var gap := if h.start > last then text[last..h.start] else "";
    var r := RedactFrom(text, ms[1..], h.end, Bump(counts, h));
    GlueFour(done, gap, k, r.text);
    KnownFirst(known, k, h.value, r.mapping);
  }

  lemma GlueFour(a: string, b: string, c: string, d: string)
    ensures a + (b + (c + d)) == a + b + c + d
  {
    Glue(b, c, d);
    Glue(a, b + c, d);
    Glue(a, b, c);
  }

  lemma KnownFirst(known: Mapping, k: string, v: string, m: Mapping)
    ensures known + (map[k := v] + m) == known[k := v] + m
  {
  }

  /** One text: the numbering object is advanced in place. */
  method Redact(text: string, ms: seq<Match>, n: Numberer) returns (redacted: string, mapping: Mapping)
    requires Within(text, ms)
    modifies n
    ensures Redacted(redacted, mapping, n.counts) == RedactFrom(text, ms, 0, old(n.counts))
  {
    if |ms| == 0 {
      assert text[0..] == text;
      return text, map[];
    }
    redacted, mapping := "", map[];
    var last: nat := 0;
    var rest := ms;
    ghost var whole := RedactFrom(text, ms, 0, n.counts);
    assert Then("", map[], whole) == whole;
    while rest != []
      invariant last <= |text| && Within(text, rest)
      invariant whole == Then(redacted, mapping, RedactFrom(text, rest, last, n.counts))
      decreases |rest|
    {
      var h := rest[0];
      ThenStep(text, rest, last, n.counts, redacted, mapping);
      var gap := if h.start > last then text[last..h.start] else "";
      var key := KeyFor(n.counts, h);
      n.counts := Bump(n.counts, h);
      mapping := mapping[key := h.value];
      redacted := redacted + gap + key;
      last := h.end;
      rest := rest[1..];
    }
    assert mapping + map[] == mapping;
    if last < |text| {
      redacted := redacted + text[last..];
    }
  }

  /** One message: redact it if anything was detected and merge its mapping; `warned` is the
      collision warning of the merge loop. */
  method RedactMessage(text: string, ms: seq<Match>, num: Numberer, known: Mapping)
    returns (redacted: string, all: Mapping, warned: bool)
    requires Within(text, ms)
    modifies num
    ensures var r := RedactFrom(text, ms, 0, old(num.counts));
            && redacted == r.text && all == known + r.mapping && num.counts == r.counts
            && (warned <==> exists k :: k in r.mapping && k in known && known[k] != r.mapping[k])
  {
    if |ms| == 0 {
      assert text[0..] == text && known + map[] == known;
      return text, known, false;
    }
    var mapping;
    redacted, mapping := Redact(text, ms, num);
    all := known + mapping;
    warned := exists k :: k in mapping && k in known && known[k] != mapping[k];
  }

  /** `bs[i]` is the batch of the first `i` texts. */
  ghost predicate Batches(bs: seq<Batch>, was: seq<string>, hits: seq<seq<Match>>)
    requires Hits(was, hits)
  {
    && |bs| == |was| + 1 && bs[0] == Batch([], map[], map[])
    && forall i {:trigger RedactAll(was, hits, i)} :: 0 <= i <= |was| ==> bs[i] == RedactAll(was, hits, i)
  }

  lemma AllBatches(was: seq<string>, hits: seq<seq<Match>>) returns (bs: seq<Batch>)
    requires Hits(was, hits)
    ensures Batches(bs, was, hits)
  {
    bs := seq(|was| + 1, i requires 0 <= i <= |was| => RedactAll(was, hits, i));
  }

  /** Text `i` is redacted from the numbering before it, and its keys are new. */
  lemma NextBatch(bs: seq<Batch>, was: seq<string>, hits: seq<seq<Match>>, i: nat)
    requires Hits(was, hits) && i < |was| && Batches(bs, was, hits)
    ensures var r := RedactFrom(was[i], hits[i], 0, bs[i].counts);
            && bs[i + 1] == Batch(bs[i].texts + [r.text], bs[i].mapping + r.mapping, r.counts)
            && bs[i].mapping.Keys !! r.mapping.Keys
  {
    assert bs[i] == RedactAll(was, hits, i) && bs[i + 1] == RedactAll(was, hits, i + 1);
    NoCollision(was, hits, i);
  }

  /** The next text of a request, given the batches. */
  method RedactNext(text: string, ms: seq<Match>, num: Numberer, known: Mapping,
                    ghost was: seq<string>, ghost hits: seq<seq<Match>>, ghost bs: seq<Batch>, ghost i: nat)
    returns (redacted: string, all: Mapping, warned: bool)
    requires Hits(was, hits) && i < |was| && text == was[i] && ms == hits[i] && Batches(bs, was, hits)
    requires num.counts == bs[i].counts && known == bs[i].mapping
    modifies num
    ensures bs[i + 1] == Batch(bs[i].texts + [redacted], all, num.counts) && !warned
  {
    NextBatch(bs, was, hits, i);
    redacted, all, warned := RedactMessage(text, ms, num, known);
  }

  /** The texts of `was` with the first ones replaced by `done`. */
  ghost predicate Rewritten(texts: seq<string>, done: seq<string>, was: seq<string>) {
    |done| <= |was| && texts == done + was[|done|..]
  }

  class Request {
    var texts: seq<string>

    constructor (texts: seq<string>)
      ensures this.texts == texts
    {
      this.texts := texts;
    }

    /** One turn of the loop: text `i` is rewritten in place. */
    method RedactAt(i: nat, hits: seq<seq<Match>>, num: Numberer, known: Mapping,
                    ghost was: seq<string>, ghost bs: seq<Batch>)
      returns (all: Mapping, warned: bool)
      requires Hits(was, hits) && i < |was| && Batches(bs, was, hits)
      requires |bs[i].texts| == i && Rewritten(texts, bs[i].texts, was)
      requires num.counts == bs[i].counts && known == bs[i].mapping
      modifies this, num
      ensures num.counts == bs[i + 1].counts && all == bs[i + 1].mapping && !warned
      ensures |bs[i + 1].texts| == i + 1 && Rewritten(texts, bs[i + 1].texts, was)
    {
      var redacted;
      redacted, all, warned := RedactNext(texts[i], hits[i], num, known, was, hits, bs, i);
      texts := texts[i := redacted];
    }

    /** All texts of a request, rewritten in place with one numbering; `hits[i]` is what detection finds in
        text `i`. The collision warning of the merge step is never raised. */
    method RedactTexts(hits: seq<seq<Match>>) returns (all: Mapping, warned: bool)
      requires Hits(texts, hits)
      modifies this
      ensures var b := RedactAll(old(texts), hits, |old(texts)|);
              texts == b.texts && all == b.mapping
      ensures !warned
    {
      var num := new Numberer();
      all, warned := map[], false;
      ghost var was := texts;
      ghost var bs := AllBatches(was, hits);
      var i := 0;
      while i < |texts|
        invariant 0 <= i <= |was| && |bs[i].texts| == i && Rewritten(texts, bs[i].texts, was) && !warned && fresh(num)
        invariant all == bs[i].mapping && num.counts == bs[i].counts
        decreases |was| - i
      {
        var w;
        all, w := RedactAt(i, hits, num, all, was, bs);
        warned := warned || w;
        i := i + 1;
      }
    }
  }
}
