/**
 Overlap resolution of detected spans (internal/guard/detect.go).

 The hits of all detectors, sorted by start with the longer one first, are thinned to a
 sequence of disjoint spans. Hits that overlap one after another form a group, and the
 survivor of a group is a longest hit of that group.
 */
module Detection {
  import opened Redaction
  import Restoration
  import Text

  function Len(m: Match): int {
    m.end - m.start
  }

  predicate Before(a: Match, b: Match) {
    a.start < b.start || (a.start == b.start && Len(a) >= Len(b))
  }

  predicate Sorted(hits: seq<Match>) {
    && (forall i :: 0 <= i < |hits| ==> hits[i].start <= hits[i].end)
    && (forall i, j :: 0 <= i < j < |hits| ==> Before(hits[i], hits[j]))
  }

  /** One step of the filter: `kept` so far, next hit `m`. */
  function Keep(kept: seq<Match>, m: Match): seq<Match> {
    if kept == [] then [m]
    else
      var last := kept[|kept| - 1];
      if m.start >= last.end then kept + [m]
      else if Len(m) > Len(last) then kept[|kept| - 1 := m]
      else kept
  }

  /** Starts never decrease and no span reaches into the next. */
  predicate Disjoint(ms: seq<Match>) {
    && (forall i :: 0 <= i < |ms| ==> ms[i].start <= ms[i].end)
    && (forall i, j :: 0 <= i < j < |ms| ==> ms[i].end <= ms[j].start)
  }

  /** The filter on the first `n` hits. */
  function KeepFirst(hits: seq<Match>, n: nat): seq<Match>
    requires n <= |hits|
  {
    if n == 0 then [] else Keep(KeepFirst(hits, n - 1), hits[n - 1])
  }

  function KeepAll(hits: seq<Match>): seq<Match> {
    KeepFirst(hits, |hits|)
  }

  ghost function Last(kept: seq<Match>): nat {
    if kept == [] then 0 else |kept| - 1
  }

  /** Hits fall into groups, one per kept span. Hit `i` belongs to the span that is last after its turn. */
  ghost function Owner(hits: seq<Match>, i: nat): nat
    requires i < |hits|
  {
    Last(KeepFirst(hits, i + 1))
  }

  // ----- the groups

  /** Hit `i` overlaps an earlier hit of its own group. */
  ghost predicate OverlapsEarlier(hits: seq<Match>, i: nat)
    requires i < |hits|
  {
    exists j :: 0 <= j < i && Owner(hits, j) == Owner(hits, i) && hits[i].start < hits[j].end
  }

  /** Hit `i` is longer than every earlier hit of its group. */
  ghost predicate Outgrows(hits: seq<Match>, i: nat)
    requires i < |hits|
  {
    forall j :: 0 <= j < i && Owner(hits, j) == Owner(hits, i) ==> Len(hits[j]) < Len(hits[i])
  }

  /** Span `m` is hit `i`, the first of the longest hits of group `k` so far. */
  ghost predicate Survives(hits: seq<Match>, i: nat, m: Match, k: nat)
    requires i < |hits|
  {
    hits[i] == m && Owner(hits, i) == k && Outgrows(hits, i)
  }

  ghost predicate IsSurvivor(hits: seq<Match>, n: nat, m: Match, k: nat)
    requires n <= |hits|
  {
    exists i :: 0 <= i < n && Survives(hits, i, m, k)
  }

  /** The group of a hit is there to stay, and its span is at least as long as the hit. */
  lemma {:induction false} OwnerHolds(hits: seq<Match>, i: nat, n: nat)
    requires i < n <= |hits|
    ensures var kept := KeepFirst(hits, n);
            Owner(hits, i) < |kept| && Len(hits[i]) <= Len(kept[Owner(hits, i)])
    decreases n
  {
    if i < n - 1 {
      OwnerHolds(hits, i, n - 1);
    }
  }

  /** Groups are consecutive. */
  lemma OwnerGrows(hits: seq<Match>, i: nat, j: nat)
    requires i < j < |hits|
    ensures Owner(hits, i) <= Owner(hits, j)
  {
    OwnerHolds(hits, i, j + 1);
  }

  lemma {:induction false} SpanSurvives(hits: seq<Match>, n: nat, k: nat)
    requires n <= |hits| && k < |KeepFirst(hits, n)|
    ensures IsSurvivor(hits, n, KeepFirst(hits, n)[k], k)
    decreases n
  {
    var kept, m := KeepFirst(hits, n - 1), hits[n - 1];
    if k < |kept| && KeepFirst(hits, n)[k] == kept[k] {
      SpanSurvives(hits, n - 1, k);
    } else {
      NewestOutgrows(hits, n - 1);
      assert Survives(hits, n - 1, m, k);
    }
  }

  /** A hit that becomes the last span is longer than all hits of its group. */
  lemma NewestOutgrows(hits: seq<Match>, i: nat)
    requires i < |hits|
    requires var kept := KeepFirst(hits, i);
             |Keep(kept, hits[i])| > |kept| || Len(hits[i]) > Len(kept[|kept| - 1])
    ensures Outgrows(hits, i)
  {
    forall j | 0 <= j < i && Owner(hits, j) == Owner(hits, i) ensures Len(hits[j]) < Len(hits[i]) {
      OwnerHolds(hits, j, i);
    }
  }

  /** Every hit of a group but its first overlaps an earlier hit of the same group. */
  lemma GroupsChain(hits: seq<Match>, i: nat)
    requires 0 < i < |hits| && Owner(hits, i) == Owner(hits, i - 1)
    ensures OverlapsEarlier(hits, i)
  {
    var kept := KeepFirst(hits, i);
    SpanSurvives(hits, i, |kept| - 1);
    var j :| 0 <= j < i && Survives(hits, j, kept[|kept| - 1], |kept| - 1);
    assert Owner(hits, j) == Owner(hits, i) && hits[i].start < hits[j].end;
  }

  // ----- disjointness

  /** The last span starts at or after the ends of the others, and at or before `start`. */
  ghost predicate LastClear(kept: seq<Match>, start: nat) {
    kept != [] ==>
      && kept[|kept| - 1].start <= start && kept[|kept| - 1].start <= kept[|kept| - 1].end
      && forall k :: 0 <= k < |kept| - 1 ==> kept[k].end <= kept[|kept| - 1].start
  }

  lemma SortedAt(hits: seq<Match>, i: nat)
    requires Sorted(hits) && i < |hits|
    ensures hits[i].start <= hits[i].end && (i > 0 ==> hits[i - 1].start <= hits[i].start)
  {
    assert i > 0 ==> Before(hits[i - 1], hits[i]);
  }

  lemma {:induction false} KeepFirstClear(hits: seq<Match>, n: nat)
    requires Sorted(hits) && n <= |hits|
    ensures LastClear(KeepFirst(hits, n), if n == 0 then 0 else hits[n - 1].start)
  {
    if n > 0 {
      KeepFirstClear(hits, n - 1);
      SortedAt(hits, n - 1);
    }
  }

  lemma KeepDisjoint(kept: seq<Match>, m: Match)
    requires Disjoint(kept) && LastClear(kept, m.start) && m.start <= m.end
    ensures Disjoint(Keep(kept, m))
  {
  }

  lemma {:induction false} KeepFirstDisjoint(hits: seq<Match>, n: nat)
    requires Sorted(hits) && n <= |hits|
    ensures Disjoint(KeepFirst(hits, n))
  {
    if n > 0 {
      KeepFirstDisjoint(hits, n - 1);
      ClearBefore(hits, n - 1);
      KeepDisjoint(KeepFirst(hits, n - 1), hits[n - 1]);
    }
  }

  /** The spans kept so far are clear of the next hit's start. */
  lemma ClearBefore(hits: seq<Match>, i: nat)
    requires Sorted(hits) && i < |hits|
    ensures LastClear(KeepFirst(hits, i), hits[i].start) && hits[i].start <= hits[i].end
  {
    KeepFirstClear(hits, i);
    SortedAt(hits, i);
  }

  lemma {:induction false} DisjointSpaced(ms: seq<Match>, last: nat)
    requires Disjoint(ms) && (ms != [] ==> last <= ms[0].start)
    ensures Spaced(ms, last)
    decreases |ms|
  {
    if ms != [] {
      assert forall i, j :: 0 <= i < j < |ms[1..]| ==> ms[1..][i] == ms[i + 1] && ms[1..][j] == ms[j + 1];
      DisjointSpaced(ms[1..], ms[0].end);
    }
  }

  /** What overlap resolution delivers: disjoint spans, one for each group of hits that overlap in turn, and
      each of them the first of the longest hits of its group. */
  ghost predicate Groups(hits: seq<Match>) {
    && (forall i :: 0 <= i < |hits| ==> Owner(hits, i) < |KeepAll(hits)|)
    && (forall i, j :: 0 <= i < j < |hits| ==> Owner(hits, i) <= Owner(hits, j))
    && (forall i :: 0 < i < |hits| && Owner(hits, i) == Owner(hits, i - 1) ==> OverlapsEarlier(hits, i))
    && (forall i :: 0 <= i < |hits| ==> Len(hits[i]) <= Len(KeepAll(hits)[Owner(hits, i)]))
    && (forall k :: 0 <= k < |KeepAll(hits)| ==> IsSurvivor(hits, |hits|, KeepAll(hits)[k], k))
  }

  lemma HitsGrouped(hits: seq<Match>)
    ensures Groups(hits)
  {
    forall i | 0 <= i < |hits|
      ensures Owner(hits, i) < |KeepAll(hits)| && Len(hits[i]) <= Len(KeepAll(hits)[Owner(hits, i)])
    {
      OwnerHolds(hits, i, |hits|);
    }
    forall i, j | 0 <= i < j < |hits| ensures Owner(hits, i) <= Owner(hits, j) {
      OwnerGrows(hits, i, j);
    }
    forall i | 0 < i < |hits| && Owner(hits, i) == Owner(hits, i - 1) ensures OverlapsEarlier(hits, i) {
      GroupsChain(hits, i);
    }
    forall k | 0 <= k < |KeepAll(hits)| ensures IsSurvivor(hits, |hits|, KeepAll(hits)[k], k) {
      SpanSurvives(hits, |hits|, k);
    }
  }

  lemma ResolvedSpans(hits: seq<Match>)
    requires Sorted(hits)
    ensures Disjoint(KeepAll(hits)) && Spaced(KeepAll(hits), 0) && Groups(hits)
    ensures forall m :: m in KeepAll(hits) ==> m in hits
  {
    ResolvedSorted(hits);
    KeepFirstDisjoint(hits, |hits|);
    HitsGrouped(hits);
  }

  lemma ResolvedSorted(hits: seq<Match>)
    requires Sorted(hits)
    ensures Spaced(KeepAll(hits), 0) && forall m :: m in KeepAll(hits) ==> m in hits
  {
    var kept := KeepAll(hits);
    KeepFirstDisjoint(hits, |hits|);
    DisjointSpaced(kept, 0);
    forall k | 0 <= k < |kept| ensures kept[k] in hits {
      var i := SpanIsHit(hits, |hits|, k);
    }
  }

  lemma SpanIsHit(hits: seq<Match>, n: nat, k: nat) returns (i: nat)
    requires n <= |hits| && k < |KeepFirst(hits, n)|
    ensures i < n && hits[i] == KeepFirst(hits, n)[k]
  {
    SpanSurvives(hits, n, k);
    i :| 0 <= i < n && Survives(hits, i, KeepFirst(hits, n)[k], k);
  }

  method ResolveOverlaps(hits: seq<Match>) returns (kept: seq<Match>)
    requires Sorted(hits)
    ensures kept == KeepAll(hits)
    ensures Spaced(kept, 0) && forall m :: m in kept ==> m in hits
  {
    kept := [];
    var i := 0;
    while i < |hits|
      invariant 0 <= i <= |hits| && kept == KeepFirst(hits, i)
    {
      var m := hits[i];
      if kept == [] {
        kept := kept + [m];
      } else {
        var last := kept[|kept| - 1];
        if m.start < last.end {
          if m.end - m.start > last.end - last.start {
            kept := kept[|kept| - 1 := m];
          }
        } else {
          kept := kept + [m];
        }
      }
      i := i + 1;
    }
    ResolvedSorted(hits);
  }

  // ----- which dropped hits stay bare

  predicate Overlaps(a: Match, b: Match) {
    a.start < b.end && b.start < a.end
  }

  predicate NonEmpty(hits: seq<Match>) {
    forall i :: 0 <= i < |hits| ==> hits[i].start < hits[i].end
  }

  /** Where a hit lies: before the end of its group's span, after the spans of earlier groups. */
  ghost predicate Placed(kept: seq<Match>, h: Match, o: nat) {
    o < |kept| && h.start < kept[o].end && forall k :: 0 <= k < o ==> kept[k].end <= h.start
  }

  /** One more hit moves the last span's end forward at most, and the new hit has its place. */
  lemma KeepPlaces(kept: seq<Match>, m: Match, h: Match, o: nat)
    requires LastClear(kept, m.start) && m.start < m.end
    ensures Placed(Keep(kept, m), m, Last(Keep(kept, m)))
    ensures Placed(kept, h, o) ==> Placed(Keep(kept, m), h, o)
  {
  }

  lemma {:induction false} KeepFirstPlaces(hits: seq<Match>, n: nat, i: nat)
    requires Sorted(hits) && NonEmpty(hits) && i < n <= |hits|
    ensures Placed(KeepFirst(hits, n), hits[i], Owner(hits, i))
    decreases n
  {
    ClearBefore(hits, n - 1);
    KeepPlaces(KeepFirst(hits, n - 1), hits[n - 1], hits[i], Owner(hits, i));
    if i < n - 1 {
      KeepFirstPlaces(hits, n - 1, i);
    }
  }

  /** A hit overlaps some span exactly when it reaches past the start of its own group's span. */
  lemma OverlapsOwnOrNone(kept: seq<Match>, h: Match, o: nat)
    requires Disjoint(kept) && Placed(kept, h, o)
    ensures (exists k :: 0 <= k < |kept| && Overlaps(h, kept[k])) <==> h.end > kept[o].start
  {
    if h.end > kept[o].start {
      assert Overlaps(h, kept[o]);
    }
  }

  /** Hit `i` overlaps a surviving span. */
  ghost predicate Touched(hits: seq<Match>, i: nat)
    requires i < |hits|
  {
    exists k :: 0 <= k < |KeepAll(hits)| && Overlaps(hits[i], KeepAll(hits)[k])
  }

  /** After `n` hits, hit `i` reaches past the start of its own group's span. */
  ghost predicate Reaches(hits: seq<Match>, n: nat, i: nat)
    requires i < n <= |hits|
  {
    Owner(hits, i) < |KeepFirst(hits, n)| && hits[i].end > KeepFirst(hits, n)[Owner(hits, i)].start
  }

  /** A reported hit overlaps a redacted span if and only if it reaches past the start of its own group's
      span; otherwise it stays in the text untouched. */
  lemma TouchedIff(hits: seq<Match>, i: nat)
    requires Sorted(hits) && NonEmpty(hits) && i < |hits|
    ensures Touched(hits, i) <==> Reaches(hits, |hits|, i)
  {
    KeepFirstDisjoint(hits, |hits|);
    KeepFirstPlaces(hits, |hits|, i);
    OverlapsOwnOrNone(KeepAll(hits), hits[i], Owner(hits, i));
  }

  /** Hit `i` overlaps hit `j`, which loses to a longer overlapping hit `k` that hit `i` does not reach. */
  predicate Bridge(hits: seq<Match>, i: nat, j: nat, k: nat)
    requires i < |hits| && j < |hits| && k < |hits|
  {
    && i < k && j < k && Len(hits[j]) < Len(hits[k])
    && Overlaps(hits[i], hits[j]) && Overlaps(hits[j], hits[k]) && hits[i].end <= hits[k].start
  }

  ghost predicate Bridged(hits: seq<Match>) {
    exists i, j, k :: 0 <= i < |hits| && 0 <= j < |hits| && 0 <= k < |hits| && Bridge(hits, i, j, k)
  }

  /** The next hit takes over a span that hit `i` reaches, so it bridges the two unless hit `i` reaches it. */
  lemma ReachNext(hits: seq<Match>, n: nat, i: nat)
    requires Sorted(hits) && NonEmpty(hits) && !Bridged(hits) && i < n < |hits| && Reaches(hits, n, i)
    ensures Reaches(hits, n + 1, i)
  {
    var kept, m, o := KeepFirst(hits, n), hits[n], Owner(hits, i);
    OwnerHolds(hits, i, n + 1);
    if Keep(kept, m)[o] != kept[o] {
      KeepFirstPlaces(hits, n, i);
      var j := SpanIsHit(hits, n, o);
      ClearBefore(hits, n);
      TakenOver(kept, m, o);
      assert !Bridge(hits, i, j, n);
    }
  }

  lemma TakenOver(kept: seq<Match>, m: Match, o: nat)
    requires o < |kept| && Keep(kept, m)[o] != kept[o] && LastClear(kept, m.start) && m.start < m.end
    ensures o == |kept| - 1 && Keep(kept, m)[o] == m && m.start < kept[o].end && Len(kept[o]) < Len(m)
  {
  }

  lemma {:induction false} ReachAll(hits: seq<Match>, n: nat, i: nat)
    requires Sorted(hits) && NonEmpty(hits) && !Bridged(hits) && i < n <= |hits|
    ensures Reaches(hits, n, i)
    decreases n
  {
    if i < n - 1 {
      ReachAll(hits, n - 1, i);
      ReachNext(hits, n - 1, i);
    } else {
      FirstReach(hits, i);
    }
  }

  lemma FirstReach(hits: seq<Match>, i: nat)
    requires Sorted(hits) && NonEmpty(hits) && i < |hits|
    ensures Reaches(hits, i + 1, i)
  {
    ClearBefore(hits, i);
  }

  /** On the hits alone: when no hit is bridged to a longer one it does not reach, every reported hit overlaps
      a redacted span. */
  lemma NoneLeftBare(hits: seq<Match>, i: nat)
    requires Sorted(hits) && NonEmpty(hits) && !Bridged(hits) && i < |hits|
    ensures Touched(hits, i)
  {
    ReachAll(hits, |hits|, i);
    TouchedIff(hits, i);
  }

  /** Three spans of a text, each running into the next. */
  lemma ChainOfThree(a: string, b: string, c: string, d: string, e: string)
    ensures var text := a + b + c + d + e;
            && text[0..|a + b|] == a + b
            && text[|a|..|a + b + c + d|] == b + c + d
            && text[|a + b + c|..|text|] == d + e
  {
  }

  const Phoned := "(555) " + "123-4567"
  const Mailed := "123-4567" + "@x." + "2001"
  const Routed := "2001" + ":0db8:85a3:0000:0000:8a2e:0370:7334"
  const Chained := "(555) " + "123-4567" + "@x." + "2001" + ":0db8:85a3:0000:0000:8a2e:0370:7334"

  const PhoneHit := Match(Phone, Phoned, 0, 14)
  const EmailHit := Match(Email, Mailed, 6, 21)
  const RouteHit := Match(IPv6, Routed, 17, 56)

  lemma ChainedWithin()
    ensures Within(Chained, [PhoneHit, EmailHit, RouteHit])
  {
    ChainOfThree("(555) ", "123-4567", "@x.", "2001", ":0db8:85a3:0000:0000:8a2e:0370:7334");
  }

  lemma BareOfThree(a: Match, b: Match, c: Match)
    requires a.start < b.start < a.end <= c.start < b.end && Len(a) < Len(b) < Len(c)
    ensures Sorted([a, b, c]) && NonEmpty([a, b, c]) && KeepAll([a, b, c]) == [c] && !Touched([a, b, c], 0)
  {
    var hits := [a, b, c];
    assert KeepFirst(hits, 1) == [a];
    assert KeepFirst(hits, 2) == [b];
    assert KeepFirst(hits, 3) == [c];
  }

  /** For example, the text (555) 123-4567@x.2001:0db8:85a3:0000:0000:8a2e:0370:7334 has a phone number run
      into an email address run into an IPv6 address: the phone hit loses to the email hit, that one to the
      IPv6 hit, and the phone number stays bare. */
  lemma DroppedHitCanBeLeftBare()
    ensures var hits := [PhoneHit, EmailHit, RouteHit];
            && Within(Chained, hits) && Sorted(hits) && NonEmpty(hits)
            && KeepAll(hits) == [RouteHit] && !Touched(hits, 0)
  {
    ChainedWithin();
    BareOfThree(PhoneHit, EmailHit, RouteHit);
  }

  /** Spans with the right values keep them: the result is what redaction expects. */
  lemma ResolvedIsDetected(text: string, hits: seq<Match>)
    requires Within(text, hits) && Sorted(hits)
    ensures Detected(text, KeepAll(hits))
  {
    var kept := KeepAll(hits);
    ResolvedSorted(hits);
    forall i | 0 <= i < |kept|
      ensures kept[i].start <= kept[i].end <= |text| && kept[i].value == text[kept[i].start..kept[i].end]
    {
      assert kept[i] in hits;
    }
  }

  /** Each text's raw hits resolved. */
  function ResolveEach(raw: seq<seq<Match>>): (hits: seq<seq<Match>>)
    ensures |hits| == |raw| && forall i :: 0 <= i < |raw| ==> hits[i] == KeepAll(raw[i])
  {
    if raw == [] then [] else [KeepAll(raw[0])] + ResolveEach(raw[1..])
  }

  /** Detectors may report any in-bounds spans, overlapping or not. */
  ghost predicate Reported(texts: seq<string>, raw: seq<seq<Match>>) {
    |raw| == |texts| && forall i :: 0 <= i < |raw| ==> Within(texts[i], raw[i]) && Sorted(raw[i])
  }

  lemma ResolvedHits(texts: seq<string>, raw: seq<seq<Match>>)
    requires Reported(texts, raw)
    ensures Hits(texts, ResolveEach(raw))
  {
    forall i | 0 <= i < |texts| ensures Detected(texts[i], ResolveEach(raw)[i]) {
      ResolvedIsDetected(texts[i], raw[i]);
    }
  }

  lemma {:induction false} KeepsFewer(hits: seq<Match>, n: nat)
    requires n <= |hits|
    ensures |KeepFirst(hits, n)| <= n
  {
    if n > 0 {
      KeepsFewer(hits, n - 1);
    }
  }

  lemma {:induction false} ResolvedFewer(raw: seq<seq<Match>>, hits: seq<seq<Match>>, n: nat)
    requires |hits| == |raw| && n <= |raw| && forall i :: 0 <= i < |raw| ==> hits[i] == KeepAll(raw[i])
    ensures Total(hits, n) <= Total(raw, n)
  {
    if n > 0 {
      ResolvedFewer(raw, hits, n - 1);
      KeepsFewer(raw[n - 1], |raw[n - 1]|);
    }
  }

  lemma ResolvedShaped(hits: seq<Match>, d: nat)
    requires MatchesShaped(hits, d)
    ensures MatchesShaped(KeepAll(hits), d)
  {
    forall k | 0 <= k < |KeepAll(hits)| ensures Shaped(KeepAll(hits)[k].value, d) {
      var i := SpanIsHit(hits, |hits|, k);
    }
  }

  /** What the stage makes of a request, given what the detectors reported. */
  ghost function Stage(texts: seq<string>, raw: seq<seq<Match>>): Batch
    requires Reported(texts, raw)
  {
    ResolvedHits(texts, raw);
    RedactAll(texts, ResolveEach(raw), |texts|)
  }

  lemma StageClear(texts: seq<string>, raw: seq<seq<Match>>, d: nat)
    requires Reported(texts, raw) && 1 <= d <= 26 && Total(raw, |raw|) < Pow10(d)
    requires AllShaped(raw, d)
    ensures Clear(Stage(texts, raw).mapping) && CountsFit(Stage(texts, raw).counts)
    ensures |Stage(texts, raw).texts| == |texts|
  {
    var hits := ResolveEach(raw);
    ResolvedHits(texts, raw);
    ResolvedFewer(raw, hits, |raw|);
    forall i | 0 <= i < |hits| ensures MatchesShaped(hits[i], d) {
      ResolvedShaped(raw[i], d);
    }
    RequestClear(texts, hits, d);
    BatchNumbered(texts, hits, |texts|);
  }

  /** Detection, redaction and restoration together: whatever shaped hits the detectors report, fewer than ten
      to the `d` of them, each text of a request that contains none of the request's placeholders comes back,
      from `Restore` in any iteration order and from any chunking of the stream. */
  lemma PipelineRecovers(texts: seq<string>, raw: seq<seq<Match>>, d: nat, i: nat,
                         order: seq<string>, chunks: seq<string>)
    requires Reported(texts, raw) && 1 <= d <= 26 && Total(raw, |raw|) < Pow10(d) && i < |texts|
    requires AllShaped(raw, d)
    requires var b := Stage(texts, raw);
             && KeyFree(b.mapping, texts[i]) && Restoration.IsOrder(b.mapping, order)
             && i < |b.texts| && Text.Concat(chunks) == b.texts[i]
    ensures var b := Stage(texts, raw);
            && Restoration.RestoreIn(b.mapping, order, b.texts[i]) == texts[i]
            && Restoration.Streamed(b.mapping, "", chunks) == texts[i]
  {
    ResolvedHits(texts, raw);
    StageClear(texts, raw, d);
    RequestRecovered(texts, ResolveEach(raw), i, order, chunks);
  }
}
