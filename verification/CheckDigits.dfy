/**
 Check digits (internal/guard/detect.go): the Verhoeff fold over the dihedral group of order
 ten and the Luhn sum, on digit strings of any length.
 */
module CheckDigits {

  type Digit = d: int | 0 <= d < 10

  const D: seq<seq<Digit>> := [
    [0, 1, 2, 3, 4, 5, 6, 7, 8, 9],
    [1, 2, 3, 4, 0, 6, 7, 8, 9, 5],
    [2, 3, 4, 0, 1, 7, 8, 9, 5, 6],
    [3, 4, 0, 1, 2, 8, 9, 5, 6, 7],
    [4, 0, 1, 2, 3, 9, 5, 6, 7, 8],
    [5, 9, 8, 7, 6, 0, 4, 3, 2, 1],
    [6, 5, 9, 8, 7, 1, 0, 4, 3, 2],
    [7, 6, 5, 9, 8, 2, 1, 0, 4, 3],
    [8, 7, 6, 5, 9, 3, 2, 1, 0, 4],
    [9, 8, 7, 6, 5, 4, 3, 2, 1, 0]]

  const P: seq<seq<Digit>> := [
    [0, 1, 2, 3, 4, 5, 6, 7, 8, 9],
    [1, 5, 7, 6, 2, 8, 3, 0, 9, 4],
    [5, 8, 0, 3, 7, 9, 6, 1, 4, 2],
    [8, 9, 1, 6, 0, 4, 3, 5, 2, 7],
    [9, 4, 5, 3, 1, 2, 6, 8, 7, 0],
    [4, 2, 8, 6, 5, 7, 3, 9, 0, 1],
    [2, 7, 9, 3, 8, 0, 6, 4, 1, 5],
    [7, 0, 4, 6, 9, 1, 3, 2, 5, 8]]

  /** Reduction modulo five of a sum or difference of two residues. */
  ghost function Wrap(n: int): int {
    if n < 0 then n + 5 else if n >= 5 then n - 5 else n
  }

  /** Multiplication in the dihedral group: 0-4 are rotations, 5-9 reflections. */
  ghost function Mul(x: Digit, y: Digit): Digit {
    if x < 5 then
      if y < 5 then Wrap(x + y) else 5 + Wrap(x + y - 5)
    else
      if y < 5 then 5 + Wrap(x - 5 - y) else Wrap(x - y)
  }

  lemma TableIsGroup(x: Digit, y: Digit)
    ensures |D| == 10 && |D[x]| == 10 && D[x][y] == Mul(x, y)
  {
  }

  lemma RotationFirst(x: Digit, y: Digit, z: Digit)
    requires x < 5
    ensures Mul(Mul(x, y), z) == Mul(x, Mul(y, z))
  {
  }

  lemma ReflectionFirst(x: Digit, y: Digit, z: Digit)
    requires x >= 5
    ensures Mul(Mul(x, y), z) == Mul(x, Mul(y, z))
  {
  }

  lemma MulAssociative(x: Digit, y: Digit, z: Digit)
    ensures Mul(Mul(x, y), z) == Mul(x, Mul(y, z))
  {
    if x < 5 {
      RotationFirst(x, y, z);
    } else {
      ReflectionFirst(x, y, z);
    }
  }

  lemma MulCancelLeft(x: Digit, y: Digit, z: Digit)
    requires Mul(x, y) == Mul(x, z)
    ensures y == z
  {
  }

  /** The permutation rows are the powers of row 1, of order eight. */
  lemma RowsArePowers(i: nat, d: Digit)
    requires i < 8
    ensures |P| == 8 && |P[i]| == 10 && |P[1]| == 10 && |P[(i + 1) % 8]| == 10
    ensures P[(i + 1) % 8][d] == P[1][P[i][d]]
  {
  }

  lemma RowInjective(i: nat, a: Digit, b: Digit)
    requires i < 8 && |P| == 8 && |P[i]| == 10 && P[i][a] == P[i][b]
    ensures a == b
  {
  }

  /** The heart of the scheme: row 1 is anti-symmetric with respect to the group. */
  lemma AntiSymmetric(x: Digit, y: Digit)
    requires |P[1]| == 10 && Mul(x, P[1][y]) == Mul(y, P[1][x])
    ensures x == y
  {
  }

  // ----- Verhoeff

  type Step = (Digit, nat, Digit) -> Digit

  /** A left fold that also passes the position: `digits[0]` is the rightmost digit. */
  function Fold(step: Step, c: Digit, i: nat, digits: seq<Digit>): Digit
    decreases |digits|
  {
    if digits == [] then c else Fold(step, step(c, i, digits[0]), i + 1, digits[1..])
  }

  function VerhoeffStep(c: Digit, i: nat, d: Digit): (r: Digit)
    ensures r == Mul(c, Row(i, d))
  {
    RowsArePowers(i % 8, d);
    TableIsGroup(c, P[i % 8][d]);
    D[c][P[i % 8][d]]
  }

  function Verhoeff(digits: seq<Digit>): Digit {
    Fold(VerhoeffStep, 0, 0, digits)
  }

  function Row(i: nat, d: Digit): Digit {
    RowsArePowers(i % 8, d);
    P[i % 8][d]
  }

  lemma RowNext(i: nat, d: Digit)
    ensures Row(i + 1, d) == Row(1, Row(i, d))
  {
    assert (i + 1) % 8 == (i % 8 + 1) % 8;
    RowsArePowers(i % 8, d);
  }

  lemma RowSeparates(i: nat, a: Digit, b: Digit)
    requires a != b
    ensures Row(i, a) != Row(i, b)
  {
    if Row(i, a) == Row(i, b) {
      RowInjective(i % 8, a, b);
      assert false;
    }
  }

  lemma SwapRows(x: Digit, y: Digit)
    requires x != y
    ensures Mul(x, Row(1, y)) != Mul(y, Row(1, x))
  {
    if Mul(x, Row(1, y)) == Mul(y, Row(1, x)) {
      AntiSymmetric(x, y);
      assert false;
    }
  }

  lemma {:induction false} FoldSplit(step: Step, c: Digit, i: nat, a: seq<Digit>, b: seq<Digit>)
    ensures Fold(step, c, i, a + b) == Fold(step, Fold(step, c, i, a), i + |a|, b)
    decreases |a|
  {
    if a == [] {
      assert a + b == b;
    } else {
      assert (a + b)[1..] == a[1..] + b;
      FoldSplit(step, step(c, i, a[0]), i + 1, a[1..], b);
    }
  }

  lemma FoldAround(step: Step, pre: seq<Digit>, mid: seq<Digit>, post: seq<Digit>)
    ensures Fold(step, 0, 0, pre + mid + post)
         == Fold(step, Fold(step, Fold(step, 0, 0, pre), |pre|, mid), |pre| + |mid|, post)
  {
    FoldSplit(step, 0, 0, pre + mid, post);
    FoldSplit(step, 0, 0, pre, mid);
  }

  lemma FoldOne(step: Step, c: Digit, i: nat, a: Digit)
    ensures Fold(step, c, i, [a]) == step(c, i, a)
  {
    assert [a][1..] == [];
  }

  lemma FoldTwo(step: Step, c: Digit, i: nat, a: Digit, b: Digit)
    ensures Fold(step, c, i, [a, b]) == step(step(c, i, a), i + 1, b)
  {
    assert [a, b][1..] == [b];
    FoldOne(step, step(c, i, a), i + 1, b);
  }

  /** Different running values stay different. */
  ghost predicate Cancels(step: Step) {
    forall c, e, i: nat, d :: c != e ==> step(c, i, d) != step(e, i, d)
  }

  lemma {:induction false} FoldInjective(step: Step, c: Digit, e: Digit, i: nat, digits: seq<Digit>)
    requires Cancels(step) && c != e
    ensures Fold(step, c, i, digits) != Fold(step, e, i, digits)
    decreases |digits|
  {
    if digits != [] {
      FoldInjective(step, step(c, i, digits[0]), step(e, i, digits[0]), i + 1, digits[1..]);
    }
  }

  lemma VerhoeffCancels()
    ensures Cancels(VerhoeffStep)
  {
    forall c: Digit, e: Digit, i: nat, d: Digit | c != e ensures VerhoeffStep(c, i, d) != VerhoeffStep(e, i, d) {
      if Mul(c, Row(i, d)) == Mul(e, Row(i, d)) {
        assert false;
      }
    }
  }

  lemma StepSeparates(c: Digit, i: nat, a: Digit, b: Digit)
    requires a != b
    ensures VerhoeffStep(c, i, a) != VerhoeffStep(c, i, b)
  {
    RowSeparates(i, a, b);
    if Mul(c, Row(i, a)) == Mul(c, Row(i, b)) {
      MulCancelLeft(c, Row(i, a), Row(i, b));
      assert false;
    }
  }

  lemma TwoSteps(c: Digit, i: nat, a: Digit, b: Digit)
    ensures VerhoeffStep(VerhoeffStep(c, i, a), i + 1, b) == Mul(c, Mul(Row(i, a), Row(1, Row(i, b))))
  {
    RowNext(i, b);
    MulAssociative(c, Row(i, a), Row(1, Row(i, b)));
  }

  lemma SwapSeparates(c: Digit, i: nat, a: Digit, b: Digit)
    requires a != b
    ensures VerhoeffStep(VerhoeffStep(c, i, a), i + 1, b) != VerhoeffStep(VerhoeffStep(c, i, b), i + 1, a)
  {
    var x, y := Row(i, a), Row(i, b);
    RowSeparates(i, a, b);
    SwapRows(x, y);
    TwoSteps(c, i, a, b);
    TwoSteps(c, i, b, a);
    if Mul(c, Mul(x, Row(1, y))) == Mul(c, Mul(y, Row(1, x))) {
      MulCancelLeft(c, Mul(x, Row(1, y)), Mul(y, Row(1, x)));
      assert false;
    }
  }

  /** Every single-digit change of a string changes its Verhoeff check value. */
  lemma VerhoeffCatchesSubstitution(pre: seq<Digit>, a: Digit, b: Digit, post: seq<Digit>)
    requires a != b
    ensures Verhoeff(pre + [a] + post) != Verhoeff(pre + [b] + post)
  {
    var f := VerhoeffStep;
    var c, i := Fold(f, 0, 0, pre), |pre|;
    FoldAround(f, pre, [a], post);
    FoldAround(f, pre, [b], post);
    FoldOne(f, c, i, a);
    FoldOne(f, c, i, b);
    StepSeparates(c, i, a, b);
    VerhoeffCancels();
    FoldInjective(f, f(c, i, a), f(c, i, b), i + 1, post);
  }

  /** Every swap of two unequal adjacent digits changes the check value. */
  lemma VerhoeffCatchesSwap(pre: seq<Digit>, a: Digit, b: Digit, post: seq<Digit>)
    requires a != b
    ensures Verhoeff(pre + [a, b] + post) != Verhoeff(pre + [b, a] + post)
  {
    var f := VerhoeffStep;
    var c, i := Fold(f, 0, 0, pre), |pre|;
    FoldAround(f, pre, [a, b], post);
    FoldAround(f, pre, [b, a], post);
    FoldTwo(f, c, i, a, b);
    FoldTwo(f, c, i, b, a);
    SwapSeparates(c, i, a, b);
    VerhoeffCancels();
    FoldInjective(f, Fold(f, c, i, [a, b]), Fold(f, c, i, [b, a]), i + 2, post);
  }

  // ----- Luhn

  function Doubled(d: Digit): Digit {
    if 2 * d > 9 then 2 * d - 9 else 2 * d
  }

  /** The Luhn sum from the right; `alt` says whether the first digit is doubled. */
  function LuhnSum(alt: bool, digits: seq<Digit>): nat
    decreases |digits|
  {
    if digits == [] then 0
    else (if alt then Doubled(digits[0]) else digits[0]) + LuhnSum(!alt, digits[1..])
  }

  lemma {:induction false} LuhnSplit(alt: bool, a: seq<Digit>, b: seq<Digit>)
    ensures LuhnSum(alt, a + b) == LuhnSum(alt, a) + LuhnSum(if |a| % 2 == 0 then alt else !alt, b)
    decreases |a|
  {
    if a == [] {
      assert a + b == b;
    } else {
      assert (a + b)[1..] == a[1..] + b;
      LuhnSplit(!alt, a[1..], b);
    }
  }

  lemma LuhnAround(pre: seq<Digit>, mid: seq<Digit>, post: seq<Digit>)
    ensures LuhnSum(false, pre + mid + post)
         == LuhnSum(false, pre) + LuhnSum(|pre| % 2 == 1, mid) + LuhnSum((|pre| + |mid|) % 2 == 1, post)
  {
    LuhnSplit(false, pre + mid, post);
    LuhnSplit(false, pre, mid);
  }

  /** Every single-digit change moves the sum off its residue modulo ten. */
  lemma LuhnCatchesSubstitution(pre: seq<Digit>, a: Digit, b: Digit, post: seq<Digit>)
    requires a != b
    ensures LuhnSum(false, pre + [a] + post) % 10 != LuhnSum(false, pre + [b] + post) % 10
  {
    LuhnAround(pre, [a], post);
    LuhnAround(pre, [b], post);
    var alt := |pre| % 2 == 1;
    LuhnOne(alt, a);
    LuhnOne(alt, b);
    ResidueMoves(LuhnSum(alt, [a]), LuhnSum(alt, [b]),
                 LuhnSum(false, pre) + LuhnSum((|pre| + 1) % 2 == 1, post));
  }

  lemma LuhnOne(alt: bool, a: Digit)
    ensures LuhnSum(alt, [a]) == if alt then Doubled(a) else a
  {
    assert [a][1..] == [];
  }

  lemma ResidueMoves(x: int, y: int, rest: int)
    requires x != y && -10 < x - y < 10
    ensures (x + rest) % 10 != (y + rest) % 10
  {
  }

  lemma LuhnTwo(alt: bool, a: Digit, b: Digit)
    ensures LuhnSum(alt, [a, b]) == if alt then Doubled(a) + b else a + Doubled(b)
  {
    assert [a, b][1..] == [b];
    LuhnOne(!alt, b);
  }

  lemma ResidueStays(x: int, y: int, rest: int)
    requires x - y == 0 || x - y == 10 || x - y == -10
    ensures (x + rest) % 10 == (y + rest) % 10
  {
  }

  /** The Luhn sum misses an adjacent swap exactly when the two digits are 0 and 9. */
  lemma LuhnCatchesSwapIff(pre: seq<Digit>, a: Digit, b: Digit, post: seq<Digit>)
    requires a != b
    ensures LuhnSum(false, pre + [a, b] + post) % 10 == LuhnSum(false, pre + [b, a] + post) % 10
            <==> (a, b) == (0, 9) || (a, b) == (9, 0)
  {
    LuhnAround(pre, [a, b], post);
    LuhnAround(pre, [b, a], post);
    var alt := |pre| % 2 == 1;
    LuhnTwo(alt, a, b);
    LuhnTwo(alt, b, a);
    SwapResidue(alt, a, b, LuhnSum(false, pre) + LuhnSum((|pre| + 2) % 2 == 1, post));
  }

  lemma SwapResidue(alt: bool, a: Digit, b: Digit, rest: int)
    requires a != b
    ensures var x, y := if alt then Doubled(a) + b else a + Doubled(b), if alt then Doubled(b) + a else b + Doubled(a);
            (x + rest) % 10 == (y + rest) % 10 <==> (a, b) == (0, 9) || (a, b) == (9, 0)
  {
    var x := if alt then Doubled(a) + b else a + Doubled(b);
    var y := if alt then Doubled(b) + a else b + Doubled(a);
    if x - y == 0 || x - y == 10 || x - y == -10 {
      ResidueStays(x, y, rest);
    } else {
      ResidueMoves(x, y, rest);
    }
  }

  // ----- the validators

  predicate IsDigit(c: char) {
    '0' <= c <= '9'
  }

  function DigitOf(c: char): Digit
    requires IsDigit(c)
  {
    c as int - '0' as int
  }

  /** The digits of `s`, rightmost first. */
  function DigitsFromRight(s: string): seq<Digit> {
    if s == "" then []
    else
      var c := s[|s| - 1];
      (if IsDigit(c) then [DigitOf(c)] else []) + DigitsFromRight(s[..|s| - 1])
  }

  /** The collecting loop shared by both validators: reject foreign characters, keep the digits. */
  method Collect(s: string, separators: set<char>) returns (ok: bool, digits: seq<Digit>)
    requires forall c :: c in separators ==> !IsDigit(c)
    ensures ok <==> forall c :: c in s ==> IsDigit(c) || c in separators
    ensures ok ==> Reversed(digits) == DigitsFromRight(s)
  {
    digits := [];
    var i := 0;
    while i < |s|
      invariant 0 <= i <= |s|
      invariant forall j :: 0 <= j < i ==> IsDigit(s[j]) || s[j] in separators
      invariant Reversed(digits) == DigitsFromRight(s[..i])
    {
      assert s[..i + 1][..i] == s[..i] && s[..i + 1][i] == s[i];
      if IsDigit(s[i]) {
        digits := digits + [DigitOf(s[i])];
      } else if s[i] !in separators {
        return false, digits;
      }
      i := i + 1;
    }
    assert s[..i] == s;
    ok := true;
  }

  function Reversed(s: seq<Digit>): (r: seq<Digit>)
    ensures |r| == |s| && forall i :: 0 <= i < |s| ==> r[i] == s[|s| - 1 - i]
  {
    seq(|s|, i requires 0 <= i < |s| => s[|s| - 1 - i])
  }

  method VerhoeffValid(s: string) returns (ok: bool)
    ensures ok <==> (forall c :: c in s ==> IsDigit(c) || c == ' ')
                    && |DigitsFromRight(s)| == 12 && Verhoeff(DigitsFromRight(s)) == 0
  {
    var good, digits := Collect(s, {' '});
    if !good || |digits| != 12 {
      return false;
    }
    ghost var right := Reversed(digits);
    var c: Digit := 0;
    var i := 0;
    while i < |digits|
      invariant 0 <= i <= |digits|
      invariant Verhoeff(right) == Fold(VerhoeffStep, c, i, right[i..])
    {
      var d := digits[|digits| - 1 - i];
      assert right[i..][0] == d && right[i..][1..] == right[i + 1..];
      c := VerhoeffStep(c, i, d);
      i := i + 1;
    }
    ok := c == 0;
  }

  method LuhnValid(s: string) returns (ok: bool)
    ensures ok <==> (forall c :: c in s ==> IsDigit(c) || c == ' ' || c == '-')
                    && 13 <= |DigitsFromRight(s)| <= 19 && LuhnSum(false, DigitsFromRight(s)) % 10 == 0
  {
    var good, digits := Collect(s, {' ', '-'});
    if !good || |digits| < 13 || |digits| > 19 {
      return false;
    }
    var sum := LuhnTotal(digits);
    ok := sum % 10 == 0;
  }

  method LuhnTotal(digits: seq<Digit>) returns (sum: nat)
    ensures sum == LuhnSum(false, Reversed(digits))
  {
    var alt := false;
    var i := |digits|;
    sum := 0;
    assert digits[..i] == digits;
    while i > 0
      invariant 0 <= i <= |digits|
      invariant LuhnSum(false, Reversed(digits)) == sum + LuhnSum(alt, Reversed(digits[..i]))
    {
      LuhnLast(alt, digits[..i]);
      assert digits[..i][..i - 1] == digits[..i - 1];
      i := i - 1;
      var d := digits[i];
      if alt {
        d := Doubled(d);
      }
      sum := sum + d;
      alt := !alt;
    }
  }

  lemma LuhnLast(alt: bool, ds: seq<Digit>)
    requires ds != []
    ensures var d := ds[|ds| - 1];
            LuhnSum(alt, Reversed(ds)) == (if alt then Doubled(d) else d) + LuhnSum(!alt, Reversed(ds[..|ds| - 1]))
  {
    assert Reversed(ds)[1..] == Reversed(ds[..|ds| - 1]);
  }

  // ----- what the digits are

  lemma DigitOfChar(c: char)
    requires IsDigit(c)
    ensures "0123456789"[DigitOf(c)] == c
  {
  }

  lemma DigitsSnoc(s: string, c: char)
    ensures DigitsFromRight(s + [c]) == (if IsDigit(c) then [DigitOf(c)] else []) + DigitsFromRight(s)
  {
    assert (s + [c])[..|s|] == s;
  }

  lemma {:induction false} DigitsJoin(s: string, t: string)
    ensures DigitsFromRight(s + t) == DigitsFromRight(t) + DigitsFromRight(s)
    decreases |t|
  {
    if t == "" {
      assert s + t == s;
    } else {
      var u := t[..|t| - 1];
      assert s + t == (s + u) + [t[|t| - 1]] && t == u + [t[|t| - 1]];
      DigitsSnoc(s + u, t[|t| - 1]);
      DigitsSnoc(u, t[|t| - 1]);
      DigitsJoin(s, u);
    }
  }

  /** The number 236 has the Verhoeff check digit 3, and no other. */
  lemma VerhoeffKnown(d: Digit)
    ensures Verhoeff([d, 6, 3, 2]) == 0 <==> d == 3
  {
    var f := VerhoeffStep;
    assert [d, 6, 3, 2][1..] == [6, 3, 2] && [6, 3, 2][1..] == [3, 2] && [3, 2][1..] == [2] && [2][1..] == [];
    var c1 := f(0, 0, d);
    var c2 := f(c1, 1, 6);
    var c3 := f(c2, 2, 3);
    assert Fold(f, 0, 0, [d, 6, 3, 2]) == Fold(f, c1, 1, [6, 3, 2]);
    assert Fold(f, c1, 1, [6, 3, 2]) == Fold(f, c2, 2, [3, 2]);
    assert Fold(f, c2, 2, [3, 2]) == Fold(f, c3, 3, [2]) == f(c3, 3, 2);
  }

  /** The number 1789372997 has the Luhn check digit 4, and no other. */
  lemma LuhnKnown(d: Digit)
    ensures LuhnSum(false, [d, 7, 9, 9, 2, 7, 3, 9, 8, 7, 1]) % 10 == 0 <==> d == 4
  {
    LuhnSplit(false, [d, 7, 9, 9], [2, 7, 3, 9, 8, 7, 1]);
    assert [d, 7, 9, 9] + [2, 7, 3, 9, 8, 7, 1] == [d, 7, 9, 9, 2, 7, 3, 9, 8, 7, 1];
    LuhnSplit(false, [2, 7, 3, 9], [8, 7, 1]);
    assert [2, 7, 3, 9] + [8, 7, 1] == [2, 7, 3, 9, 8, 7, 1];
    LuhnFour(d, 7, 9, 9);
    LuhnFour(2, 7, 3, 9);
    LuhnThree(8, 7, 1);
  }

  lemma LuhnThree(a: Digit, b: Digit, c: Digit)
    ensures LuhnSum(false, [a, b, c]) == a + Doubled(b) + c
  {
    LuhnTwo(true, b, c);
    assert [a, b, c][1..] == [b, c];
  }

  lemma LuhnFour(a: Digit, b: Digit, c: Digit, d: Digit)
    ensures LuhnSum(false, [a, b, c, d]) == a + Doubled(b) + c + Doubled(d)
  {
    LuhnTwo(false, c, d);
    assert [a, b, c, d][1..] == [b, c, d] && [b, c, d][1..] == [c, d];
    assert LuhnSum(true, [b, c, d]) == Doubled(b) + LuhnSum(false, [c, d]);
  }
}
