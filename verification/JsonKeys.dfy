/**
 Rejection of duplicate and case-variant JSON keys (internal/mcpproxy/jsonrpc.go).

 The checker walks a decoder's token stream with two mutually recursive routines. It is proved
 against a predicate on the JSON tree (section 4 of RFC 8259 leaves duplicate names open). `lower`,
 the case folding of keys, is any function on strings.
 */
module JsonKeys {

  datatype Token = OpenObject | CloseObject | OpenArray | CloseArray | Text(s: string) | Scalar

  datatype Json =
    | Atom
    | Literal(s: string)
    | Object(fields: seq<Field>)
    | Array(items: seq<Json>)

  datatype Field = Field(key: string, value: Json)

  type Fold = string -> string

  // ----- the tree side

  function Tokens(v: Json): seq<Token>
    decreases v, 0
  {
    match v
    case Atom => [Scalar]
    case Literal(s) => [Text(s)]
    case Object(fields) => [OpenObject] + (FieldTokens(fields) + [CloseObject])
    case Array(items) => [OpenArray] + (ItemTokens(items) + [CloseArray])
  }

  function FieldTokens(fields: seq<Field>): seq<Token>
    decreases fields, 1
  {
    if fields == [] then [] else [Text(fields[0].key)] + (Tokens(fields[0].value) + FieldTokens(fields[1..]))
  }

  function ItemTokens(items: seq<Json>): seq<Token>
    decreases items, 1
  {
    if items == [] then [] else Tokens(items[0]) + ItemTokens(items[1..])
  }

  /** Every object at every depth has keys that stay distinct when folded. */
  ghost predicate Clean(lower: Fold, v: Json)
    decreases v
  {
    match v
    case Object(fields) =>
      && (forall i, j :: 0 <= i < j < |fields| ==> lower(fields[i].key) != lower(fields[j].key))
      && (forall i :: 0 <= i < |fields| ==> Clean(lower, fields[i].value))
    case Array(items) => forall i :: 0 <= i < |items| ==> Clean(lower, items[i])
    case _ => true
  }

  // ----- the checker

  datatype Checked = Ok(rest: seq<Token>) | Error

  /** Whether the current object or array goes on. */
  predicate More(ts: seq<Token>) {
    ts != [] && !ts[0].CloseObject? && !ts[0].CloseArray?
  }

  /** The loop of checkObject from the current position, with the folded keys seen so far. */
  function CheckFields(lower: Fold, ts: seq<Token>, seen: set<string>): (r: Checked)
    ensures r.Ok? ==> |r.rest| < |ts|
    decreases |ts|, 0
  {
    if !More(ts) then
      if ts != [] && ts[0].CloseObject? then Ok(ts[1..]) else Error
    else if !ts[0].Text? || lower(ts[0].s) in seen || |ts| == 1 then Error
    else
      var after := CheckNested(lower, ts[1], ts[2..]);
      if after.Error? then Error else CheckFields(lower, after.rest, seen + {lower(ts[0].s)})
  }

  /** The loop of checkArray. */
  function CheckItems(lower: Fold, ts: seq<Token>): (r: Checked)
    ensures r.Ok? ==> |r.rest| < |ts|
    decreases |ts|, 0
  {
    if !More(ts) then
      if ts != [] && ts[0].CloseArray? then Ok(ts[1..]) else Error
    else
      var after := CheckNested(lower, ts[0], ts[1..]);
      if after.Error? then Error else CheckItems(lower, after.rest)
  }

  /** A value whose first token has just been read. */
  function CheckNested(lower: Fold, first: Token, ts: seq<Token>): (r: Checked)
    ensures r.Ok? ==> |r.rest| <= |ts|
    decreases |ts|, 1
  {
    match first
    case OpenObject => CheckFields(lower, ts, {})
    case OpenArray => CheckItems(lower, ts)
    case _ => Ok(ts)
  }

  /** rejectDuplicateKeys accepts the whole stream. */
  predicate Accepts(lower: Fold, ts: seq<Token>) {
    && ts != []
    && (ts[0].OpenObject? || ts[0].OpenArray?)
    && var r := CheckNested(lower, ts[0], ts[1..]);
       r.Ok? && r.rest == []
  }

  // ----- the checker against the tree

  ghost function Outcome(ok: bool, rest: seq<Token>): Checked {
    if ok then Ok(rest) else Error
  }

  /** The recursive reading of `Clean` on fields, given keys already seen. */
  ghost predicate FieldsClean(lower: Fold, fields: seq<Field>, seen: set<string>)
    decreases |fields|
  {
    fields == [] ||
    (lower(fields[0].key) !in seen && Clean(lower, fields[0].value)
     && FieldsClean(lower, fields[1..], seen + {lower(fields[0].key)}))
  }

  lemma {:induction false} FieldsCleanIff(lower: Fold, fields: seq<Field>, seen: set<string>)
    ensures FieldsClean(lower, fields, seen) <==>
              && (forall i :: 0 <= i < |fields| ==> lower(fields[i].key) !in seen && Clean(lower, fields[i].value))
              && (forall i, j :: 0 <= i < j < |fields| ==> lower(fields[i].key) != lower(fields[j].key))
    decreases |fields|
  {
    if fields != [] {
      var tail := fields[1..];
      FieldsCleanIff(lower, tail, seen + {lower(fields[0].key)});
      assert forall i :: 1 <= i < |fields| ==> fields[i] == tail[i - 1];
      assert forall i :: 0 <= i < |tail| ==> tail[i] == fields[i + 1];
    }
  }

  lemma ObjectCleanIff(lower: Fold, fields: seq<Field>)
    ensures Clean(lower, Object(fields)) <==> FieldsClean(lower, fields, {})
  {
    FieldsCleanIff(lower, fields, {});
  }

  /** After the first token of any value, the checker consumes the rest of it, or rejects. */
  lemma {:induction false} ValueChecked(lower: Fold, v: Json, rest: seq<Token>)
    ensures Tokens(v) != []
    ensures CheckNested(lower, Tokens(v)[0], Tokens(v)[1..] + rest) == Outcome(Clean(lower, v), rest)
    decreases v, 0
  {
    match v
    case Atom => assert Tokens(v)[1..] + rest == rest;
    case Literal(s) => assert Tokens(v)[1..] + rest == rest;
    case Object(fields) =>
      FieldsChecked(lower, fields, {}, rest);
      ObjectCleanIff(lower, fields);
      assert Tokens(v)[1..] + rest == FieldTokens(fields) + ([CloseObject] + rest);
    case Array(items) =>
      ItemsChecked(lower, items, rest);
      assert Tokens(v)[1..] + rest == ItemTokens(items) + ([CloseArray] + rest);
  }

  lemma FieldStep(lower: Fold, k: string, vs: seq<Token>, after: seq<Token>, seen: set<string>,
                  valueOk: bool, tailOk: bool, rest: seq<Token>)
    requires vs != [] && CheckNested(lower, vs[0], vs[1..] + after) == Outcome(valueOk, after)
    requires CheckFields(lower, after, seen + {lower(k)}) == Outcome(tailOk, rest)
    ensures CheckFields(lower, [Text(k)] + (vs + after), seen) == Outcome(lower(k) !in seen && valueOk && tailOk, rest)
  {
    var ts := [Text(k)] + (vs + after);
    assert ts[0] == Text(k) && ts[1] == vs[0] && ts[2..] == vs[1..] + after;
  }

  lemma FieldTokensStep(fields: seq<Field>, end: seq<Token>)
    requires fields != []
    ensures FieldTokens(fields) + end
         == [Text(fields[0].key)] + (Tokens(fields[0].value) + (FieldTokens(fields[1..]) + end))
  {
    var a, b, c := [Text(fields[0].key)], Tokens(fields[0].value), FieldTokens(fields[1..]);
    assert (a + (b + c)) + end == a + (b + (c + end));
  }

  lemma {:induction false} FieldsChecked(lower: Fold, fields: seq<Field>, seen: set<string>, rest: seq<Token>)
    ensures CheckFields(lower, FieldTokens(fields) + ([CloseObject] + rest), seen)
         == Outcome(FieldsClean(lower, fields, seen), rest)
    decreases fields, 1
  {
    if fields != [] {
      var k, v, tail := fields[0].key, fields[0].value, fields[1..];
      var after := FieldTokens(tail) + ([CloseObject] + rest);
      ValueChecked(lower, v, after);
      FieldsChecked(lower, tail, seen + {lower(k)}, rest);
      FieldStep(lower, k, Tokens(v), after, seen, Clean(lower, v), FieldsClean(lower, tail, seen + {lower(k)}), rest);
      FieldTokensStep(fields, [CloseObject] + rest);
    }
  }

  lemma ItemStep(lower: Fold, vs: seq<Token>, after: seq<Token>, valueOk: bool, tailOk: bool, rest: seq<Token>)
    requires More(vs) && CheckNested(lower, vs[0], vs[1..] + after) == Outcome(valueOk, after)
    requires CheckItems(lower, after) == Outcome(tailOk, rest)
    ensures CheckItems(lower, vs + after) == Outcome(valueOk && tailOk, rest)
  {
    var ts := vs + after;
    assert ts[0] == vs[0] && ts[1..] == vs[1..] + after;
  }

  lemma {:induction false} ItemsChecked(lower: Fold, items: seq<Json>, rest: seq<Token>)
    ensures CheckItems(lower, ItemTokens(items) + ([CloseArray] + rest)) == Outcome(Clean(lower, Array(items)), rest)
    decreases items, 1
  {
    if items != [] {
      var v, tail := items[0], items[1..];
      var end := [CloseArray] + rest;
      var after := ItemTokens(tail) + end;
      ValueOpens(v);
      ValueChecked(lower, v, after);
      ItemsChecked(lower, tail, rest);
      ItemStep(lower, Tokens(v), after, Clean(lower, v), Clean(lower, Array(tail)), rest);
      assert (Tokens(v) + ItemTokens(tail)) + end == Tokens(v) + after;
    }
  }

  lemma ValueOpens(v: Json)
    ensures Tokens(v) != [] && More(Tokens(v))
  {
  }

  /** The whole check, on the stream of any JSON value with anything behind it: accepted exactly when
      the value is an object or array, all keys are distinct after folding at every depth, and nothing
      trails. */
  lemma AcceptsIffClean(lower: Fold, v: Json, trailing: seq<Token>)
    ensures Accepts(lower, Tokens(v) + trailing) <==> (v.Object? || v.Array?) && Clean(lower, v) && trailing == []
  {
    var ts := Tokens(v) + trailing;
    ValueChecked(lower, v, trailing);
    assert ts[0] == Tokens(v)[0] && ts[1..] == Tokens(v)[1..] + trailing;
  }

  // ----- the imperative form, consuming a decoder

  class Decoder {
    var ts: seq<Token>

    constructor (ts: seq<Token>)
      ensures this.ts == ts
    {
      this.ts := ts;
    }

    predicate HasMore()
      reads this
    {
      More(ts)
    }

    method Next() returns (ok: bool, t: Token)
      modifies this
      ensures ok <==> old(ts) != []
      ensures ok ==> t == old(ts)[0] && ts == old(ts)[1..]
      ensures !ok ==> ts == old(ts)
    {
      if ts == [] {
        return false, Scalar;
      }
      t := ts[0];
      ts := ts[1..];
      ok := true;
    }
  }

  ghost predicate Agrees(ok: bool, now: seq<Token>, r: Checked) {
    (ok <==> r.Ok?) && (ok ==> now == r.rest)
  }

  method CheckObject(lower: Fold, dec: Decoder) returns (ok: bool)
    modifies dec
    ensures Agrees(ok, dec.ts, CheckFields(lower, old(dec.ts), {}))
    decreases |dec.ts|, 1
  {
    var seen: set<string> := {};
    ghost var whole := CheckFields(lower, dec.ts, {});
    while dec.HasMore()
      invariant |dec.ts| <= |old(dec.ts)| && CheckFields(lower, dec.ts, seen) == whole
      decreases |dec.ts|
    {
      var got, tok := dec.Next();
      if !tok.Text? || lower(tok.s) in seen {
        return false;
      }
      var more, value := dec.Next();
      if !more {
        return false;
      }
      ok := CheckRest(lower, dec, value);
      if !ok {
        return false;
      }
      seen := seen + {lower(tok.s)};
    }
    var got, end := dec.Next();
    ok := got && end.CloseObject?;
  }

  method CheckArray(lower: Fold, dec: Decoder) returns (ok: bool)
    modifies dec
    ensures Agrees(ok, dec.ts, CheckItems(lower, old(dec.ts)))
    decreases |dec.ts|, 1
  {
    ghost var whole := CheckItems(lower, dec.ts);
    while dec.HasMore()
      invariant |dec.ts| <= |old(dec.ts)| && CheckItems(lower, dec.ts) == whole
      decreases |dec.ts|
    {
      var got, tok := dec.Next();
      ok := CheckRest(lower, dec, tok);
      if !ok {
        return false;
      }
    }
    var got, end := dec.Next();
    ok := got && end.CloseArray?;
  }

  /** The switch on a value's first token. */
  method CheckRest(lower: Fold, dec: Decoder, first: Token) returns (ok: bool)
    modifies dec
    ensures Agrees(ok, dec.ts, CheckNested(lower, first, old(dec.ts)))
    decreases |dec.ts|, 2
  {
    if first.OpenObject? {
      ok := CheckObject(lower, dec);
    } else if first.OpenArray? {
      ok := CheckArray(lower, dec);
    } else {
      ok := true;
    }
  }

  method RejectDuplicateKeys(lower: Fold, ts: seq<Token>) returns (accepted: bool)
    ensures accepted <==> Accepts(lower, ts)
  {
    var dec := new Decoder(ts);
    var got, tok := dec.Next();
    if !got || !(tok.OpenObject? || tok.OpenArray?) {
      return false;
    }
    var ok := CheckRest(lower, dec, tok);
    if !ok || dec.HasMore() {
      return false;
    }
    var more, _ := dec.Next();
    accepted := !more;
  }
}
