/**
 Splitting a chat response into stream chunks and assembling it again (internal/api/assemble.go,
 wire types of internal/api/types.go). A nil slice and an empty one are the same here.
 */
module Assembly {

  datatype Option<T> = None | Some(value: T)

  datatype ToolCall = ToolCall(index: Option<nat>, id: string, kind: string, name: string, arguments: string)

  datatype Part = Part(kind: string, text: string)

  datatype Content = Content(text: string, parts: Option<seq<Part>>)

  datatype Message = Message(role: string, content: Content, name: string, toolCalls: seq<ToolCall>, toolCallId: string)

  datatype Choice = Choice(index: int, message: Message, finishReason: string)

  datatype Usage = Usage(prompt: int, completion: int, total: int, cached: Option<int>)

  datatype Response =
    Response(id: string, kind: string, created: int, model: string, choices: seq<Choice>, usage: Option<Usage>)

  datatype Delta = Delta(role: string, content: string, toolCalls: seq<ToolCall>)

  datatype ChunkChoice = ChunkChoice(index: int, delta: Delta, finishReason: Option<string>)

  datatype Chunk =
    Chunk(id: string, kind: string, created: int, model: string, choices: seq<ChunkChoice>, usage: Option<Usage>)

  const NoDelta := Delta("", "", [])

  // ----- the assembler

  /** The assembler's fields. */
  datatype Acc =
    Acc(id: string, model: string, created: int, text: string, tools: seq<ToolCall>, finish: string,
        usage: Option<Usage>)

  const Fresh := Acc("", "", 0, "", [], "", None)

  const BlankTool := ToolCall(None, "", "function", "", "")

  /** Grow the list of tool calls until position `i` exists. */
  function Padded(tools: seq<ToolCall>, i: nat): (r: seq<ToolCall>)
    ensures |r| > i && |r| >= |tools| && r[..|tools|] == tools
    decreases i - |tools|
  {
    if |tools| <= i then Padded(tools + [BlankTool], i) else tools
  }

  function AddTool(tools: seq<ToolCall>, tc: ToolCall): seq<ToolCall> {
    var i := if tc.index.Some? then tc.index.value else 0;
    var ts := Padded(tools, i);
    var t := ts[i];
    ts[i := t.(id := if tc.id != "" then tc.id else t.id,
               name := if tc.name != "" then tc.name else t.name,
               arguments := t.arguments + tc.arguments)]
  }

  function AddTools(tools: seq<ToolCall>, tcs: seq<ToolCall>): seq<ToolCall>
    decreases |tcs|
  {
    if tcs == [] then tools else AddTools(AddTool(tools, tcs[0]), tcs[1..])
  }

  function AddChoice(a: Acc, ch: ChunkChoice): Acc {
    if ch.index != 0 then a
    else a.(text := a.text + ch.delta.content, tools := AddTools(a.tools, ch.delta.toolCalls),
            finish := if ch.finishReason.Some? then ch.finishReason.value else a.finish)
  }

  function AddChoices(a: Acc, chs: seq<ChunkChoice>): Acc
    decreases |chs|
  {
    if chs == [] then a else AddChoices(AddChoice(a, chs[0]), chs[1..])
  }

  function Head(a: Acc, c: Chunk): Acc {
    var b := if c.id != "" && a.id == "" then a.(id := c.id, model := c.model, created := c.created) else a;
    if c.usage.Some? then b.(usage := c.usage) else b
  }

  function Added(a: Acc, c: Chunk): Acc {
    AddChoices(Head(a, c), c.choices)
  }

  function AddAll(a: Acc, cs: seq<Chunk>): Acc
    decreases |cs|
  {
    if cs == [] then a else AddAll(Added(a, cs[0]), cs[1..])
  }

  function Finished(a: Acc): Response {
    Response(a.id, "chat.completion", a.created, a.model,
             [Choice(0, Message("assistant", Content(a.text, None), "", a.tools, ""), a.finish)], a.usage)
  }

  class Assembler {
    var id: string
    var model: string
    var created: int
    var text: string
    var tools: seq<ToolCall>
    var finish: string
    var usage: Option<Usage>

    ghost function Now(): Acc
      reads this
    {
      Acc(id, model, created, text, tools, finish, usage)
    }

    constructor ()
      ensures Now() == Fresh
    {
      id, model, created, text, tools, finish, usage := "", "", 0, "", [], "", None;
    }

    method Add(c: Chunk)
      modifies this
      ensures Now() == Added(old(Now()), c)
    {
      if c.id != "" && id == "" {
        id, model, created := c.id, c.model, c.created;
      }
      if c.usage.Some? {
        usage := c.usage;
      }
      ghost var whole := AddChoices(Now(), c.choices);
      var i := 0;
      while i < |c.choices|
        invariant 0 <= i <= |c.choices| && AddChoices(Now(), c.choices[i..]) == whole
      {
        assert c.choices[i..][0] == c.choices[i] && c.choices[i..][1..] == c.choices[i + 1..];
        if c.choices[i].index == 0 {
          AddDelta(c.choices[i]);
        }
        i := i + 1;
      }
    }

    method AddDelta(ch: ChunkChoice)
      requires ch.index == 0
      modifies this
      ensures Now() == AddChoice(old(Now()), ch)
    {
      text := text + ch.delta.content;
      var tcs := ch.delta.toolCalls;
      ghost var whole := AddTools(tools, tcs);
      var j := 0;
      while j < |tcs|
        invariant 0 <= j <= |tcs| && AddTools(tools, tcs[j..]) == whole
        invariant Now() == old(Now()).(text := old(text) + ch.delta.content, tools := tools)
      {
        assert tcs[j..][0] == tcs[j] && tcs[j..][1..] == tcs[j + 1..];
        MergeTool(tcs[j]);
        j := j + 1;
      }
      if ch.finishReason.Some? {
        finish := ch.finishReason.value;
      }
    }

    method MergeTool(tc: ToolCall)
      modifies this
      ensures Now() == old(Now()).(tools := AddTool(old(tools), tc))
    {
      var i := if tc.index.Some? then tc.index.value else 0;
      ghost var padded := Padded(tools, i);
      while |tools| <= i
        invariant Padded(tools, i) == padded && Now() == old(Now()).(tools := tools)
        decreases i - |tools|
      {
        tools := tools + [BlankTool];
      }
      if tc.id != "" {
        tools := tools[i := tools[i].(id := tc.id)];
      }
      if tc.name != "" {
        tools := tools[i := tools[i].(name := tc.name)];
      }
      tools := tools[i := tools[i].(arguments := tools[i].arguments + tc.arguments)];
    }
  }

  // ----- splitting a response into chunks

  function TextsOf(parts: seq<Part>): seq<string> {
    if parts == [] then []
    else (if parts[0].kind == "text" then [parts[0].text] else []) + TextsOf(parts[1..])
  }

  function JoinLines(texts: seq<string>): string {
    if texts == [] then "" else if |texts| == 1 then texts[0] else texts[0] + "\n" + JoinLines(texts[1..])
  }

  function PlainText(c: Content): string {
    if c.parts.None? then c.text else JoinLines(TextsOf(c.parts.value))
  }

  function Base(r: Response): Chunk {
    Chunk(r.id, "chat.completion.chunk", r.created, r.model, [], None)
  }

  function Carrying(b: Chunk, d: Delta, finish: Option<string>): Chunk {
    b.(choices := [ChunkChoice(0, d, finish)])
  }

  function Min(a: int, b: int): int {
    if a < b then a else b
  }

  /** At least one chunk, the first one with the role, each with at most `n` characters. */
  function TextChunks(b: Chunk, text: string, n: nat, first: bool): seq<Chunk>
    requires n >= 1
    decreases |text|, first
  {
    if text == "" && !first then []
    else
      var k := Min(n, |text|);
      [Carrying(b, Delta(if first then "assistant" else "", text[..k], []), None)] + TextChunks(b, text[k..], n, false)
  }

  function ToolChunks(b: Chunk, tcs: seq<ToolCall>, i: nat): seq<Chunk>
    decreases |tcs|
  {
    if tcs == [] then []
    else [Carrying(b, Delta("", "", [tcs[0].(index := Some(i))]), None)] + ToolChunks(b, tcs[1..], i + 1)
  }

  function UsageChunks(b: Chunk, u: Option<Usage>): seq<Chunk> {
    if u.Some? then [b.(usage := u)] else []
  }

  function ChunkSize(n: int): nat {
    if n <= 0 then 64 else n
  }

  function Chunks(r: Response, n: int): seq<Chunk> {
    if r.choices == [] then []
    else
      var b, ch := Base(r), r.choices[0];
      TextChunks(b, PlainText(ch.message.content), ChunkSize(n), true)
      + (ToolChunks(b, ch.message.toolCalls, 0)
         + ([Carrying(b, NoDelta, Some(ch.finishReason))] + UsageChunks(b, r.usage)))
  }

  /** The loop over the text. */
  method SplitText(b: Chunk, whole: string, n: nat) returns (out: seq<Chunk>)
    requires n >= 1
    ensures out == TextChunks(b, whole, n, true)
  {
    out := [];
    var text, first := whole, true;
    while |text| > 0 || first
      invariant out + TextChunks(b, text, n, first) == TextChunks(b, whole, n, true)
      decreases |text|, first
    {
      var k := Min(n, |text|);
      var c := Carrying(b, Delta(if first then "assistant" else "", text[..k], []), None);
      assert TextChunks(b, text, n, first) == [c] + TextChunks(b, text[k..], n, false);
      first := false;
      out := out + [c];
      text := text[k..];
    }
  }

  /** The loop over the tool calls. */
  method SplitTools(b: Chunk, tcs: seq<ToolCall>) returns (out: seq<Chunk>)
    ensures out == ToolChunks(b, tcs, 0)
  {
    out := [];
    var rest := tcs;
    while rest != []
      invariant out + ToolChunks(b, rest, |out|) == ToolChunks(b, tcs, 0)
      decreases |rest|
    {
      var c := Carrying(b, Delta("", "", [rest[0].(index := Some(|out|))]), None);
      out := out + [c];
      rest := rest[1..];
    }
  }

  method ChunksFromResponse(r: Response, chunkChars: int) returns (out: seq<Chunk>)
    ensures out == Chunks(r, chunkChars)
  {
    var n := if chunkChars <= 0 then 64 else chunkChars;
    var b := Base(r);
    if |r.choices| == 0 {
      return [];
    }
    var ch := r.choices[0];
    var texts := SplitText(b, PlainText(ch.message.content), n);
    var tools := SplitTools(b, ch.message.toolCalls);
    var end := [Carrying(b, NoDelta, Some(ch.finishReason))];
    if r.usage.Some? {
      end := end + [b.(usage := r.usage)];
    }
    out := texts + (tools + end);
  }

  // ----- assembling what was split

  lemma {:induction false} AddAllAppend(a: Acc, xs: seq<Chunk>, ys: seq<Chunk>)
    ensures AddAll(a, xs + ys) == AddAll(AddAll(a, xs), ys)
    decreases |xs|
  {
    if xs == [] {
      assert xs + ys == ys;
    } else {
      assert (xs + ys)[1..] == xs[1..] + ys;
      AddAllAppend(Added(a, xs[0]), xs[1..], ys);
    }
  }

  /** A single-choice chunk adds its delta. */
  lemma AddedCarrying(a: Acc, b: Chunk, d: Delta, finish: Option<string>)
    requires b.usage.None?
    ensures Added(a, Carrying(b, d, finish)) == AddChoice(Head(a, b), ChunkChoice(0, d, finish))
  {
    var ch := ChunkChoice(0, d, finish);
    assert [ch][1..] == [];
    assert AddChoices(Head(a, b), [ch]) == AddChoices(AddChoice(Head(a, b), ch), []);
  }

  lemma TextChunkAdded(a: Acc, b: Chunk, d: Delta)
    requires b.usage.None? && d.toolCalls == []
    ensures Added(a, Carrying(b, d, None)) == Head(a, b).(text := a.text + d.content)
  {
    AddedCarrying(a, b, d, None);
  }

  lemma AddAllCons(a: Acc, c: Chunk, cs: seq<Chunk>)
    ensures AddAll(a, [c] + cs) == AddAll(Added(a, c), cs)
  {
    assert ([c] + cs)[1..] == cs;
  }

  lemma {:induction false} TextAssembled(a: Acc, b: Chunk, text: string, n: nat, first: bool)
    requires n >= 1 && b.usage.None? && (first || Head(a, b) == a)
    ensures AddAll(a, TextChunks(b, text, n, first)) == Head(a, b).(text := a.text + text)
    decreases |text|, first
  {
    if text == "" && !first {
      assert a.text + text == a.text;
    } else {
      var k := Min(n, |text|);
      var d := Delta(if first then "assistant" else "", text[..k], []);
      TextChunkAdded(a, b, d);
      var a' := Head(a, b).(text := a.text + text[..k]);
      TextAssembled(a', b, text[k..], n, false);
      AddAllCons(a, Carrying(b, d, None), TextChunks(b, text[k..], n, false));
      TextRejoined(a.text, text, k);
    }
  }

  lemma TextRejoined(a: string, text: string, k: nat)
    requires k <= |text|
    ensures a + text[..k] + text[k..] == a + text
  {
  }

  /** How a tool call comes out: as a function call without a stream index. */
  function Normal(tc: ToolCall): ToolCall {
    ToolCall(None, tc.id, "function", tc.name, tc.arguments)
  }

  function NormalAll(tcs: seq<ToolCall>): (r: seq<ToolCall>)
    ensures |r| == |tcs| && forall i :: 0 <= i < |tcs| ==> r[i] == Normal(tcs[i])
  {
    seq(|tcs|, i requires 0 <= i < |tcs| => Normal(tcs[i]))
  }

  lemma ToolAppended(tools: seq<ToolCall>, tc: ToolCall)
    requires tc.index == Some(|tools|)
    ensures AddTool(tools, tc) == tools + [Normal(tc)]
  {
    assert Padded(tools, |tools|) == Padded(tools + [BlankTool], |tools|) == tools + [BlankTool];
    assert "" + tc.arguments == tc.arguments;
  }

  lemma ToolChunkAdded(a: Acc, b: Chunk, tc: ToolCall)
    requires b.usage.None? && Head(a, b) == a
    ensures Added(a, Carrying(b, Delta("", "", [tc]), None)) == a.(tools := AddTool(a.tools, tc))
  {
    AddedCarrying(a, b, Delta("", "", [tc]), None);
    assert [tc][1..] == [];
    assert AddTools(a.tools, [tc]) == AddTools(AddTool(a.tools, tc), []);
    assert a.text + "" == a.text;
  }

  lemma {:induction false} ToolsAssembled(a: Acc, b: Chunk, tcs: seq<ToolCall>)
    requires b.usage.None? && Head(a, b) == a
    ensures AddAll(a, ToolChunks(b, tcs, |a.tools|)) == a.(tools := a.tools + NormalAll(tcs))
    decreases |tcs|
  {
    if tcs == [] {
      assert a.tools + NormalAll(tcs) == a.tools;
    } else {
      var tc := tcs[0].(index := Some(|a.tools|));
      ToolChunkAdded(a, b, tc);
      ToolAppended(a.tools, tc);
      var a' := a.(tools := a.tools + [Normal(tc)]);
      ToolsAssembled(a', b, tcs[1..]);
      AddAllCons(a, Carrying(b, Delta("", "", [tc]), None), ToolChunks(b, tcs[1..], |a.tools| + 1));
      NormalRejoined(a.tools, tcs);
    }
  }

  lemma NormalRejoined(tools: seq<ToolCall>, tcs: seq<ToolCall>)
    requires tcs != []
    ensures tools + [Normal(tcs[0])] + NormalAll(tcs[1..]) == tools + NormalAll(tcs)
  {
  }

  lemma EndAssembled(a: Acc, b: Chunk, finish: string, u: Option<Usage>)
    requires b.usage.None? && Head(a, b) == a && b.choices == [] && a.usage.None?
    ensures AddAll(a, [Carrying(b, NoDelta, Some(finish))] + UsageChunks(b, u)) == a.(finish := finish, usage := u)
  {
    var c, more := Carrying(b, NoDelta, Some(finish)), UsageChunks(b, u);
    AddedCarrying(a, b, NoDelta, Some(finish));
    var a' := a.(finish := finish);
    assert a.text + "" == a.text;
    assert Added(a, c) == a';
    assert ([c] + more)[1..] == more;
    if u.Some? {
      var w := b.(usage := u);
      assert more[1..] == [];
      assert Added(a', w) == a'.(usage := u);
      assert AddAll(a', more) == AddAll(Added(a', w), []);
    }
  }

  /** What splitting and assembling makes of a response that has a choice. */
  function Roundtrip(r: Response): Response
    requires r.choices != []
  {
    var ch := r.choices[0];
    Response(r.id, "chat.completion", if r.id != "" then r.created else 0, if r.id != "" then r.model else "",
             [Choice(0, Message("assistant", Content(PlainText(ch.message.content), None), "",
                                NormalAll(ch.message.toolCalls), ""), ch.finishReason)], r.usage)
  }

  lemma ChunksAssembled(r: Response, n: int)
    requires r.choices != []
    ensures Finished(AddAll(Fresh, Chunks(r, n))) == Roundtrip(r)
  {
    var b, ch := Base(r), r.choices[0];
    var text, tcs := PlainText(ch.message.content), ch.message.toolCalls;
    var xs, ys := TextChunks(b, text, ChunkSize(n), true), ToolChunks(b, tcs, 0);
    var zs := [Carrying(b, NoDelta, Some(ch.finishReason))] + UsageChunks(b, r.usage);
    AddAllAppend(Fresh, xs, ys + zs);
    TextAssembled(Fresh, b, text, ChunkSize(n), true);
    var a1 := Head(Fresh, b).(text := text);
    assert "" + text == text;
    AddAllAppend(a1, ys, zs);
    ToolsAssembled(a1, b, tcs);
    assert [] + NormalAll(tcs) == NormalAll(tcs);
    EndAssembled(a1.(tools := NormalAll(tcs)), b, ch.finishReason, r.usage);
  }

  // ----- what the chunks look like

  predicate Headed(c: Chunk, r: Response) {
    c.id == r.id && c.kind == "chat.completion.chunk" && c.created == r.created && c.model == r.model
  }

  ghost predicate AllHeaded(cs: seq<Chunk>, r: Response) {
    forall i :: 0 <= i < |cs| ==> Headed(cs[i], r)
  }

  lemma {:induction false} TextHeaded(r: Response, text: string, n: nat, first: bool)
    requires n >= 1
    ensures AllHeaded(TextChunks(Base(r), text, n, first), r)
    decreases |text|, first
  {
    if text != "" || first {
      TextHeaded(r, text[Min(n, |text|)..], n, false);
    }
  }

  lemma {:induction false} ToolsHeaded(r: Response, tcs: seq<ToolCall>, i: nat)
    ensures AllHeaded(ToolChunks(Base(r), tcs, i), r)
    decreases |tcs|
  {
    if tcs != [] {
      ToolsHeaded(r, tcs[1..], i + 1);
    }
  }

  /** Every chunk carries the response's id, model and creation time. */
  lemma ChunksHeaded(r: Response, n: int)
    ensures AllHeaded(Chunks(r, n), r)
  {
    if r.choices != [] {
      var ch := r.choices[0];
      TextHeaded(r, PlainText(ch.message.content), ChunkSize(n), true);
      ToolsHeaded(r, ch.message.toolCalls, 0);
    }
  }

  /** A text chunk has one choice with text only; the first of all has the role. */
  predicate CarriesText(c: Chunk, n: nat, first: bool) {
    && |c.choices| == 1 && c.choices[0].index == 0 && c.choices[0].finishReason.None?
    && c.choices[0].delta.toolCalls == [] && c.choices[0].delta.role == (if first then "assistant" else "")
    && |c.choices[0].delta.content| <= n
  }

  /** Text chunks have at most `n` characters, all but the last exactly `n`, and only the first has the role. */
  lemma {:induction false} TextChunkSizes(b: Chunk, text: string, n: nat, first: bool)
    requires n >= 1
    ensures var cs := TextChunks(b, text, n, first);
            && (cs == [] <==> text == "" && !first)
            && (forall i :: 0 <= i < |cs| ==> CarriesText(cs[i], n, first && i == 0))
            && (forall i :: 0 <= i < |cs| - 1 ==> |cs[i].choices[0].delta.content| == n)
    decreases |text|, first
  {
    if text != "" || first {
      var k := Min(n, |text|);
      TextChunkSizes(b, text[k..], n, false);
      var cs, rest := TextChunks(b, text, n, first), TextChunks(b, text[k..], n, false);
      assert forall i :: 1 <= i < |cs| ==> cs[i] == rest[i - 1];
    }
  }

  /** Chunk sizes that are not positive mean 64. */
  lemma DefaultChunkSize(r: Response, n: int)
    requires n <= 0
    ensures Chunks(r, n) == Chunks(r, 64)
  {
  }

  // ----- what the assembler ignores

  /** Only the choice with index 0 is assembled. */
  lemma {:induction false} OtherChoicesIgnored(a: Acc, chs: seq<ChunkChoice>)
    requires forall i :: 0 <= i < |chs| ==> chs[i].index != 0
    ensures AddChoices(a, chs) == a
    decreases |chs|
  {
    if chs != [] {
      OtherChoicesIgnored(a, chs[1..]);
    }
  }

  lemma {:induction false} ChoicesKeepHead(a: Acc, chs: seq<ChunkChoice>)
    ensures var r := AddChoices(a, chs);
            r.id == a.id && r.model == a.model && r.created == a.created && r.usage == a.usage
    decreases |chs|
  {
    if chs != [] {
      ChoicesKeepHead(AddChoice(a, chs[0]), chs[1..]);
    }
  }

  /** The first non-empty id stays, with its model and creation time; the last usage wins. */
  lemma HeadTaken(a: Acc, c: Chunk)
    ensures var r := Added(a, c);
            && (a.id != "" || c.id == "" ==> r.id == a.id && r.model == a.model && r.created == a.created)
            && (a.id == "" && c.id != "" ==> r.id == c.id && r.model == c.model && r.created == c.created)
            && r.usage == if c.usage.Some? then c.usage else a.usage
  {
    ChoicesKeepHead(Head(a, c), c.choices);
  }

  // ----- the text of a message in parts

  lemma {:induction false} TextsAppend(a: seq<Part>, b: seq<Part>)
    ensures TextsOf(a + b) == TextsOf(a) + TextsOf(b)
    decreases |a|
  {
    if a == [] {
      assert a + b == b;
    } else {
      assert (a + b)[1..] == a[1..] + b;
      TextsAppend(a[1..], b);
    }
  }

  lemma {:induction false} JoinAppend(a: seq<string>, b: seq<string>)
    requires a != [] && b != []
    ensures JoinLines(a + b) == JoinLines(a) + "\n" + JoinLines(b)
    decreases |a|
  {
    assert (a + b)[0] == a[0] && (a + b)[1..] == a[1..] + b;
    if |a| > 1 {
      JoinAppend(a[1..], b);
      assert a[0] + "\n" + (JoinLines(a[1..]) + "\n" + JoinLines(b)) == JoinLines(a) + "\n" + JoinLines(b);
    }
  }

  /** Parts that are not text are left out, and the texts of the others are joined by newlines. */
  lemma PlainTextParts(text: string, a: seq<Part>, p: Part)
    ensures var before, whole := TextsOf(a), PlainText(Content(text, Some(a + [p])));
            whole == if p.kind != "text" then PlainText(Content(text, Some(a)))
                     else if before == [] then p.text
                     else PlainText(Content(text, Some(a))) + "\n" + p.text
  {
    TextsAppend(a, [p]);
    assert [p][1..] == [] && TextsOf([p]) == (if p.kind == "text" then [p.text] else []);
    if p.kind != "text" {
      assert TextsOf(a) + [] == TextsOf(a);
    } else if TextsOf(a) == [] {
      assert [] + [p.text] == [p.text];
    } else {
      JoinAppend(TextsOf(a), [p.text]);
    }
  }

  /** The responses of the gateway's own non-streaming shape. */
  predicate Canonical(r: Response) {
    && r.kind == "chat.completion" && |r.choices| == 1 && r.choices[0].index == 0
    && (r.id != "" || (r.model == "" && r.created == 0))
    && var m := r.choices[0].message;
       && m.role == "assistant" && m.name == "" && m.toolCallId == "" && m.content.parts.None?
       && forall i :: 0 <= i < |m.toolCalls| ==> m.toolCalls[i].kind == "function" && m.toolCalls[i].index.None?
  }

  /** For every chunk size, assembling the chunks of a response gives it back exactly when it has the
      canonical shape; in particular an empty id loses the model and creation time. */
  lemma SplitAssembleIff(r: Response, n: int)
    ensures Finished(AddAll(Fresh, Chunks(r, n))) == r <==> Canonical(r)
  {
    if r.choices != [] {
      ChunksAssembled(r, n);
      var m := r.choices[0].message;
      NormalIff(m.toolCalls);
    }
  }

  lemma NormalIff(tcs: seq<ToolCall>)
    ensures NormalAll(tcs) == tcs
            <==> forall i :: 0 <= i < |tcs| ==> tcs[i].kind == "function" && tcs[i].index.None?
  {
    if forall i :: 0 <= i < |tcs| ==> tcs[i].kind == "function" && tcs[i].index.None? {
      assert forall i :: 0 <= i < |tcs| ==> NormalAll(tcs)[i] == tcs[i];
    } else {
      var i :| 0 <= i < |tcs| && !(tcs[i].kind == "function" && tcs[i].index.None?);
      assert NormalAll(tcs)[i] != tcs[i];
    }
  }
}
