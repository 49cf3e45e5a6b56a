/**
 Translation of Anthropic messages (internal/provider/anthropic.go): the event stream translated
 chunk by chunk by `Recv`, against the same message translated whole by `Chat`.
 */
module Anthropic {
  import opened Text
  import opened Assembly

  /** Token counts as Anthropic reports them. */
  datatype Counts = Counts(input: int, output: int, cacheRead: int, cacheCreation: int)

  function ToUsage(u: Counts): Usage {
    var prompt := u.input + u.cacheRead + u.cacheCreation;
    Usage(prompt, u.output, prompt + u.output, Some(u.cacheRead))
  }

  function FinishReason(stop: string): string {
    if stop == "max_tokens" then "length"
    else if stop == "tool_use" then "tool_calls"
    else if stop == "refusal" then "content_filter"
    else "stop"
  }

  // ----- the whole message

  /** A content block; blocks of other kinds are dropped by both translations. */
  datatype Block = TextBlock(text: string) | ToolBlock(id: string, name: string, input: string) | OtherBlock

  datatype Reply = Reply(id: string, blocks: seq<Block>, stop: string, counts: Counts)

  function TextIn(blocks: seq<Block>): string {
    if blocks == [] then ""
    else TextIn(blocks[..|blocks| - 1]) + (var b := blocks[|blocks| - 1]; if b.TextBlock? then b.text else "")
  }

  function ToolsIn(blocks: seq<Block>): seq<ToolCall> {
    if blocks == [] then []
    else
      var b := blocks[|blocks| - 1];
      ToolsIn(blocks[..|blocks| - 1])
        + (if b.ToolBlock? then [ToolCall(None, b.id, "function", b.name, b.input)] else [])
  }

  function Unary(model: string, m: Reply): Response {
    Response(m.id, "chat.completion", 0, model,
             [Choice(0, Message("assistant", Content(TextIn(m.blocks), None), "", ToolsIn(m.blocks), ""),
                     FinishReason(m.stop))],
             Some(ToUsage(m.counts)))
  }

  /** The response part of `Chat`. */
  method ChatResponse(model: string, m: Reply) returns (r: Response)
    ensures r == Unary(model, m)
  {
    var text, calls := "", [];
    var i := 0;
    while i < |m.blocks|
      invariant 0 <= i <= |m.blocks| && text == TextIn(m.blocks[..i]) && calls == ToolsIn(m.blocks[..i])
    {
      var b := m.blocks[i];
      assert m.blocks[..i + 1][..i] == m.blocks[..i] && m.blocks[..i + 1][i] == b;
      if b.TextBlock? {
        text := text + b.text;
      } else if b.ToolBlock? {
        calls := calls + [ToolCall(None, b.id, "function", b.name, b.input)];
      }
      i := i + 1;
    }
    assert m.blocks[..i] == m.blocks;
    r := Response(m.id, "chat.completion", 0, model,
                  [Choice(0, Message("assistant", Content(text, None), "", calls, ""), FinishReason(m.stop))],
                  Some(ToUsage(m.counts)));
  }

  /** What the stop reasons of Anthropic become. */
  ghost predicate FinishTold(stop: string, finish: string) {
    && (finish == "length" <==> stop == "max_tokens")
    && (finish == "tool_calls" <==> stop == "tool_use")
    && (finish == "content_filter" <==> stop == "refusal")
    && (finish == "stop" <==> stop !in {"max_tokens", "tool_use", "refusal"})
  }

  /** All kinds of input count as prompt tokens; the cached ones are those read from the cache. */
  ghost predicate UsageTold(c: Counts, u: Option<Usage>) {
    && u.Some? && u.value.prompt == c.input + c.cacheRead + c.cacheCreation && u.value.completion == c.output
    && u.value.total == u.value.prompt + u.value.completion && u.value.cached == Some(c.cacheRead)
  }

  lemma UnaryTold(model: string, m: Reply)
    ensures var r := Unary(model, m);
            && r.id == m.id && r.model == model && r.kind == "chat.completion" && |r.choices| == 1
            && FinishTold(m.stop, r.choices[0].finishReason) && UsageTold(m.counts, r.usage)
  {
  }

  // ----- the event stream

  datatype Event =
    | MessageStart(id: string, counts: Counts)
    | ToolStart(index: int, toolId: string, name: string)
    | TextDelta(index: int, text: string)
    | JsonDelta(index: int, partial: string)
    | MessageDelta(stop: string, output: int)
    | MessageStop
    | StreamError(overloaded: bool)
    | Skipped                        // ping, other block starts and deltas, block stops, unknown events

  datatype Stream = Stream(id: string, counts: Counts, toolIndex: map<int, nat>, done: bool)

  const NewStream := Stream("", Counts(0, 0, 0, 0), map[], false)

  function Base(model: string, s: Stream): Chunk {
    Chunk(s.id, "chat.completion.chunk", 0, model, [], None)
  }

  /** What an event does to the stream's fields. */
  function Moved(s: Stream, e: Event): Stream {
    match e
    case MessageStart(id, c) =>
      s.(id := id, counts := s.counts.(input := c.input, cacheRead := c.cacheRead, cacheCreation := c.cacheCreation))
    case ToolStart(i, _, _) => s.(toolIndex := s.toolIndex[i := |s.toolIndex|])
    case MessageDelta(_, out) => s.(counts := s.counts.(output := out))
    case MessageStop => s.(done := true)
    case _ => s
  }

  function Position(s: Stream, i: int): nat {
    if i in s.toolIndex then s.toolIndex[i] else 0
  }

  /** The chunk an event is translated to, if any; `s` is the stream before it. */
  function Translated(model: string, s: Stream, e: Event): Option<Chunk> {
    var b := Base(model, Moved(s, e));
    match e
    case MessageStart(_, _) => Some(Carrying(b, Delta("assistant", "", []), None))
    case ToolStart(_, id, name) =>
      Some(Carrying(b, Delta("", "", [ToolCall(Some(|s.toolIndex|), id, "function", name, "")]), None))
    case TextDelta(_, text) => Some(Carrying(b, Delta("", text, []), None))
    case JsonDelta(i, partial) =>
      Some(Carrying(b, Delta("", "", [ToolCall(Some(Position(s, i)), "", "", "", partial)]), None))
    case MessageDelta(stop, _) => Some(Carrying(b, NoDelta, Some(FinishReason(stop))))
    case MessageStop => Some(b.(usage := Some(ToUsage(s.counts))))
    case StreamError(_) => None
    case Skipped => None
  }

  datatype Received = Chunked(c: Chunk) | EndOfStream | Failed(status: int)

  class Receiver {
    const model: string
    var events: seq<Event>
    var id: string
    var counts: Counts
    var toolIndex: map<int, nat>
    var done: bool

    ghost function Now(): Stream
      reads this
    {
      Stream(id, counts, toolIndex, done)
    }

    constructor (model: string, events: seq<Event>)
      ensures this.model == model && this.events == events && Now() == NewStream
    {
      this.model, this.events := model, events;
      id, counts, toolIndex, done := "", Counts(0, 0, 0, 0), map[], false;
    }

    /** The switch on an event's type. */
    method Dispatch(e: Event) returns (r: Option<Received>)
      modifies this`id, this`counts, this`toolIndex, this`done
      ensures Now() == Moved(old(Now()), e)
      ensures r == match e
                   case Skipped => None
                   case StreamError(overloaded) => Some(Failed(if overloaded then 529 else 500))
                   case _ => Some(Chunked(Translated(model, old(Now()), e).value))
    {
      match e {
        case MessageStart(mid, c) =>
          id := mid;
          counts := counts.(input := c.input, cacheRead := c.cacheRead, cacheCreation := c.cacheCreation);
          return Some(Chunked(Carrying(Chunk(id, "chat.completion.chunk", 0, model, [], None),
                                       Delta("assistant", "", []), None)));
        case ToolStart(index, tid, name) =>
          var i := |toolIndex|;
          toolIndex := toolIndex[index := i];
          return Some(Chunked(Carrying(Chunk(id, "chat.completion.chunk", 0, model, [], None),
                                       Delta("", "", [ToolCall(Some(i), tid, "function", name, "")]), None)));
        case TextDelta(_, text) =>
          return Some(Chunked(Carrying(Chunk(id, "chat.completion.chunk", 0, model, [], None),
                                       Delta("", text, []), None)));
        case JsonDelta(index, partial) =>
          var i := if index in toolIndex then toolIndex[index] else 0;
          return Some(Chunked(Carrying(Chunk(id, "chat.completion.chunk", 0, model, [], None),
                                       Delta("", "", [ToolCall(Some(i), "", "", "", partial)]), None)));
        case MessageDelta(stop, out) =>
          counts := counts.(output := out);
          return Some(Chunked(Carrying(Chunk(id, "chat.completion.chunk", 0, model, [], None),
                                       NoDelta, Some(FinishReason(stop)))));
        case MessageStop =>
          done := true;
          return Some(Chunked(Chunk(id, "chat.completion.chunk", 0, model, [], Some(ToUsage(counts)))));
        case StreamError(overloaded) =>
          return Some(Failed(if overloaded then 529 else 500));
        case Skipped =>
          return None;
      }
    }

    /** Skip events that carry nothing, translate the next one that does. */
    method Recv() returns (r: Received)
      modifies this
      ensures old(done) ==> r == EndOfStream && Now() == old(Now()) && events == old(events)
      ensures !old(done) ==>
                var k := |old(events)| - |events|;
                && 0 <= k <= |old(events)| && events == old(events)[k..]
                && (r.EndOfStream? ==> k == |old(events)| && Now() == old(Now())
                                       && forall j :: 0 <= j < k ==> old(events)[j].Skipped?)
                && (!r.EndOfStream? ==> k >= 1 && forall j :: 0 <= j < k - 1 ==> old(events)[j].Skipped?)
                && (r.Chunked? ==> Some(r.c) == Translated(model, old(Now()), old(events)[k - 1])
                                   && Now() == Moved(old(Now()), old(events)[k - 1]))
                && (r.Failed? ==> old(events)[k - 1].StreamError? && Now() == old(Now())
                                  && r.status == if old(events)[k - 1].overloaded then 529 else 500)
    {
      if done {
        return EndOfStream;
      }
      ghost var k := 0;
      while |events| > 0
        invariant 0 <= k <= |old(events)| && events == old(events)[k..] && Now() == old(Now())
        invariant forall j :: 0 <= j < k ==> old(events)[j].Skipped?
        decreases |events|
      {
        var e := events[0];
        assert e == old(events)[k];
        events := events[1..];
        k := k + 1;
        var got := Dispatch(e);
        if got.Some? {
          return got.value;
        }
      }
      return EndOfStream;
    }
  }

  // ----- a consumer that assembles every chunk it receives

  datatype Link = Link(s: Stream, a: Acc)

  /** One event through `Recv` and the assembler; after the final event nothing is received. */
  function Fed(model: string, l: Link, e: Event): Link {
    if l.s.done then l
    else
      var c := Translated(model, l.s, e);
      Link(Moved(l.s, e), if c.Some? then Added(l.a, c.value) else l.a)
  }

  type Step = (Link, Event) -> Link

  function Fold(f: Step, l: Link, es: seq<Event>): Link
    decreases |es|
  {
    if es == [] then l else Fold(f, f(l, es[0]), es[1..])
  }

  lemma {:induction false} FoldAppend(f: Step, l: Link, xs: seq<Event>, ys: seq<Event>)
    ensures Fold(f, l, xs + ys) == Fold(f, Fold(f, l, xs), ys)
    decreases |xs|
  {
    if xs == [] {
      assert xs + ys == ys;
    } else {
      assert (xs + ys)[1..] == xs[1..] + ys;
      FoldAppend(f, f(l, xs[0]), xs[1..], ys);
    }
  }

  function Feeding(model: string): Step {
    (l, e) => Fed(model, l, e)
  }

  function Feed(model: string, l: Link, es: seq<Event>): Link {
    Fold(Feeding(model), l, es)
  }

  function Significant(es: seq<Event>): seq<Event> {
    if es == [] then [] else (if es[0].Skipped? then [] else [es[0]]) + Significant(es[1..])
  }

  /** Pings and other skipped events may be anywhere. */
  lemma {:induction false} SkippedChangeNothing(model: string, l: Link, es: seq<Event>)
    ensures Feed(model, l, es) == Feed(model, l, Significant(es))
    decreases |es|
  {
    if es != [] {
      SkippedChangeNothing(model, Fed(model, l, es[0]), es[1..]);
      if es[0].Skipped? {
        assert Significant(es) == Significant(es[1..]);
        assert Fed(model, l, es[0]) == l;
      } else {
        assert Significant(es)[1..] == Significant(es[1..]);
      }
    }
  }

  // ----- a message cut into pieces

  datatype Pieces = Texts(pieces: seq<string>) | Inputs(id: string, name: string, pieces: seq<string>) | Others

  function Whole(p: Pieces): Block {
    match p
    case Texts(pieces) => TextBlock(Concat(pieces))
    case Inputs(id, name, pieces) => ToolBlock(id, name, Concat(pieces))
    case Others => OtherBlock
  }

  function Wholes(ps: seq<Pieces>): (r: seq<Block>)
    ensures |r| == |ps| && forall i :: 0 <= i < |ps| ==> r[i] == Whole(ps[i])
  {
    seq(|ps|, i requires 0 <= i < |ps| => Whole(ps[i]))
  }

  function TextDeltas(i: int, pieces: seq<string>): seq<Event> {
    if pieces == [] then [] else [TextDelta(i, pieces[0])] + TextDeltas(i, pieces[1..])
  }

  function JsonDeltas(i: int, pieces: seq<string>): seq<Event> {
    if pieces == [] then [] else [JsonDelta(i, pieces[0])] + JsonDeltas(i, pieces[1..])
  }

  function BlockEvents(i: nat, p: Pieces): seq<Event> {
    match p
    case Texts(pieces) => TextDeltas(i, pieces)
    case Inputs(id, name, pieces) => [ToolStart(i, id, name)] + JsonDeltas(i, pieces)
    case Others => []
  }

  function BlockLists(ps: seq<Pieces>): (r: seq<seq<Event>>)
    ensures |r| == |ps| && forall i :: 0 <= i < |ps| ==> r[i] == BlockEvents(i, ps[i])
  {
    seq(|ps|, i requires 0 <= i < |ps| => BlockEvents(i, ps[i]))
  }

  /** The first `n` lists one after the other. */
  function Flat(ess: seq<seq<Event>>, n: nat): seq<Event>
    requires n <= |ess|
  {
    if n == 0 then [] else Flat(ess, n - 1) + ess[n - 1]
  }

  /** The events that carry a message, its blocks cut into any pieces. */
  function MessageEvents(id: string, counts: Counts, ps: seq<Pieces>, stop: string): seq<Event> {
    [MessageStart(id, counts)] + (Flat(BlockLists(ps), |ps|) + [MessageDelta(stop, counts.output), MessageStop])
  }

  ghost predicate Settled(model: string, l: Link) {
    !l.s.done && Head(l.a, Base(model, l.s)) == l.a
  }

  lemma {:induction false} TextDeltasFed(model: string, l: Link, i: int, pieces: seq<string>)
    requires Settled(model, l)
    ensures Feed(model, l, TextDeltas(i, pieces)) == Link(l.s, l.a.(text := l.a.text + Concat(pieces)))
    decreases |pieces|
  {
    if pieces == [] {
      assert l.a.text + Concat(pieces) == l.a.text;
    } else {
      var more := TextDeltas(i, pieces[1..]);
      AddedCarrying(l.a, Base(model, l.s), Delta("", pieces[0], []), None);
      var l' := Link(l.s, l.a.(text := l.a.text + pieces[0]));
      assert Fed(model, l, TextDelta(i, pieces[0])) == l';
      TextDeltasFed(model, l', i, pieces[1..]);
      assert ([TextDelta(i, pieces[0])] + more)[1..] == more;
      assert l.a.text + pieces[0] + Concat(pieces[1..]) == l.a.text + Concat(pieces);
    }
  }

  /** The last tool call with more arguments. */
  function Extended(tools: seq<ToolCall>, more: string): seq<ToolCall>
    requires tools != []
  {
    var k := |tools| - 1;
    tools[k := tools[k].(arguments := tools[k].arguments + more)]
  }

  lemma ExtendedTwice(tools: seq<ToolCall>, x: string, y: string)
    requires tools != []
    ensures Extended(Extended(tools, x), y) == Extended(tools, x + y)
  {
    var k := |tools| - 1;
    assert tools[k].arguments + x + y == tools[k].arguments + (x + y);
  }

  lemma {:induction false} JsonDeltasFed(model: string, l: Link, i: int, pieces: seq<string>)
    requires Settled(model, l) && l.a.tools != [] && i in l.s.toolIndex && l.s.toolIndex[i] == |l.a.tools| - 1
    ensures Feed(model, l, JsonDeltas(i, pieces)) == Link(l.s, l.a.(tools := Extended(l.a.tools, Concat(pieces))))
    decreases |pieces|
  {
    var k := |l.a.tools| - 1;
    if pieces == [] {
      assert l.a.tools[k].arguments + Concat(pieces) == l.a.tools[k].arguments;
      assert Extended(l.a.tools, Concat(pieces)) == l.a.tools;
    } else {
      var more := JsonDeltas(i, pieces[1..]);
      ToolChunkAdded(l.a, Base(model, l.s), ToolCall(Some(k), "", "", "", pieces[0]));
      var l' := Link(l.s, l.a.(tools := Extended(l.a.tools, pieces[0])));
      assert Fed(model, l, JsonDelta(i, pieces[0])) == l';
      JsonDeltasFed(model, l', i, pieces[1..]);
      ExtendedTwice(l.a.tools, pieces[0], Concat(pieces[1..]));
      assert ([JsonDelta(i, pieces[0])] + more)[1..] == more;
    }
  }

  lemma ToolStartFed(model: string, l: Link, i: int, id: string, name: string)
    requires Settled(model, l) && |l.s.toolIndex| == |l.a.tools|
    ensures Fed(model, l, ToolStart(i, id, name))
         == Link(l.s.(toolIndex := l.s.toolIndex[i := |l.a.tools|]),
                 l.a.(tools := l.a.tools + [ToolCall(None, id, "function", name, "")]))
  {
    var tc := ToolCall(Some(|l.a.tools|), id, "function", name, "");
    ToolChunkAdded(l.a, Base(model, l.s), tc);
    ToolAppended(l.a.tools, tc);
  }

  /** The state after the first `n` blocks: their text and tool calls, and a position per tool block. */
  ghost predicate After(model: string, l: Link, id: string, counts: Counts, ps: seq<Pieces>, n: nat)
    requires n <= |ps|
  {
    && Settled(model, l) && l.s.id == id && l.s.counts == counts.(output := 0)
    && |l.s.toolIndex| == |l.a.tools| && (forall i :: i in l.s.toolIndex ==> i < n)
    && l.a == Acc(id, if id != "" then model else "", 0, TextIn(Wholes(ps)[..n]), ToolsIn(Wholes(ps)[..n]), "", None)
  }

  lemma BlocksSnoc(ps: seq<Pieces>, n: nat)
    requires n < |ps|
    ensures var bs, b := Wholes(ps), Whole(ps[n]);
            && TextIn(bs[..n + 1]) == TextIn(bs[..n]) + (if b.TextBlock? then b.text else "")
            && ToolsIn(bs[..n + 1]) == ToolsIn(bs[..n])
                 + (if b.ToolBlock? then [ToolCall(None, b.id, "function", b.name, b.input)] else [])
  {
    var bs := Wholes(ps);
    assert bs[..n + 1][..n] == bs[..n] && bs[..n + 1][n] == bs[n];
  }

  lemma AfterTexts(model: string, l: Link, id: string, counts: Counts, ps: seq<Pieces>, n: nat)
    requires n < |ps| && After(model, l, id, counts, ps, n) && ps[n].Texts?
    ensures After(model, Feed(model, l, BlockEvents(n, ps[n])), id, counts, ps, n + 1)
  {
    BlocksSnoc(ps, n);
    TextDeltasFed(model, l, n, ps[n].pieces);
    assert l.a.tools + [] == l.a.tools;
  }

  lemma AfterInputs(model: string, l: Link, id: string, counts: Counts, ps: seq<Pieces>, n: nat)
    requires n < |ps| && After(model, l, id, counts, ps, n) && ps[n].Inputs?
    ensures After(model, Feed(model, l, BlockEvents(n, ps[n])), id, counts, ps, n + 1)
  {
    var p := ps[n];
    BlocksSnoc(ps, n);
    ToolStartFed(model, l, n, p.id, p.name);
    var e := ToolStart(n, p.id, p.name);
    var l' := Fed(model, l, e);
    JsonDeltasFed(model, l', n, p.pieces);
    assert ([e] + JsonDeltas(n, p.pieces))[1..] == JsonDeltas(n, p.pieces);
    var t := ToolCall(None, p.id, "function", p.name, "");
    assert "" + Concat(p.pieces) == Concat(p.pieces);
    assert Extended(l.a.tools + [t], Concat(p.pieces)) == l.a.tools + [t.(arguments := Concat(p.pieces))];
    assert l.a.text + "" == l.a.text;
  }

  lemma AfterOthers(model: string, l: Link, id: string, counts: Counts, ps: seq<Pieces>, n: nat)
    requires n < |ps| && After(model, l, id, counts, ps, n) && ps[n].Others?
    ensures After(model, Feed(model, l, BlockEvents(n, ps[n])), id, counts, ps, n + 1)
  {
    BlocksSnoc(ps, n);
    assert l.a.tools + [] == l.a.tools && l.a.text + "" == l.a.text;
  }

  lemma AfterBlock(model: string, l: Link, id: string, counts: Counts, ps: seq<Pieces>, n: nat)
    requires n < |ps| && After(model, l, id, counts, ps, n)
    ensures After(model, Feed(model, l, BlockEvents(n, ps[n])), id, counts, ps, n + 1)
  {
    match ps[n]
    case Texts(_) => AfterTexts(model, l, id, counts, ps, n);
    case Inputs(_, _, _) => AfterInputs(model, l, id, counts, ps, n);
    case Others => AfterOthers(model, l, id, counts, ps, n);
  }

  /** Block after block. */
  ghost function FoldEach(f: Step, l: Link, ess: seq<seq<Event>>, n: nat): Link
    requires n <= |ess|
  {
    if n == 0 then l else Fold(f, FoldEach(f, l, ess, n - 1), ess[n - 1])
  }

  lemma {:induction false} FoldFlat(f: Step, l: Link, ess: seq<seq<Event>>, n: nat)
    requires n <= |ess|
    ensures Fold(f, l, Flat(ess, n)) == FoldEach(f, l, ess, n)
  {
    if n > 0 {
      FoldFlat(f, l, ess, n - 1);
      FoldAppend(f, l, Flat(ess, n - 1), ess[n - 1]);
    }
  }

  lemma AfterNext(model: string, l: Link, l': Link, id: string, counts: Counts, ps: seq<Pieces>, n: nat)
    requires n < |ps| && After(model, l, id, counts, ps, n)
    requires l' == Fold(Feeding(model), l, BlockLists(ps)[n])
    ensures After(model, l', id, counts, ps, n + 1)
  {
    assert l' == Feed(model, l, BlockEvents(n, ps[n]));
    AfterBlock(model, l, id, counts, ps, n);
  }

  /** The state after each block, as one sequence. */
  ghost function Trail(f: Step, l: Link, ess: seq<seq<Event>>, n: nat): (r: seq<Link>)
    requires n <= |ess|
    ensures |r| == n + 1 && r[n] == FoldEach(f, l, ess, n)
    ensures forall i :: 0 <= i < n ==> r[i + 1] == Fold(f, r[i], ess[i])
    ensures r[0] == l
  {
    if n == 0 then [l] else Trail(f, l, ess, n - 1) + [FoldEach(f, l, ess, n)]
  }

  lemma AfterBlocks(model: string, l: Link, id: string, counts: Counts, ps: seq<Pieces>)
    requires After(model, l, id, counts, ps, 0)
    ensures After(model, FoldEach(Feeding(model), l, BlockLists(ps), |ps|), id, counts, ps, |ps|)
  {
    var ls := Trail(Feeding(model), l, BlockLists(ps), |ps|);
    var i := 0;
    while i < |ps|
      invariant 0 <= i <= |ps| && After(model, ls[i], id, counts, ps, i)
    {
      AfterNext(model, ls[i], ls[i + 1], id, counts, ps, i);
      i := i + 1;
    }
  }

  const Opening := Link(NewStream, Fresh)

  lemma StartFed(model: string, id: string, counts: Counts, ps: seq<Pieces>)
    ensures After(model, Fed(model, Opening, MessageStart(id, counts)), id, counts, ps, 0)
  {
    var s := Moved(NewStream, MessageStart(id, counts));
    AddedCarrying(Fresh, Base(model, s), Delta("assistant", "", []), None);
    assert Wholes(ps)[..0] == [];
  }

  lemma EndFed(model: string, l: Link, id: string, counts: Counts, ps: seq<Pieces>, stop: string)
    requires After(model, l, id, counts, ps, |ps|)
    ensures Feed(model, l, [MessageDelta(stop, counts.output), MessageStop]).a
         == l.a.(finish := FinishReason(stop), usage := Some(ToUsage(counts)))
  {
    var es := [MessageDelta(stop, counts.output), MessageStop];
    AddedCarrying(l.a, Base(model, l.s), NoDelta, Some(FinishReason(stop)));
    var l1 := Fed(model, l, es[0]);
    assert l.a.text + "" == l.a.text;
    assert l1.a == l.a.(finish := FinishReason(stop)) && l1.s.counts == counts;
    assert es[1..] == [MessageStop] && [MessageStop][1..] == [];
    assert Feed(model, l1, [MessageStop]) == Fed(model, l1, MessageStop);
  }

  lemma {:induction false} StreamedMessage(model: string, id: string, counts: Counts, ps: seq<Pieces>, stop: string,
                                           es: seq<Event>)
    requires Significant(es) == MessageEvents(id, counts, ps, stop)
    ensures Feed(model, Opening, es).a
         == Acc(id, if id != "" then model else "", 0, TextIn(Wholes(ps)), ToolsIn(Wholes(ps)),
                FinishReason(stop), Some(ToUsage(counts)))
  {
    SkippedChangeNothing(model, Opening, es);
    var start := MessageStart(id, counts);
    var blocks, end := Flat(BlockLists(ps), |ps|), [MessageDelta(stop, counts.output), MessageStop];
    var l0 := Fed(model, Opening, start);
    StartFed(model, id, counts, ps);
    assert ([start] + (blocks + end))[1..] == blocks + end;
    FoldAppend(Feeding(model), l0, blocks, end);
    FoldFlat(Feeding(model), l0, BlockLists(ps), |ps|);
    AfterBlocks(model, l0, id, counts, ps);
    EndFed(model, Feed(model, l0, blocks), id, counts, ps, stop);
    assert Wholes(ps)[..|ps|] == Wholes(ps);
  }

  /** The same for the stream: finish reason and usage of what is assembled from any message's chunks. */
  lemma {:induction false} StreamTold(model: string, id: string, counts: Counts, ps: seq<Pieces>, stop: string,
                                      es: seq<Event>)
    requires Significant(es) == MessageEvents(id, counts, ps, stop)
    ensures var a := Feed(model, Opening, es).a;
            FinishTold(stop, a.finish) && UsageTold(counts, a.usage)
  {
    StreamedMessage(model, id, counts, ps, stop, es);
  }

  /** Every chunk of a stream carries the message's id and model; the first has the role, and only the events for
      it carry a finish reason or a usage. */
  lemma ChunkTold(model: string, s: Stream, e: Event)
    requires Translated(model, s, e).Some?
    ensures var c := Translated(model, s, e).value;
            && c.id == (if e.MessageStart? then e.id else s.id) && c.model == model && c.kind == "chat.completion.chunk"
            && (c.usage.Some? <==> e.MessageStop?) && (c.choices == [] <==> e.MessageStop?)
            && (c.choices != [] ==> |c.choices| == 1 && c.choices[0].index == 0
                                    && (c.choices[0].delta.role == if e.MessageStart? then "assistant" else "")
                                    && (c.choices[0].finishReason.Some? <==> e.MessageDelta?))
  {
  }

  /** However a message is cut into events, and wherever skipped events come in between, assembling the
      translated chunks gives the response of the non-streaming translation exactly when the streamed
      blocks carry the message's text and tool calls and the message has an id (or the model name is
      empty: the assembler takes both together). */
  lemma {:induction false} StreamMatchesUnaryIff(model: string, m: Reply, ps: seq<Pieces>, es: seq<Event>)
    requires Significant(es) == MessageEvents(m.id, m.counts, ps, m.stop)
    ensures Finished(Feed(model, Opening, es).a) == Unary(model, m)
            <==> (m.id != "" || model == "")
                 && TextIn(Wholes(ps)) == TextIn(m.blocks) && ToolsIn(Wholes(ps)) == ToolsIn(m.blocks)
  {
    StreamedMessage(model, m.id, m.counts, ps, m.stop, es);
  }

  /** How a message's blocks are streamed: each cut into pieces, except that an input without arguments, `{}`,
      is sent as nothing. */
  ghost predicate Carries(p: Pieces, b: Block) {
    match b
    case TextBlock(text) => p.Texts? && Concat(p.pieces) == text
    case ToolBlock(id, name, input) =>
      p.Inputs? && p.id == id && p.name == name && Concat(p.pieces) == if input == "{}" then "" else input
    case OtherBlock => p.Others?
  }

  ghost predicate AllCarry(ps: seq<Pieces>, blocks: seq<Block>) {
    |ps| == |blocks| && forall i :: 0 <= i < |ps| ==> Carries(ps[i], blocks[i])
  }

  /** The same text, and tool calls that differ at most in their inputs. */
  ghost predicate Alike(a: Block, b: Block) {
    match b
    case TextBlock(_) => a == b
    case ToolBlock(id, name, _) => a.ToolBlock? && a.id == id && a.name == name
    case OtherBlock => a == b
  }

  ghost predicate SameInput(a: Block, b: Block) {
    a.ToolBlock? && b.ToolBlock? ==> a.input == b.input
  }

  lemma SnocEqual<T>(xs: seq<T>, x: T, ys: seq<T>, y: T)
    requires |xs| == |ys|
    ensures xs + [x] == ys + [y] <==> xs == ys && x == y
  {
    if xs + [x] == ys + [y] {
      assert xs == (xs + [x])[..|xs|] && ys == (ys + [y])[..|ys|];
      assert (xs + [x])[|xs|] == (ys + [y])[|xs|];
    }
  }

  lemma {:induction false} AlikeMessages(xs: seq<Block>, bs: seq<Block>)
    requires |xs| == |bs| && forall i :: 0 <= i < |xs| ==> Alike(xs[i], bs[i])
    ensures TextIn(xs) == TextIn(bs) && |ToolsIn(xs)| == |ToolsIn(bs)|
    ensures ToolsIn(xs) == ToolsIn(bs) <==> forall i :: 0 <= i < |xs| ==> SameInput(xs[i], bs[i])
    decreases |xs|
  {
    if xs != [] {
      var n := |xs| - 1;
      AlikeMessages(xs[..n], bs[..n]);
      var a, b := xs[n], bs[n];
      assert Alike(a, b);
      if a.ToolBlock? {
        SnocEqual(ToolsIn(xs[..n]), ToolCall(None, a.id, "function", a.name, a.input),
                  ToolsIn(bs[..n]), ToolCall(None, b.id, "function", b.name, b.input));
      } else {
        assert ToolsIn(xs) == ToolsIn(xs[..n]) && ToolsIn(bs) == ToolsIn(bs[..n]);
      }
      assert (forall i :: 0 <= i < |xs| ==> SameInput(xs[i], bs[i]))
        <==> SameInput(a, b) && forall i :: 0 <= i < n ==> SameInput(xs[..n][i], bs[..n][i]);
    }
  }

  /** For every message and every way its blocks are streamed: the two translations agree if and only if the
      message has an id (or there is no model name to lose) and no tool is called without arguments. */
  lemma {:induction false} StreamEqualsUnaryIff(model: string, m: Reply, ps: seq<Pieces>, es: seq<Event>)
    requires Significant(es) == MessageEvents(m.id, m.counts, ps, m.stop) && AllCarry(ps, m.blocks)
    ensures Finished(Feed(model, Opening, es).a) == Unary(model, m)
            <==> (m.id != "" || model == "")
                 && forall i :: 0 <= i < |m.blocks| && m.blocks[i].ToolBlock? ==> m.blocks[i].input != "{}"
  {
    StreamMatchesUnaryIff(model, m, ps, es);
    var ws := Wholes(ps);
    forall i | 0 <= i < |ps|
      ensures Alike(ws[i], m.blocks[i])
      ensures SameInput(ws[i], m.blocks[i]) <==> (m.blocks[i].ToolBlock? ==> m.blocks[i].input != "{}")
    {
      assert Carries(ps[i], m.blocks[i]);
    }
    AlikeMessages(ws, m.blocks);
  }

  lemma {:induction false} NothingSkipped(es: seq<Event>)
    requires forall i :: 0 <= i < |es| ==> !es[i].Skipped?
    ensures Significant(es) == es
    decreases |es|
  {
    if es != [] {
      NothingSkipped(es[1..]);
    }
  }

  /** For example: a message that calls one tool without arguments, streamed and whole. */
  lemma EmptyArgumentsDiffer(model: string, id: string, tool: string, name: string, counts: Counts)
    ensures var m := Reply(id, [ToolBlock(tool, name, "{}")], "tool_use", counts);
            var es := MessageEvents(id, counts, [Inputs(tool, name, [""])], "tool_use");
            Finished(Feed(model, Opening, es).a) != Unary(model, m)
  {
    var m := Reply(id, [ToolBlock(tool, name, "{}")], "tool_use", counts);
    var ps := [Inputs(tool, name, [""])];
    var es := MessageEvents(id, counts, ps, "tool_use");
    assert Concat([""]) == "" by { assert [""][1..] == []; }
    OneToolEvents(id, counts, tool, name);
    NothingSkipped(es);
    assert AllCarry(ps, m.blocks);
    StreamEqualsUnaryIff(model, m, ps, es);
    assert m.blocks[0].input == "{}";
  }

  lemma OneToolEvents(id: string, counts: Counts, tool: string, name: string)
    ensures MessageEvents(id, counts, [Inputs(tool, name, [""])], "tool_use")
         == [MessageStart(id, counts), ToolStart(0, tool, name), JsonDelta(0, ""),
             MessageDelta("tool_use", counts.output), MessageStop]
  {
    var ps := [Inputs(tool, name, [""])];
    assert JsonDeltas(0, [""]) == [JsonDelta(0, "")] by { assert [""][1..] == []; }
    var ess := BlockLists(ps);
    assert ess[0] == [ToolStart(0, tool, name)] + [JsonDelta(0, "")];
    assert Flat(ess, 1) == Flat(ess, 0) + ess[0];
  }

  lemma {:induction false} FeedSkips(model: string, l: Link, es: seq<Event>, k: nat)
    requires k <= |es| && forall j :: 0 <= j < k ==> es[j].Skipped?
    ensures Feed(model, l, es) == Feed(model, l, es[k..])
    decreases k
  {
    if k == 0 {
      assert es[0..] == es;
    } else {
      FeedSkips(model, l, es, k - 1);
      assert es[k - 1..][0] == es[k - 1] && es[k - 1..][1..] == es[k..];
      assert Fed(model, l, es[k - 1]) == l;
    }
  }

  lemma {:induction false} FeedPast(model: string, l: Link, es: seq<Event>)
    requires l.s.done
    ensures Feed(model, l, es) == l
    decreases |es|
  {
    if es != [] {
      FeedPast(model, l, es[1..]);
    }
  }

  lemma {:induction false} FeedOne(model: string, l: Link, es: seq<Event>, k: nat, c: Chunk)
    requires !l.s.done && 1 <= k <= |es| && (forall j :: 0 <= j < k - 1 ==> es[j].Skipped?)
    requires Translated(model, l.s, es[k - 1]) == Some(c)
    ensures Feed(model, l, es) == Feed(model, Link(Moved(l.s, es[k - 1]), Added(l.a, c)), es[k..])
  {
    FeedSkips(model, l, es, k - 1);
    assert es[k - 1..][0] == es[k - 1] && es[k - 1..][1..] == es[k..];
  }

  lemma {:induction false} FeedNone(model: string, l: Link, es: seq<Event>)
    requires l.s.done || forall j :: 0 <= j < |es| ==> es[j].Skipped?
    ensures Feed(model, l, es) == l
  {
    if l.s.done {
      FeedPast(model, l, es);
    } else {
      FeedSkips(model, l, es, |es|);
      assert es[|es|..] == [];
    }
  }

  /** An error event comes before the message has ended. */
  ghost predicate Breaks(es: seq<Event>) {
    exists i :: 0 <= i < |es| && ErrorAt(es, i)
  }

  ghost predicate ErrorAt(es: seq<Event>, i: nat)
    requires i < |es|
  {
    es[i].StreamError? && forall j :: 0 <= j < i ==> !es[j].MessageStop?
  }

  /** Past events that are no errors, of which only the last may end the message. */
  lemma {:induction false} BreaksPast(es: seq<Event>, k: nat)
    requires 1 <= k <= |es| && !es[k - 1].StreamError? && forall j :: 0 <= j < k - 1 ==> es[j].Skipped?
    ensures Breaks(es) <==> !es[k - 1].MessageStop? && Breaks(es[k..])
  {
    if Breaks(es) {
      var i :| 0 <= i < |es| && ErrorAt(es, i);
      assert i >= k && es[k..][i - k] == es[i] && ErrorAt(es[k..], i - k);
    }
    if !es[k - 1].MessageStop? && Breaks(es[k..]) {
      var i :| 0 <= i < |es[k..]| && ErrorAt(es[k..], i);
      assert forall j :: k <= j < |es| ==> es[j] == es[k..][j - k];
      assert ErrorAt(es, i + k);
    }
  }

  /** Receive until the end and assemble every chunk; it fails exactly when an error event comes first. */
  method Consume(model: string, events: seq<Event>) returns (failed: bool, r: Response)
    ensures failed <==> Breaks(events)
    ensures !failed ==> r == Finished(Feed(model, Opening, events).a)
  {
    var stream := new Receiver(model, events);
    var asm := new Assembler();
    ghost var whole := Feed(model, Opening, events);
    while true
      invariant fresh(stream) && fresh(asm) && stream.model == model
      invariant Feed(model, Link(stream.Now(), asm.Now()), stream.events) == whole
      invariant Breaks(events) <==> !stream.done && Breaks(stream.events)
      decreases |stream.events|, !stream.done
    {
      ghost var s, a, es := stream.Now(), asm.Now(), stream.events;
      var got := stream.Recv();
      ghost var k := |es| - |stream.events|;
      if got.Failed? {
        assert ErrorAt(es, k - 1);
        return true, Finished(Fresh);
      }
      if got.EndOfStream? {
        FeedNone(model, Link(s, a), es);
        break;
      }
      FeedOne(model, Link(s, a), es, k, got.c);
      BreaksPast(es, k);
      asm.Add(got.c);
    }
    failed := false;
    r := Response(asm.id, "chat.completion", asm.created, asm.model,
                  [Choice(0, Message("assistant", Content(asm.text, None), "", asm.tools, ""), asm.finish)], asm.usage);
  }
}
