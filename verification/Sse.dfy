/**
 Server-sent events (internal/sse/reader.go, internal/sse/writer.go): the writer's framing and the
 line-by-line reader, in the sense of section 9.2.6 of the WHATWG HTML Living Standard. Bytes are
 modelled as characters.
 */
module Sse {
  import opened Text

  datatype Event = Event(id: string, name: string, data: string)

  // ----- writing

  function Split(s: string): (lines: seq<string>)
    ensures |lines| >= 1
    decreases |s|
  {
    var i := IndexOf(s, '\n');
    if i == |s| then [s] else [s[..i]] + Split(s[i + 1..])
  }

  function Join(lines: seq<string>): string {
    if lines == [] then "" else if |lines| == 1 then lines[0] else lines[0] + "\n" + Join(lines[1..])
  }

  /** What a line says. */
  datatype Kind = Blank | Comment | Id(v: string) | Name(v: string) | Data(v: string) | Other

  predicate IsField(k: Kind) {
    k.Id? || k.Name? || k.Data?
  }

  function FieldName(k: Kind): string
    requires IsField(k)
  {
    if k.Id? then "id" else if k.Name? then "event" else "data"
  }

  /** One `field: value` line. */
  function Line(k: Kind): string
    requires IsField(k)
  {
    FieldName(k) + ": " + k.v + "\n"
  }

  function Optional(k: Kind): string
    requires IsField(k)
  {
    if k.v != "" then Line(k) else ""
  }

  function DataLines(lines: seq<string>): string {
    if lines == [] then "" else Line(Data(lines[0])) + DataLines(lines[1..])
  }

  function Encode(e: Event): string {
    Optional(Id(e.id)) + (Optional(Name(e.name)) + (DataLines(Split(e.data)) + "\n"))
  }

  function EncodeAll(es: seq<Event>): string {
    if es == [] then "" else Encode(es[0]) + EncodeAll(es[1..])
  }

  // ----- reading

  /** Cut after the first newline; at the end of the stream the last line may lack one. */
  function LineEnd(input: string): (n: nat)
    requires input != ""
    ensures 1 <= n <= |input|
  {
    var i := IndexOf(input, '\n');
    if i == |input| then |input| else i + 1
  }

  function TrimRight(s: string): string {
    if s != "" && (s[|s| - 1] == '\r' || s[|s| - 1] == '\n') then TrimRight(s[..|s| - 1]) else s
  }

  /** What follows the colon at `i`, without one leading space. */
  function ValueAfter(line: string, i: nat): string
    requires i <= |line|
  {
    var v := if i == |line| then "" else line[i + 1..];
    if v != "" && v[0] == ' ' then v[1..] else v
  }

  function Classify(line: string): Kind {
    if line == "" then Blank
    else if line[0] == ':' then Comment
    else
      var i := IndexOf(line, ':');
      var field, v := line[..i], ValueAfter(line, i);
      if field == "id" then Id(v) else if field == "event" then Name(v) else if field == "data" then Data(v) else Other
  }

  /** The variables of `Next`: the event so far, whether it has any field, bytes read. */
  datatype Partial = Partial(id: string, name: string, data: seq<string>, have: bool, total: nat)

  const Nothing := Partial("", "", [], false, 0)

  function Done(p: Partial): Event {
    Event(p.id, p.name, Join(p.data))
  }

  /** What a line of `n` bytes adds: blank lines, comments and unknown fields only count. */
  function Absorb(p: Partial, k: Kind, n: nat): Partial {
    var q := p.(total := p.total + n);
    match k
    case Id(v) => q.(id := v, have := true)
    case Name(v) => q.(name := v, have := true)
    case Data(v) => q.(data := p.data + [v], have := true)
    case _ => q
  }

  datatype Read = Got(e: Event, rest: string) | EndOfStream | TooLarge

  /** The loop of `Next` from the current position. */
  function Scan(max: nat, input: string, p: Partial): (r: Read)
    ensures r.Got? ==> |r.rest| < |input| || (input == "" && p.have)
    decreases |input|
  {
    if input == "" then if p.have then Got(Done(p), "") else EndOfStream
    else
      var n := LineEnd(input);
      var k := Classify(TrimRight(input[..n]));
      if p.total + n > max then TooLarge
      else if k.Blank? && p.have then Got(Done(p), input[n..])
      else Scan(max, input[n..], Absorb(p, k, n))
  }

  function Next(max: nat, input: string): Read {
    Scan(max, input, Nothing)
  }

  datatype Outcome = Events(es: seq<Event>) | Oversized

  /** Read until the end of the stream. */
  function ReadAll(max: nat, input: string): Outcome
    decreases |input|
  {
    match Next(max, input)
    case EndOfStream => Events([])
    case TooLarge => Oversized
    case Got(e, rest) =>
      match ReadAll(max, rest)
      case Oversized => Oversized
      case Events(es) => Events([e] + es)
  }

  // ----- lines

  /** A value that survives on a line of its own: no newline, no trailing carriage return. */
  predicate Plain(v: string) {
    '\n' !in v && (v == "" || v[|v| - 1] != '\r')
  }

  predicate Writable(e: Event) {
    Plain(e.id) && Plain(e.name) && forall i :: 0 <= i < |Split(e.data)| ==> Plain(Split(e.data)[i])
  }

  lemma {:induction false} TrimKeeps(s: string)
    requires s == "" || (s[|s| - 1] != '\r' && s[|s| - 1] != '\n')
    ensures TrimRight(s) == s && TrimRight(s + "\n") == s
  {
    assert (s + "\n")[..|s|] == s;
  }

  lemma {:induction false} TrimShape(s: string)
    ensures TrimRight(s) <= s
    ensures TrimRight(s) == "" || (TrimRight(s)[|TrimRight(s)| - 1] != '\r' && TrimRight(s)[|TrimRight(s)| - 1] != '\n')
    decreases |s|
  {
    if s != "" && (s[|s| - 1] == '\r' || s[|s| - 1] == '\n') {
      TrimShape(s[..|s| - 1]);
    }
  }

  lemma {:induction false} IndexOfFirst(a: string, c: char, b: string)
    requires c !in a
    ensures IndexOf(a + [c] + b, c) == |a|
    decreases |a|
  {
    var s := a + [c] + b;
    if a != "" {
      assert s[0] == a[0] != c;
      assert s[1..] == a[1..] + [c] + b;
      IndexOfFirst(a[1..], c, b);
    }
  }

  lemma LineTrims(k: Kind)
    requires IsField(k) && Plain(k.v)
    ensures TrimRight(Line(k)) == FieldName(k) + ": " + k.v
  {
    var line := FieldName(k) + ": " + k.v;
    assert line[|line| - 1] == if k.v == "" then ' ' else k.v[|k.v| - 1];
    TrimKeeps(line);
  }

  lemma SplitsAtColon(name: string, v: string)
    requires name != "" && ':' !in name
    ensures var line := name + ": " + v;
            && line != "" && line[0] != ':' && IndexOf(line, ':') == |name|
            && line[..|name|] == name && ValueAfter(line, |name|) == v
  {
    var line := name + ": " + v;
    assert line == name + [':'] + (" " + v);
    IndexOfFirst(name, ':', " " + v);
    assert line[|name| + 1..] == " " + v && (" " + v)[1..] == v;
    assert line[0] == name[0];
  }

  /** A written line is understood as what was written. */
  lemma LineClassified(k: Kind)
    requires IsField(k) && Plain(k.v)
    ensures Classify(TrimRight(Line(k))) == k
  {
    LineTrims(k);
    assert ':' !in FieldName(k) && FieldName(k) != "";
    SplitsAtColon(FieldName(k), k.v);
    assert "id" != "event" && "event" != "data" && "id" != "data" by {
      assert |"id"| == 2 && |"event"| == 5 && |"data"| == 4;
    }
  }

  lemma LineEnds(k: Kind, tail: string)
    requires IsField(k) && Plain(k.v)
    ensures var input := Line(k) + tail;
            LineEnd(input) == |Line(k)| && input[..LineEnd(input)] == Line(k) && input[LineEnd(input)..] == tail
  {
    var body := FieldName(k) + ": " + k.v;
    var input := Line(k) + tail;
    assert '\n' !in body;
    assert input == body + ['\n'] + tail;
    IndexOfFirst(body, '\n', tail);
  }

  /** The reader takes one written line and goes on, or finds the event too large. */
  lemma ScanLine(max: nat, k: Kind, tail: string, p: Partial)
    requires IsField(k) && Plain(k.v)
    ensures Scan(max, Line(k) + tail, p)
         == if p.total + |Line(k)| > max then TooLarge else Scan(max, tail, Absorb(p, k, |Line(k)|))
  {
    LineClassified(k);
    LineEnds(k, tail);
  }

  /** If what follows the line ends in an event of so many more bytes, so does the whole. */
  lemma ScanLineThen(max: nat, k: Kind, rest: string, p: Partial, bytes: nat, e: Event, tail: string)
    requires IsField(k) && Plain(k.v)
    requires Scan(max, rest, Absorb(p, k, |Line(k)|)) == GotOr(p.total + |Line(k)| + bytes <= max, e, tail)
    ensures Scan(max, Line(k) + rest, p) == GotOr(p.total + |Line(k)| + bytes <= max, e, tail)
  {
    ScanLine(max, k, rest, p);
  }

  lemma ScanBlank(max: nat, tail: string, p: Partial)
    requires p.have
    ensures Scan(max, "\n" + tail, p) == if p.total + 1 > max then TooLarge else Got(Done(p), tail)
  {
    var input := "\n" + tail;
    assert input == "" + ['\n'] + tail;
    IndexOfFirst("", '\n', tail);
    assert input[..1] == "\n" && input[1..] == tail;
    assert TrimRight("\n") == "";
  }

  // ----- reading back what was written

  ghost function GotOr(fits: bool, e: Event, rest: string): Read {
    if fits then Got(e, rest) else TooLarge
  }

  lemma {:induction false} ScanDataLines(max: nat, lines: seq<string>, tail: string, p: Partial)
    requires (forall i :: 0 <= i < |lines| ==> Plain(lines[i])) && (p.have || lines != [])
    ensures Scan(max, DataLines(lines) + ("\n" + tail), p)
         == GotOr(p.total + (|DataLines(lines)| + 1) <= max, Event(p.id, p.name, Join(p.data + lines)), tail)
    decreases |lines|
  {
    var end := "\n" + tail;
    if lines == [] {
      assert DataLines(lines) + end == end && p.data + lines == p.data;
      ScanBlank(max, tail, p);
    } else {
      var k := Data(lines[0]);
      var more := DataLines(lines[1..]);
      ScanDataLines(max, lines[1..], tail, Absorb(p, k, |Line(k)|));
      assert p.data + [lines[0]] + lines[1..] == p.data + lines;
      ScanLineThen(max, k, more + end, p, |more| + 1, Event(p.id, p.name, Join(p.data + lines)), tail);
      DataLinesStep(lines, end);
    }
  }

  lemma DataLinesStep(lines: seq<string>, end: string)
    requires lines != []
    ensures DataLines(lines) + end == Line(Data(lines[0])) + (DataLines(lines[1..]) + end)
    ensures |DataLines(lines)| == |Line(Data(lines[0]))| + |DataLines(lines[1..])|
  {
    var a, b := Line(Data(lines[0])), DataLines(lines[1..]);
    assert (a + b) + end == a + (b + end);
  }

  lemma JoinCons(a: string, lines: seq<string>)
    requires lines != []
    ensures Join([a] + lines) == a + "\n" + Join(lines)
  {
    assert ([a] + lines)[1..] == lines;
  }

  lemma {:induction false} JoinSplit(s: string)
    ensures Join(Split(s)) == s
    decreases |s|
  {
    var i := IndexOf(s, '\n');
    if i < |s| {
      JoinSplit(s[i + 1..]);
      JoinCons(s[..i], Split(s[i + 1..]));
      CutAt(s, i);
    }
  }

  lemma CutAt(s: string, i: nat)
    requires i < |s| && s[i] == '\n'
    ensures s == s[..i] + "\n" + s[i + 1..]
  {
  }

  /** The part of an event after its id. */
  lemma ScanAfterId(max: nat, e: Event, tail: string, p: Partial)
    requires Writable(e) && p.name == "" && p.data == []
    ensures var body := Optional(Name(e.name)) + (DataLines(Split(e.data)) + "\n");
            Scan(max, body + tail, p) == GotOr(p.total + |body| <= max, Event(p.id, e.name, e.data), tail)
  {
    var k, lines := Name(e.name), Split(e.data);
    var body := DataLines(lines) + "\n";
    JoinSplit(e.data);
    assert body + tail == DataLines(lines) + ("\n" + tail);
    assert Optional(k) + body + tail == Optional(k) + (body + tail);
    if e.name == "" {
      assert Optional(k) + (body + tail) == body + tail;
      ScanDataLines(max, lines, tail, p);
      assert p.data + lines == lines;
    } else {
      var q := Absorb(p, k, |Line(k)|);
      ScanDataLines(max, lines, tail, q);
      assert q.data + lines == lines;
      ScanLineThen(max, k, body + tail, p, |body|, Event(p.id, e.name, e.data), tail);
    }
  }

  /** One written event is read back whole, or reported too large. */
  lemma NextReadsEvent(max: nat, e: Event, tail: string)
    requires Writable(e)
    ensures Next(max, Encode(e) + tail) == GotOr(|Encode(e)| <= max, e, tail)
  {
    var k := Id(e.id);
    var body := Optional(Name(e.name)) + (DataLines(Split(e.data)) + "\n");
    assert Encode(e) + tail == Optional(k) + (body + tail);
    if e.id == "" {
      assert Optional(k) + (body + tail) == body + tail;
      ScanAfterId(max, e, tail, Nothing);
    } else {
      ScanAfterId(max, e, tail, Absorb(Nothing, k, |Line(k)|));
      ScanLineThen(max, k, body + tail, Nothing, |body|, e, tail);
    }
  }

  // ----- whatever is read is writable

  lemma {:induction false} SplitJoin(lines: seq<string>)
    requires lines != [] && forall i :: 0 <= i < |lines| ==> '\n' !in lines[i]
    ensures Split(Join(lines)) == lines
    decreases |lines|
  {
    if |lines| == 1 {
      SplitPlain(lines[0]);
      assert lines == [lines[0]];
    } else {
      SplitJoin(lines[1..]);
      SplitFirst(lines[0], Join(lines[1..]));
      assert lines == [lines[0]] + lines[1..];
    }
  }

  lemma SplitPlain(s: string)
    requires '\n' !in s
    ensures Split(s) == [s]
  {
    assert IndexOf(s, '\n') == |s|;
  }

  lemma SplitFirst(a: string, b: string)
    requires '\n' !in a
    ensures Split(a + "\n" + b) == [a] + Split(b)
  {
    var s := a + "\n" + b;
    assert s == a + ['\n'] + b;
    IndexOfFirst(a, '\n', b);
    assert s[..|a|] == a && s[|a| + 1..] == b;
  }

  ghost predicate PlainPartial(p: Partial) {
    Plain(p.id) && Plain(p.name) && forall i :: 0 <= i < |p.data| ==> Plain(p.data[i])
  }

  lemma DoneWritable(p: Partial)
    requires PlainPartial(p)
    ensures Writable(Done(p))
  {
    if p.data == [] {
      SplitPlain("");
    } else {
      SplitJoin(p.data);
    }
  }

  lemma NoNewlineInside(input: string)
    requires input != ""
    ensures '\n' !in TrimRight(input[..LineEnd(input)])
  {
    var n := LineEnd(input);
    var line := input[..n];
    TrimShape(line);
    var i := IndexOf(input, '\n');
    if i < |input| {
      assert line[..i] == input[..i] && line[n - 1] == '\n';
    } else {
      assert line == input[..i];
    }
  }

  lemma SuffixPlain(line: string, k: nat)
    requires Plain(line) && k <= |line|
    ensures Plain(line[k..])
  {
  }

  lemma ClassifiedPlain(line: string)
    requires Plain(line)
    ensures IsField(Classify(line)) ==> Plain(Classify(line).v)
  {
    var i := IndexOf(line, ':');
    if i < |line| {
      SuffixPlain(line, i + 1);
      if i + 1 < |line| {
        SuffixPlain(line, i + 2);
        assert line[i + 1..][1..] == line[i + 2..];
      }
    }
  }

  lemma ReadLinePlain(input: string)
    requires input != ""
    ensures Plain(TrimRight(input[..LineEnd(input)]))
  {
    NoNewlineInside(input);
    TrimShape(input[..LineEnd(input)]);
  }

  lemma AbsorbPlain(p: Partial, k: Kind, n: nat)
    requires PlainPartial(p) && (IsField(k) ==> Plain(k.v))
    ensures PlainPartial(Absorb(p, k, n))
  {
  }

  lemma {:induction false} ScanWritable(max: nat, input: string, p: Partial)
    requires PlainPartial(p)
    ensures Scan(max, input, p).Got? ==> Writable(Scan(max, input, p).e)
    decreases |input|
  {
    DoneWritable(p);
    if input != "" {
      var n := LineEnd(input);
      var k := Classify(TrimRight(input[..n]));
      ReadLinePlain(input);
      ClassifiedPlain(TrimRight(input[..n]));
      AbsorbPlain(p, k, n);
      ScanWritable(max, input[n..], Absorb(p, k, n));
    }
  }

  ghost predicate AllWritable(es: seq<Event>) {
    forall i :: 0 <= i < |es| ==> Writable(es[i])
  }

  lemma {:induction false} ReadAllWritable(max: nat, input: string)
    ensures ReadAll(max, input).Events? ==> AllWritable(ReadAll(max, input).es)
    decreases |input|
  {
    ScanWritable(max, input, Nothing);
    var r := Next(max, input);
    if r.Got? {
      ReadAllWritable(max, r.rest);
    }
  }

  ghost predicate AllFit(max: nat, es: seq<Event>) {
    forall i :: 0 <= i < |es| ==> |Encode(es[i])| <= max
  }

  ghost function Readable(fits: bool, es: seq<Event>): Outcome {
    if fits then Events(es) else Oversized
  }

  lemma {:induction false} WrittenStep(max: nat, e: Event, tail: string, fits: bool, es: seq<Event>)
    requires Writable(e) && ReadAll(max, tail) == Readable(fits, es)
    ensures ReadAll(max, Encode(e) + tail) == Readable(|Encode(e)| <= max && fits, [e] + es)
  {
    NextReadsEvent(max, e, tail);
    ReadAllStep(max, Encode(e) + tail, |Encode(e)| <= max, e, tail, fits, es);
  }

  /** From the events after the first to all of them; `fits` says that those after the first fit. */
  lemma {:induction false} WrittenNext(max: nat, es: seq<Event>, fits: bool)
    requires es != [] && Writable(es[0]) && ReadAll(max, EncodeAll(es[1..])) == Readable(fits, es[1..])
    ensures ReadAll(max, EncodeAll(es)) == Readable(|Encode(es[0])| <= max && fits, es)
  {
    WrittenStep(max, es[0], EncodeAll(es[1..]), fits, es[1..]);
    assert es == [es[0]] + es[1..];
  }

  lemma {:induction false} WrittenReadBack(max: nat, es: seq<Event>)
    requires AllWritable(es)
    ensures ReadAll(max, EncodeAll(es)) == Readable(AllFit(max, es), es)
    decreases |es|
  {
    if es != [] {
      AllWritableTail(es);
      WrittenReadBack(max, es[1..]);
      AllFitStep(max, es);
      WrittenNext(max, es, AllFit(max, es[1..]));
    }
  }

  lemma {:induction false} AllWritableTail(es: seq<Event>)
    requires AllWritable(es) && es != []
    ensures Writable(es[0]) && AllWritable(es[1..])
  {
  }

  lemma {:induction false} ReadAllStep(max: nat, input: string, fits: bool, e: Event, rest: string, restFits: bool,
                                       es: seq<Event>)
    requires Next(max, input) == GotOr(fits, e, rest)
    requires ReadAll(max, rest) == Readable(restFits, es)
    ensures ReadAll(max, input) == Readable(fits && restFits, [e] + es)
  {
  }

  lemma {:induction false} AllFitStep(max: nat, es: seq<Event>)
    requires es != []
    ensures AllFit(max, es) <==> |Encode(es[0])| <= max && AllFit(max, es[1..])
  {
    var tail := es[1..];
    assert forall i :: 0 <= i < |tail| ==> tail[i] == es[i + 1];
    assert forall i :: 1 <= i < |es| ==> es[i] == tail[i - 1];
  }

  /** Reading everything that was written gives back exactly the events written and then the end of
      the stream, if and only if every id, name and data line is free of newlines and trailing carriage
      returns and every encoding fits the size limit. */
  lemma {:induction false} RoundTripIff(max: nat, es: seq<Event>)
    ensures ReadAll(max, EncodeAll(es)) == Events(es)
            <==> AllWritable(es) && AllFit(max, es)
  {
    ReadAllWritable(max, EncodeAll(es));
    if AllWritable(es) {
      WrittenReadBack(max, es);
    }
  }

  /** `raw` frames its bytes as one nameless event when they contain no newline. */
  lemma RawIsEvent(b: string)
    requires '\n' !in b
    ensures "data: " + b + "\n\n" == Encode(Event("", "", b))
  {
    SplitPlain(b);
    assert DataLines([b]) == Line(Data(b)) + DataLines([]) by {
      assert [b][1..] == [];
    }
    assert "data" + ": " + b + "\n" + "" + "\n" == "data: " + b + "\n\n";
  }

  // ----- the imperative forms

  class Writer {
    var out: string

    constructor ()
      ensures out == ""
    {
      out := "";
    }

    method Event(e: Event)
      modifies this
      ensures out == old(out) + Encode(e)
    {
      var b := "";
      if e.id != "" {
        b := b + ("id: " + e.id + "\n");
      }
      assert b == Optional(Id(e.id)) by {
        assert "" + ("id: " + e.id + "\n") == Line(Id(e.id));
      }
      ghost var first := b;
      if e.name != "" {
        b := b + ("event: " + e.name + "\n");
      }
      assert b == first + Optional(Name(e.name)) by {
        assert "event: " + e.name + "\n" == Line(Name(e.name));
        assert first + "" == first;
      }
      var data := Framed(Split(e.data));
      b := b + data + "\n";
      out := out + b;
      EncodeAssoc(Optional(Id(e.id)), Optional(Name(e.name)), data);
    }
  }

  lemma EncodeAssoc(a: string, b: string, c: string)
    ensures a + b + c + "\n" == a + (b + (c + "\n"))
  {
  }

  /** The loop over the data lines. */
  method Framed(lines: seq<string>) returns (b: string)
    ensures b == DataLines(lines)
  {
    b := "";
    var i := 0;
    while i < |lines|
      invariant 0 <= i <= |lines| && b + DataLines(lines[i..]) == DataLines(lines)
    {
      DataLinesStep(lines[i..], "");
      assert lines[i..][1..] == lines[i + 1..];
      assert Line(Data(lines[i])) == "data: " + lines[i] + "\n";
      b := b + ("data: " + lines[i] + "\n");
      i := i + 1;
    }
  }

  const DEFAULT_MAX_EVENT_BYTES: nat := 16 * 1024 * 1024

  class Reader {
    var unread: string
    const max: nat

    /** Without a positive limit the default one applies. */
    constructor (input: string, limit: int)
      ensures unread == input && max == if limit <= 0 then DEFAULT_MAX_EVENT_BYTES else limit
    {
      unread := input;
      max := if limit <= 0 then DEFAULT_MAX_EVENT_BYTES else limit;
    }

    method Next() returns (r: Read)
      modifies this
      ensures r == Scan(max, old(unread), Nothing)
      ensures r.Got? ==> unread == r.rest
    {
      var p := Nothing;
      while true
        invariant Scan(max, unread, p) == Scan(max, old(unread), Nothing)
        decreases |unread|
      {
        if unread == "" {
          return if p.have then Got(Done(p), "") else EndOfStream;
        }
        var n := LineEnd(unread);
        var k := Classify(TrimRight(unread[..n]));
        unread := unread[n..];
        if p.total + n > max {
          return TooLarge;
        }
        if k.Blank? && p.have {
          return Got(Done(p), unread);
        }
        p := Absorb(p, k, n);
      }
    }
  }

  // ----- reading lines the writer does not write

  lemma FieldNameShape(k: Kind)
    requires IsField(k)
    ensures FieldName(k) != "" && ':' !in FieldName(k)
    ensures "id" != "event" && "event" != "data" && "id" != "data"
  {
    assert |"id"| == 2 && |"event"| == 5 && |"data"| == 4;
  }

  lemma CutAtColon(name: string, v: string)
    requires name != "" && ':' !in name
    ensures var line := name + ":" + v;
            && line != "" && line[0] != ':' && IndexOf(line, ':') == |name| && line[..|name|] == name
            && line[|name| + 1..] == v
  {
    var line := name + ":" + v;
    assert line == name + [':'] + v;
    IndexOfFirst(name, ':', v);
    assert line[0] == name[0];
  }

  /** One space after the colon is dropped if it is there, and only one. */
  lemma FieldForms(k: Kind)
    requires IsField(k)
    ensures Classify(FieldName(k) + ":" + (" " + k.v)) == k
    ensures (k.v == "" || k.v[0] != ' ') ==> Classify(FieldName(k) + ":" + k.v) == k
  {
    FieldNameShape(k);
    CutAtColon(FieldName(k), " " + k.v);
    CutAtColon(FieldName(k), k.v);
    assert (" " + k.v)[1..] == k.v;
  }

  /** A field name without a colon has the empty value. */
  lemma BareField(k: Kind)
    requires IsField(k) && k.v == ""
    ensures Classify(FieldName(k)) == k
  {
    FieldNameShape(k);
    NoColon(FieldName(k));
  }

  lemma {:induction false} NoColon(s: string)
    requires ':' !in s
    ensures IndexOf(s, ':') == |s| && s[..|s|] == s
    decreases |s|
  {
    if s != "" {
      NoColon(s[1..]);
    }
  }

  /** A line that starts with a colon is a comment, and a field of another name is ignored. */
  lemma IgnoredLines(name: string, v: string)
    requires ':' !in name && name !in {"", "id", "event", "data"}
    ensures Classify(":" + v).Comment? && Classify(name + ":" + v).Other?
  {
    CutAtColon(name, v);
  }

  /** A line ends with a newline, whatever carriage returns come before it. */
  lemma LineRead(max: nat, line: string, cr: bool, tail: string, p: Partial)
    requires Plain(line)
    ensures var end := if cr then "\r\n" else "\n";
            var n := |line| + |end|;
            Scan(max, line + end + tail, p) ==
              if p.total + n > max then TooLarge
              else if Classify(line).Blank? && p.have then Got(Done(p), tail)
              else Scan(max, tail, Absorb(p, Classify(line), n))
  {
    var body := if cr then line + "\r" else line;
    var end := if cr then "\r\n" else "\n";
    var input := line + end + tail;
    assert input == body + ['\n'] + tail;
    IndexOfFirst(body, '\n', tail);
    assert input[..|body| + 1] == body + "\n" && input[|body| + 1..] == tail;
    EndTrims(line, cr);
  }

  lemma EndTrims(line: string, cr: bool)
    requires Plain(line)
    ensures TrimRight((if cr then line + "\r" else line) + "\n") == line
  {
    TrimKeeps(line);
    if cr {
      assert (line + "\r" + "\n")[..|line| + 1] == line + "\r" && (line + "\r")[..|line|] == line;
    }
  }

  /** At the end of the stream a last line without a newline still counts, and so does the event it belongs to. */
  lemma LastLineRead(max: nat, line: string, p: Partial)
    requires Plain(line) && line != "" && p.total + |line| <= max
    ensures var q := Absorb(p, Classify(line), |line|);
            Scan(max, line, p) == if q.have then Got(Done(q), "") else EndOfStream
  {
    NoNewline(line);
    assert line[..|line|] == line && line[|line|..] == "";
    TrimKeeps(line);
    assert !Classify(line).Blank?;
  }

  lemma {:induction false} NoNewline(s: string)
    requires '\n' !in s
    ensures IndexOf(s, '\n') == |s|
    decreases |s|
  {
    if s != "" {
      NoNewline(s[1..]);
    }
  }

  /** Any single field makes an event, also without data. */
  lemma OneFieldEvent(max: nat, k: Kind, tail: string)
    requires IsField(k) && Plain(k.v) && |Line(k)| + 1 <= max
    ensures Next(max, Line(k) + ("\n" + tail)) ==
              Got(match k
                  case Id(v) => Event(v, "", "")
                  case Name(v) => Event("", v, "")
                  case Data(v) => Event("", "", v), tail)
  {
    ScanLine(max, k, "\n" + tail, Nothing);
    ScanBlank(max, tail, Absorb(Nothing, k, |Line(k)|));
  }
}
