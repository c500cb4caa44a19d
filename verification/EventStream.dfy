/** Printing a validated stream as server-sent events, and reading one back. */
module EventStream {
  import opened Common
  import opened Responses

  const MAX_LINE: nat := 65536
  const MAX_STREAM: nat := 2 * 1024 * 1024
  const MAX_BUNDLE: nat := 256 * 1024

  const LF: Byte := 10
  const CR: Byte := 13
  const COLON: Byte := 58
  const SPACE: Byte := 32

  /** The JSON codec, for one event and for a whole list of events, and the text
      of each event type. */
  datatype Codec = Codec(
    typeName: EventKind -> string, canonical: Event -> Bytes, loads: Bytes -> Option<Event>,
    canonicalList: seq<Event> -> Bytes, loadsList: Bytes -> Option<seq<Event>>)

  predicate Printable(s: string) {
    s != "" && forall i :: 0 <= i < |s| ==> ' ' < s[i] <= '~'
  }

  /** Canonical JSON reads back as the value it was printed from, on a single line;
      the supported event types have plain names. */
  ghost predicate Faithful(c: Codec) {
    && (forall k :: Allowed(k) ==> Printable(c.typeName(k)))
    && (forall e :: c.loads(c.canonical(e)) == Some(e))
    && (forall e :: LF !in c.canonical(e) && CR !in c.canonical(e) && c.canonical(e) != [])
    && (forall es :: c.loadsList(c.canonicalList(es)) == Some(es))
  }

  /** The type of an event as bytes, when it has an ASCII form. */
  function TypeBytes(c: Codec, k: EventKind): Option<Bytes> {
    if IsAscii(c.typeName(k)) then Some(Ascii(c.typeName(k))) else None
  }

  const EVENT_FIELD: Bytes := Ascii("event")
  const DATA_FIELD: Bytes := Ascii("data")

  // ---- Printing ----------------------------------------------------------

  function Field(name: Bytes, value: Bytes): Bytes {
    name + [COLON, SPACE] + value + [LF]
  }

  function Frame(c: Codec, e: Event): Bytes
    requires IsAscii(c.typeName(e.kind))
  {
    Field(EVENT_FIELD, Ascii(c.typeName(e.kind))) + Field(DATA_FIELD, c.canonical(e)) + [LF]
  }

  function Sse(c: Codec, es: seq<Event>): Bytes
    requires forall i :: 0 <= i < |es| ==> IsAscii(c.typeName(es[i].kind))
  {
    if es == [] then [] else Frame(c, es[0]) + Sse(c, es[1..])
  }

  // ---- Reading -----------------------------------------------------------

  /** How many bytes the next read returns: up to a line feed, the limit or the end. */
  function LineLength(s: Bytes, limit: nat): (n: nat)
    ensures n <= |s| && n <= limit
    ensures n == 0 ==> s == [] || limit == 0
  {
    if s == [] || limit == 0 then 0
    else if s[0] == LF then 1
    else 1 + LineLength(s[1..], limit - 1)
  }

  /** Drops every trailing carriage return and line feed. */
  function Stripped(line: Bytes): Bytes {
    if line != [] && (line[|line| - 1] == LF || line[|line| - 1] == CR) then Stripped(line[..|line| - 1]) else line
  }

  function BeforeColon(line: Bytes): (n: nat)
    ensures n <= |line|
  {
    if line == [] || line[0] == COLON then 0 else 1 + BeforeColon(line[1..])
  }

  function Value(line: Bytes): Bytes
    requires BeforeColon(line) < |line|
  {
    var v := line[BeforeColon(line) + 1..];
    if v != [] && v[0] == SPACE then v[1..] else v
  }

  predicate AllAscii(b: Bytes) { forall i :: 0 <= i < |b| ==> b[i] < 128 }

  function Joined(data: seq<Bytes>): Bytes {
    if data == [] then [] else if |data| == 1 then data[0] else Joined(data[..|data| - 1]) + [LF] + data[|data| - 1]
  }

  /** What the reader has gathered: finished events and the fields of the current one. */
  datatype Reader = Reader(values: seq<Event>, data: seq<Bytes>, declared: Option<Bytes>, size: nat)

  datatype Outcome = Continue(reader: Reader) | Finish(bundle: Bytes, tokens: int) | Refuse

  ghost function Dispatch(c: Codec, q: Request, secret: Bytes, r: Reader): Outcome {
    var raw := Joined(r.data);
    if Contains(raw, secret) || c.loads(raw).None? then Refuse
    else
      var e := c.loads(raw).value;
      var values := r.values + [e];
      if (r.declared.Some? && TypeBytes(c, e.kind) != r.declared) || |values| > MAX_EVENTS
         || e.kind.ErrorReport? || e.kind.Failed? || e.kind.Incomplete? then Refuse
      else if e.kind.Completed? then Close(c, q, secret, values)
      else Continue(r.(values := values, data := [], declared := None))
  }

  ghost function Close(c: Codec, q: Request, secret: Bytes, values: seq<Event>): Outcome {
    var bundle := c.canonicalList(values);
    if Contains(bundle, secret) || !(0 < |bundle| <= MAX_BUNDLE) || c.loadsList(bundle).None?
       || !StreamOk(q, c.loadsList(bundle).value) then Refuse
    else
      var es := c.loadsList(bundle).value;
      Finish(bundle, es[|es| - 1].response.value.usage.value.outputTokens.value)
  }

  ghost function TakeLine(c: Codec, q: Request, secret: Bytes, r: Reader, line: Bytes): Outcome {
    var read := r.(size := r.size + |line|);
    if line == [] || |line| > MAX_LINE || read.size > MAX_STREAM || Contains(line, secret) then Refuse
    else
      var text := Stripped(line);
      if text == [] then
        if r.data == [] then (if r.declared.None? then Continue(read) else Refuse) else Dispatch(c, q, secret, read)
      else if text[0] == COLON then Continue(read)
      else if BeforeColon(text) == |text| then Refuse
      else
        var name, value := text[..BeforeColon(text)], Value(text);
        if name == EVENT_FIELD then
          if r.declared.Some? || !AllAscii(value) then Refuse else Continue(read.(declared := Some(value)))
        else if name == DATA_FIELD then Continue(read.(data := r.data + [value]))
        else Refuse
  }

  /** The meaning of a byte stream: the bundle it delivers, or None when it is refused. */
  ghost function Parse(c: Codec, q: Request, secret: Bytes, r: Reader, s: Bytes): Option<(Bytes, int)>
    decreases |s|
  {
    var n := LineLength(s, MAX_LINE + 1);
    match TakeLine(c, q, secret, r, s[..n])
    case Refuse => None
    case Finish(bundle, tokens) => Some((bundle, tokens))
    case Continue(next) => if n == 0 then None else Parse(c, q, secret, next, s[n..])
  }

  const START: Reader := Reader([], [], None, 0)

  /** Decodes one gathered event, and closes the stream when it is the completion. */
  method DeliverEvent(c: Codec, q: Request, secret: Bytes, r: Reader) returns (outcome: Outcome)
    ensures outcome == Dispatch(c, q, secret, r)
  {
    var raw := Joined(r.data);
    if Contains(raw, secret) || c.loads(raw).None? {
      return Refuse;
    }
    var event := c.loads(raw).value;
    if r.declared.Some? && TypeBytes(c, event.kind) != r.declared {
      return Refuse;
    }
    var values := r.values + [event];
    if |values| > MAX_EVENTS || event.kind.ErrorReport? || event.kind.Failed? || event.kind.Incomplete? {
      return Refuse;
    }
    if !event.kind.Completed? {
      return Continue(r.(values := values, data := [], declared := None));
    }
    var bundle := c.canonicalList(values);
    if Contains(bundle, secret) || !(0 < |bundle| <= MAX_BUNDLE) || c.loadsList(bundle).None? {
      return Refuse;
    }
    var es := c.loadsList(bundle).value;
    var accepted := Events(q, es);
    if !accepted {
      return Refuse;
    }
    return Finish(bundle, es[|es| - 1].response.value.usage.value.outputTokens.value);
  }

  /** One line: a blank one delivers, a comment is skipped, a field is gathered. */
  method ReadLine(c: Codec, q: Request, secret: Bytes, r: Reader, line: Bytes) returns (outcome: Outcome)
    ensures outcome == TakeLine(c, q, secret, r, line)
  {
    hide Dispatch, Stripped, Contains;
    var read := r.(size := r.size + |line|);
    if line == [] || |line| > MAX_LINE || read.size > MAX_STREAM || Contains(line, secret) {
      return Refuse;
    }
    var text := Stripped(line);
    if text == [] {
      if read.data == [] {
        return if read.declared.Some? then Refuse else Continue(read);
      }
      outcome := DeliverEvent(c, q, secret, read);
      return;
    }
    if text[0] == COLON {
      return Continue(read);
    }
    if BeforeColon(text) == |text| {
      return Refuse;
    }
    var name, value := text[..BeforeColon(text)], Value(text);
    if name == EVENT_FIELD {
      if read.declared.Some? || !AllAscii(value) {
        return Refuse;
      }
      return Continue(read.(declared := Some(value)));
    }
    return if name == DATA_FIELD then Continue(read.(data := read.data + [value])) else Refuse;
  }

  lemma ParseStep(c: Codec, q: Request, secret: Bytes, r: Reader, s: Bytes)
    ensures var n := LineLength(s, MAX_LINE + 1);
      n == 0 ==> TakeLine(c, q, secret, r, s[..n]).Refuse?
  {
    hide Dispatch;
  }

  /** Reads a response stream to its completion. */
  method ReadStream(c: Codec, q: Request, secret: Bytes, stream: Bytes) returns (result: Option<(Bytes, int)>)
    ensures result == Parse(c, q, secret, START, stream)
  {
    hide TakeLine, Dispatch;
    var values: seq<Event>, data: seq<Bytes>, declared: Option<Bytes>, size: nat := [], [], None, 0;
    var rest := stream;
    while true
      invariant Parse(c, q, secret, START, stream) == Parse(c, q, secret, Reader(values, data, declared, size), rest)
      decreases |rest|
    {
      var n := LineLength(rest, MAX_LINE + 1);
      ParseStep(c, q, secret, Reader(values, data, declared, size), rest);
      var outcome := ReadLine(c, q, secret, Reader(values, data, declared, size), rest[..n]);
      match outcome {
        case Refuse => return None;
        case Finish(bundle, tokens) => return Some((bundle, tokens));
        case Continue(next) => values, data, declared, size := next.values, next.data, next.declared, next.size;
      }
      rest := rest[n..];
    }
  }

  // ---- Round trip --------------------------------------------------------

  lemma {:induction false} LineEndsAtFeed(x: Bytes, rest: Bytes, limit: nat)
    requires LF !in x && |x| < limit
    ensures LineLength(x + [LF] + rest, limit) == |x| + 1
  {
    var s := x + [LF] + rest;
    if x != [] {
      assert s[1..] == x[1..] + [LF] + rest;
      LineEndsAtFeed(x[1..], rest, limit - 1);
    }
  }

  lemma StripsOneFeed(x: Bytes)
    requires x == [] || (x[|x| - 1] != LF && x[|x| - 1] != CR)
    ensures Stripped(x + [LF]) == x
  {
    assert (x + [LF])[..|x|] == x;
  }

  lemma {:induction false} ColonAfterName(name: Bytes, rest: Bytes)
    requires COLON !in name
    ensures BeforeColon(name + [COLON] + rest) == |name|
  {
    var s := name + [COLON] + rest;
    if name != [] {
      assert s[1..] == name[1..] + [COLON] + rest;
      ColonAfterName(name[1..], rest);
    }
  }

  /** A printed field is read back as its name and value. */
  lemma FieldReadsBack(name: Bytes, value: Bytes, rest: Bytes)
    requires name != [] && COLON !in name && LF !in name
    requires value != [] && LF !in value && CR !in value
    requires |Field(name, value)| <= MAX_LINE
    ensures LineLength(Field(name, value) + rest, MAX_LINE + 1) == |Field(name, value)|
    ensures var text := Stripped(Field(name, value));
            text == name + [COLON, SPACE] + value && BeforeColon(text) == |name| && text[..|name|] == name && Value(text) == value
  {
    var x := name + [COLON, SPACE] + value;
    assert Field(name, value) == x + [LF];
    LineEndsAtFeed(x, rest, MAX_LINE + 1);
    assert x[|x| - 1] == value[|value| - 1];
    StripsOneFeed(x);
    assert x == name + [COLON] + ([SPACE] + value);
    ColonAfterName(name, [SPACE] + value);
    assert x[|name| + 1..] == [SPACE] + value;
  }

  lemma PlainName(c: Codec, k: EventKind)
    requires Faithful(c) && Allowed(k)
    ensures IsAscii(c.typeName(k))
    ensures var b := Ascii(c.typeName(k)); b != [] && LF !in b && CR !in b && AllAscii(b)
  {
    var s := c.typeName(k);
    assert Printable(s);
    assert forall i :: 0 <= i < |s| ==> 32 < Ascii(s)[i] <= 126;
  }

  lemma EventLine(c: Codec, q: Request, secret: Bytes, r: Reader, value: Bytes, rest: Bytes)
    requires value != [] && LF !in value && CR !in value && AllAscii(value) && r.declared.None?
    requires |Field(EVENT_FIELD, value)| <= MAX_LINE && r.size + |Field(EVENT_FIELD, value)| <= MAX_STREAM
    requires !Contains(Field(EVENT_FIELD, value), secret)
    ensures Parse(c, q, secret, r, Field(EVENT_FIELD, value) + rest) ==
            Parse(c, q, secret, r.(declared := Some(value), size := r.size + |Field(EVENT_FIELD, value)|), rest)
  {
    hide Dispatch, Stripped, BeforeColon, LineLength, Value, Contains;
    var line, s := Field(EVENT_FIELD, value), Field(EVENT_FIELD, value) + rest;
    FieldReadsBack(EVENT_FIELD, value, rest);
    assert s[..|line|] == line && s[|line|..] == rest;
  }

  lemma DataLine(c: Codec, q: Request, secret: Bytes, r: Reader, value: Bytes, rest: Bytes)
    requires value != [] && LF !in value && CR !in value
    requires |Field(DATA_FIELD, value)| <= MAX_LINE && r.size + |Field(DATA_FIELD, value)| <= MAX_STREAM
    requires !Contains(Field(DATA_FIELD, value), secret)
    ensures Parse(c, q, secret, r, Field(DATA_FIELD, value) + rest) ==
            Parse(c, q, secret, r.(data := r.data + [value], size := r.size + |Field(DATA_FIELD, value)|), rest)
  {
    hide Dispatch, Stripped, BeforeColon, LineLength, Value, Contains;
    var line, s := Field(DATA_FIELD, value), Field(DATA_FIELD, value) + rest;
    FieldReadsBack(DATA_FIELD, value, rest);
    assert s[..|line|] == line && s[|line|..] == rest;
  }

  ghost function Resume(c: Codec, q: Request, secret: Bytes, o: Outcome, rest: Bytes): Option<(Bytes, int)> {
    match o
    case Refuse => None
    case Finish(bundle, tokens) => Some((bundle, tokens))
    case Continue(next) => Parse(c, q, secret, next, rest)
  }

  lemma BlankLine(c: Codec, q: Request, secret: Bytes, r: Reader, rest: Bytes)
    requires r.data != [] && r.size + 1 <= MAX_STREAM && !Contains([LF], secret)
    ensures Parse(c, q, secret, r, [LF] + rest) == Resume(c, q, secret, Dispatch(c, q, secret, r.(size := r.size + 1)), rest)
  {
    var s := [LF] + rest;
    assert LineLength(s, MAX_LINE + 1) == 1;
    assert s[..1] == [LF] && s[1..] == rest;
    StripsOneFeed([]);
    assert [] + [LF] == [LF];
  }

  lemma FramePieces(c: Codec, e: Event, secret: Bytes)
    requires IsAscii(c.typeName(e.kind)) && !Contains(Frame(c, e), secret)
    ensures !Contains(Field(EVENT_FIELD, Ascii(c.typeName(e.kind))), secret)
    ensures !Contains(Field(DATA_FIELD, c.canonical(e)), secret)
    ensures !Contains([LF], secret)
  {
    var one, two := Field(EVENT_FIELD, Ascii(c.typeName(e.kind))), Field(DATA_FIELD, c.canonical(e));
    assert Frame(c, e) == [] + one + (two + [LF]) == one + two + [LF] == (one + two) + [LF] + [];
    PieceLacks([], one, two + [LF], secret);
    PieceLacks(one, two, [LF], secret);
    PieceLacks(one + two, [LF], [], secret);
  }

  lemma FrameThen(c: Codec, e: Event, rest: Bytes)
    requires IsAscii(c.typeName(e.kind))
    ensures Frame(c, e) + rest ==
            Field(EVENT_FIELD, Ascii(c.typeName(e.kind))) + (Field(DATA_FIELD, c.canonical(e)) + ([LF] + rest))
  {
    var one, two := Field(EVENT_FIELD, Ascii(c.typeName(e.kind))), Field(DATA_FIELD, c.canonical(e));
    assert one + two + [LF] + rest == one + (two + ([LF] + rest));
  }

  /** One printed event is read back as exactly that event. */
  lemma FrameReadsBack(c: Codec, q: Request, secret: Bytes, values: seq<Event>, size: nat, e: Event, rest: Bytes)
    requires Faithful(c) && Allowed(e.kind) && IsAscii(c.typeName(e.kind))
    requires |Field(EVENT_FIELD, Ascii(c.typeName(e.kind)))| <= MAX_LINE && |Field(DATA_FIELD, c.canonical(e))| <= MAX_LINE
    requires size + |Frame(c, e)| <= MAX_STREAM && !Contains(Frame(c, e), secret)
    ensures Parse(c, q, secret, Reader(values, [], None, size), Frame(c, e) + rest) ==
            Resume(c, q, secret,
                   Dispatch(c, q, secret, Reader(values, [c.canonical(e)], Some(Ascii(c.typeName(e.kind))), size + |Frame(c, e)|)), rest)
  {
    hide Parse, TakeLine, Dispatch;
    PlainName(c, e.kind);
    var name, json := Ascii(c.typeName(e.kind)), c.canonical(e);
    var one, two := |Field(EVENT_FIELD, name)|, |Field(DATA_FIELD, json)|;
    FramePieces(c, e, secret);
    FrameThen(c, e, rest);
    EventLine(c, q, secret, Reader(values, [], None, size), name, Field(DATA_FIELD, json) + ([LF] + rest));
    DataLine(c, q, secret, Reader(values, [], Some(name), size + one), json, [LF] + rest);
    BlankLine(c, q, secret, Reader(values, [json], Some(name), size + one + two), rest);
    assert [] + [json] == [json] && |Frame(c, e)| == one + two + 1;
  }

  /** Delivering a printed event either closes the stream or adds the event. */
  lemma PrintedEventDelivers(c: Codec, q: Request, secret: Bytes, es: seq<Event>, k: nat, size: nat)
    requires Faithful(c) && StreamOk(q, es) && k < |es|
    requires IsAscii(c.typeName(es[k].kind)) && !Contains(c.canonical(es[k]), secret)
    requires !Contains(c.canonicalList(es), secret) && 0 < |c.canonicalList(es)| <= MAX_BUNDLE
    ensures Dispatch(c, q, secret, Reader(es[..k], [c.canonical(es[k])], Some(Ascii(c.typeName(es[k].kind))), size)) ==
            if k == |es| - 1
            then Finish(c.canonicalList(es), es[|es| - 1].response.value.usage.value.outputTokens.value)
            else Continue(Reader(es[..k + 1], [], None, size))
  {
    assert EventOk(q, StreamId(es), |es|, es[..k], es[k]);
    assert es[..k] + [es[k]] == es[..k + 1];
    assert Joined([c.canonical(es[k])]) == c.canonical(es[k]);
    if k == |es| - 1 {
      assert es[..k + 1] == es;
    }
  }

  /** The bounds within which a stream may be printed and read back. */
  ghost predicate Fits(c: Codec, secret: Bytes, es: seq<Event>)
    requires forall i :: 0 <= i < |es| ==> IsAscii(c.typeName(es[i].kind))
  {
    && (forall i :: 0 <= i < |es| ==>
          |Field(EVENT_FIELD, Ascii(c.typeName(es[i].kind)))| <= MAX_LINE && |Field(DATA_FIELD, c.canonical(es[i]))| <= MAX_LINE)
    && |Sse(c, es)| <= MAX_STREAM && !Contains(Sse(c, es), secret)
    && 0 < |c.canonicalList(es)| <= MAX_BUNDLE && !Contains(c.canonicalList(es), secret)
  }

  lemma AllNamed(c: Codec, q: Request, es: seq<Event>)
    requires Faithful(c) && StreamOk(q, es)
    ensures forall i :: 0 <= i < |es| ==> Allowed(es[i].kind) && IsAscii(c.typeName(es[i].kind))
  {
    forall i | 0 <= i < |es| ensures Allowed(es[i].kind) && IsAscii(c.typeName(es[i].kind)) {
      assert EventOk(q, StreamId(es), |es|, es[..i], es[i]);
      PlainName(c, es[i].kind);
    }
  }

  lemma SseSplit(c: Codec, es: seq<Event>, k: nat)
    requires k < |es| && forall i :: 0 <= i < |es| ==> IsAscii(c.typeName(es[i].kind))
    ensures Sse(c, es[k..]) == Frame(c, es[k]) + Sse(c, es[k + 1..])
  {
    assert es[k..][1..] == es[k + 1..];
  }

  lemma {:induction false} TailReadsBack(c: Codec, q: Request, secret: Bytes, es: seq<Event>, k: nat, size: nat, tail: Bytes)
    requires Faithful(c) && StreamOk(q, es) && k < |es|
    requires forall i :: 0 <= i < |es| ==> Allowed(es[i].kind) && IsAscii(c.typeName(es[i].kind))
    requires Fits(c, secret, es)
    requires size + |Sse(c, es[k..])| <= MAX_STREAM && !Contains(Sse(c, es[k..]), secret)
    ensures Parse(c, q, secret, Reader(es[..k], [], None, size), Sse(c, es[k..]) + tail) ==
            Some((c.canonicalList(es), es[|es| - 1].response.value.usage.value.outputTokens.value))
    decreases |es| - k
  {
    hide Parse, TakeLine, Dispatch, Contains, Frame, StreamOk, Sse;
    var e, later := es[k], Sse(c, es[k + 1..]);
    SseSplit(c, es, k);
    PiecesLack(Frame(c, e), later, secret);
    assert Sse(c, es[k..]) + tail == Frame(c, e) + (later + tail);
    FrameReadsBack(c, q, secret, es[..k], size, e, later + tail);
    PieceOfStream(c, secret, es, k);
    PrintedEventDelivers(c, q, secret, es, k, size + |Frame(c, e)|);
    if k < |es| - 1 {
      TailReadsBack(c, q, secret, es, k + 1, size + |Frame(c, e)|, tail);
    }
  }

  lemma PiecesLack(a: Bytes, b: Bytes, secret: Bytes)
    requires !Contains(a + b, secret)
    ensures !Contains(a, secret) && !Contains(b, secret)
  {
    hide Contains;
    assert a + b == [] + a + b == a + b + [];
    PieceLacks([], a, b, secret);
    PieceLacks(a, b, [], secret);
  }

  lemma PieceOfStream(c: Codec, secret: Bytes, es: seq<Event>, k: nat)
    requires k < |es| && forall i :: 0 <= i < |es| ==> IsAscii(c.typeName(es[i].kind))
    requires !Contains(Sse(c, es[k..]), secret)
    ensures !Contains(c.canonical(es[k]), secret)
  {
    var e, later := es[k], Sse(c, es[k + 1..]);
    var before := Field(EVENT_FIELD, Ascii(c.typeName(e.kind))) + DATA_FIELD + [COLON, SPACE];
    SseSplit(c, es, k);
    assert Sse(c, es[k..]) == before + c.canonical(e) + ([LF] + [LF] + later);
    PieceLacks(before, c.canonical(e), [LF] + [LF] + later, secret);
  }

  /** Printing an accepted stream and reading it back returns exactly its canonical
      bundle and its reported output tokens, whatever follows it on the wire. */
  lemma RoundTrip(c: Codec, q: Request, secret: Bytes, es: seq<Event>, tail: Bytes)
    requires Faithful(c) && StreamOk(q, es)
    requires forall i :: 0 <= i < |es| ==> IsAscii(c.typeName(es[i].kind))
    requires Fits(c, secret, es)
    ensures Parse(c, q, secret, START, Sse(c, es) + tail) ==
            Some((c.canonicalList(es), es[|es| - 1].response.value.usage.value.outputTokens.value))
  {
    AllNamed(c, q, es);
    assert es[0..] == es && es[..0] == [];
    TailReadsBack(c, q, secret, es, 0, 0, tail);
  }

  /** Whatever bytes arrive, a delivered bundle is an accepted stream free of the secret. */
  lemma {:induction false} DeliveredIsAccepted(c: Codec, q: Request, secret: Bytes, r: Reader, s: Bytes)
    requires Parse(c, q, secret, r, s).Some?
    ensures var (bundle, tokens) := Parse(c, q, secret, r, s).value;
            && c.loadsList(bundle).Some? && StreamOk(q, c.loadsList(bundle).value)
            && !Contains(bundle, secret) && 0 < |bundle| <= MAX_BUNDLE && 0 <= tokens <= q.outputLimit
    decreases |s|
  {
    var n := LineLength(s, MAX_LINE + 1);
    var o := TakeLine(c, q, secret, r, s[..n]);
    if o.Continue? {
      DeliveredIsAccepted(c, q, secret, o.reader, s[n..]);
    }
  }
}
