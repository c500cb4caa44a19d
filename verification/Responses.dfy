/** Validation of a complete Responses event stream. */
module Responses {
  import opened Common

  const MAX_EVENTS: nat := 1024
  const MAX_IDENTITY: nat := 128

  /** A JSON member as the validator sees it: missing (or null where the program
      reads it with a default), of another JSON type, or of the expected type.
      `raw` tells two values of the wrong type apart. */
  datatype Field<+T> = Absent | Wrong(raw: int) | Is(value: T)

  datatype Part = Part(kind: Field<string>, text: Field<string>)

  /** An output item; `rest` stands for every member the validator does not read. */
  datatype Item = Item(
    kind: Field<string>, id: Field<string>, name: Field<string>, space: Field<string>, callId: Field<string>,
    role: Field<string>, content: Field<seq<Part>>, summary: Field<int>, encrypted: Field<string>,
    arguments: Field<string>, input: Field<string>, rest: int)

  datatype Usage = Usage(inputTokens: Field<int>, outputTokens: Field<int>, totalTokens: Field<int>)

  datatype Response = Response(
    id: Field<string>, status: Field<string>, model: Field<string>, output: Field<seq<Item>>, usage: Field<Usage>)

  datatype EventKind =
    | Created | InProgress | Completed | ItemAdded | ItemDone | TextDelta | TextDone
    | ArgumentsDelta | ArgumentsDone | InputDelta | InputDone
    | PartAdded | PartDone | SummaryPartAdded | SummaryPartDone | SummaryTextDelta | SummaryTextDone
    | Failed | Incomplete | ErrorReport | Unsupported(name: string)

  datatype Event = Event(
    kind: EventKind, sequenceNumber: Field<int>, responseId: Field<string>, itemId: Field<string>,
    contentIndex: Field<int>, delta: Field<string>, text: Field<string>, arguments: Field<string>,
    input: Field<string>, item: Field<Item>, response: Field<Response>, rest: int)

  datatype ToolKind = FunctionTool | CustomTool

  type ToolKey = (Option<string>, string)
  type Tools = map<ToolKey, ToolKind>

  /** What the request fixes about an acceptable stream. */
  datatype Request = Request(tools: Tools, toolsAllowed: bool, model: string, outputLimit: int)

  type TextKey = (string, int)
  datatype ArgField = ArgumentsField | InputField
  type ArgKey = (string, ArgField)

  datatype Identity = Identity(kind: Field<string>, name: Field<string>, space: Field<string>, callId: Field<string>, role: Field<string>)

  function IdentityOf(i: Item): Identity {
    Identity(i.kind, i.name, i.space, i.callId, i.role)
  }

  // ---- Shape of a single event -------------------------------------------

  predicate Allowed(k: EventKind) {
    !k.Failed? && !k.Incomplete? && !k.ErrorReport? && !k.Unsupported?
  }

  predicate IsText(k: EventKind) { k.TextDelta? || k.TextDone? }

  predicate IsArgs(k: EventKind) { k.ArgumentsDelta? || k.ArgumentsDone? || k.InputDelta? || k.InputDone? }

  predicate IsArgsDelta(k: EventKind) { k.ArgumentsDelta? || k.InputDelta? }

  predicate IsItem(k: EventKind) { k.ItemAdded? || k.ItemDone? }

  function TextValue(e: Event): Field<string> { if e.kind.TextDelta? then e.delta else e.text }

  function IndexOf(e: Event): Field<int> { if e.contentIndex.Absent? then Is(0) else e.contentIndex }

  predicate TextShape(e: Event) {
    TextValue(e).Is? && e.itemId.Is? && IndexOf(e).Is? && IndexOf(e).value >= 0
  }

  function TextKeyOf(e: Event): TextKey
    requires TextShape(e)
  {
    (e.itemId.value, IndexOf(e).value)
  }

  function ArgFieldOf(k: EventKind): ArgField {
    if k.ArgumentsDelta? || k.ArgumentsDone? then ArgumentsField else InputField
  }

  function ArgValue(e: Event): Field<string> {
    if IsArgsDelta(e.kind) then e.delta else if e.kind.ArgumentsDone? then e.arguments else e.input
  }

  predicate ArgShape(e: Event) {
    e.itemId.Is? && ArgValue(e).Is?
  }

  function ArgKeyOf(e: Event): ArgKey
    requires ArgShape(e)
  {
    (e.itemId.value, ArgFieldOf(e.kind))
  }

  predicate PartsOk(parts: seq<Part>, kinds: set<string>) {
    forall i :: 0 <= i < |parts| ==> parts[i].kind.Is? && parts[i].kind.value in kinds && parts[i].text.Is?
  }

  predicate IsCall(i: Item) {
    i.kind == Is("function_call") || i.kind == Is("custom_tool_call")
  }

  predicate ItemShape(i: Item) {
    && i.id.Is?
    && (i.kind == Is("message") || i.kind == Is("reasoning") || IsCall(i))
    && (i.kind == Is("message") ==>
          && i.role.Is? && i.role.value in {"system", "developer", "user", "assistant"}
          && i.content.Is? && PartsOk(i.content.value, {"input_text", "output_text"}))
    && (i.kind == Is("reasoning") ==> i.summary.Is? && !i.encrypted.Wrong?)
    && (IsCall(i) ==>
          && i.callId.Is? && i.name.Is? && !i.space.Wrong?
          && (if i.kind == Is("function_call") then i.arguments.Is? else i.input.Is?))
  }

  function ToolKeyOf(i: Item): ToolKey
    requires i.name.Is?
  {
    (if i.space.Is? then Some(i.space.value) else None, i.name.value)
  }

  /** The call names a tool the request declared, of the kind it was declared with. */
  predicate Declared(q: Request, i: Item)
    requires IsCall(i) && i.name.Is?
  {
    && q.toolsAllowed
    && ToolKeyOf(i) in q.tools
    && q.tools[ToolKeyOf(i)] == if i.kind == Is("function_call") then FunctionTool else CustomTool
  }

  predicate FinishedMessage(i: Item) {
    i.role == Is("assistant") && i.content.Is? && PartsOk(i.content.value, {"output_text"})
  }

  // ---- What a stream has said so far, key by key -------------------------

  predicate TextFor(e: Event, key: TextKey) {
    IsText(e.kind) && TextShape(e) && TextKeyOf(e) == key
  }

  predicate ArgFor(e: Event, key: ArgKey) {
    IsArgs(e.kind) && ArgShape(e) && ArgKeyOf(e) == key
  }

  function OrEmpty(s: Option<string>): string { if s.Some? then s.value else "" }

  /** The text of one content part after a prefix of the stream. */
  function TextOf(es: seq<Event>, key: TextKey): Option<string> {
    if es == [] then None
    else
      var before, e := TextOf(es[..|es| - 1], key), es[|es| - 1];
      if !TextFor(e, key) then before
      else if e.kind.TextDelta? then Some(OrEmpty(before) + e.delta.value)
      else Some(e.text.value)
  }

  function ArgOf(es: seq<Event>, key: ArgKey): Option<string> {
    if es == [] then None
    else
      var before, e := ArgOf(es[..|es| - 1], key), es[|es| - 1];
      if !ArgFor(e, key) then before
      else if IsArgsDelta(e.kind) then Some(OrEmpty(before) + e.delta.value)
      else Some(ArgValue(e).value)
  }

  function AddedAs(es: seq<Event>, id: string): Option<Identity> {
    if es == [] then None
    else
      var e := es[|es| - 1];
      if e.kind.ItemAdded? && e.item.Is? && e.item.value.id == Is(id) then Some(IdentityOf(e.item.value))
      else AddedAs(es[..|es| - 1], id)
  }

  function DoneItems(es: seq<Event>): seq<Item> {
    if es == [] then []
    else
      var before, e := DoneItems(es[..|es| - 1]), es[|es| - 1];
      if e.kind.ItemDone? && e.item.Is? then before + [e.item.value] else before
  }

  predicate HasId(items: seq<Item>, id: string) {
    exists i :: 0 <= i < |items| && items[i].id == Is(id)
  }

  predicate HasCall(items: seq<Item>, callId: string) {
    exists i :: 0 <= i < |items| && IsCall(items[i]) && items[i].callId == Is(callId)
  }

  function FinalText(items: seq<Item>, key: TextKey): Option<string> {
    if items == [] then None
    else
      var i := items[|items| - 1];
      if i.kind == Is("message") && i.id == Is(key.0) && i.content.Is? && 0 <= key.1 < |i.content.value|
         && i.content.value[key.1].text.Is?
      then Some(i.content.value[key.1].text.value)
      else FinalText(items[..|items| - 1], key)
  }

  function FinalArg(items: seq<Item>, key: ArgKey): Field<string> {
    if items == [] then Absent
    else
      var i := items[|items| - 1];
      var f := if key.1.ArgumentsField? then i.arguments else i.input;
      if i.id == Is(key.0) && !f.Absent? then f else FinalArg(items[..|items| - 1], key)
  }

  // ---- An acceptable stream ----------------------------------------------

  predicate AgreesWith(sofar: Option<string>, s: string) {
    sofar.None? || sofar.value == s
  }

  predicate TextEventOk(before: seq<Event>, e: Event) {
    TextShape(e) && (e.kind.TextDone? ==> AgreesWith(TextOf(before, TextKeyOf(e)), e.text.value))
  }

  predicate ArgEventOk(before: seq<Event>, e: Event) {
    ArgShape(e) && (!IsArgsDelta(e.kind) ==> AgreesWith(ArgOf(before, ArgKeyOf(e)), ArgValue(e).value))
  }

  predicate PartsAgree(before: seq<Event>, i: Item)
    requires i.id.Is? && i.content.Is? && PartsOk(i.content.value, {"output_text"})
  {
    forall n :: 0 <= n < |i.content.value| ==> AgreesWith(TextOf(before, (i.id.value, n)), i.content.value[n].text.value)
  }

  predicate ItemEventOk(q: Request, before: seq<Event>, e: Event) {
    && e.item.Is?
    && var i := e.item.value;
    && ItemShape(i)
    && !HasId(DoneItems(before), i.id.value)
    && (IsCall(i) ==> Declared(q, i))
    && if e.kind.ItemAdded? then AddedAs(before, i.id.value).None?
       else
         && (AddedAs(before, i.id.value).None? || AddedAs(before, i.id.value).value == IdentityOf(i))
         && (i.kind == Is("message") ==> FinishedMessage(i) && PartsAgree(before, i))
         && (IsCall(i) ==> !HasCall(DoneItems(before), i.callId.value))
  }

  predicate EnvelopeOk(rid: string, position: nat, length: nat, e: Event) {
    && Allowed(e.kind)
    && (e.sequenceNumber.Absent? || e.sequenceNumber == Is(position))
    && (e.kind.Created? ==> position == 0)
    && (e.kind.InProgress? ==> e.response.Is? && e.response.value.id == Is(rid) && e.response.value.status == Is("in_progress"))
    && (e.kind.Completed? ==> position == length - 1)
    && (e.responseId.Absent? || e.responseId == Is(rid))
  }

  predicate EventOk(q: Request, rid: string, length: nat, before: seq<Event>, e: Event) {
    && EnvelopeOk(rid, |before|, length, e)
    && (IsText(e.kind) ==> TextEventOk(before, e))
    && (IsArgs(e.kind) ==> ArgEventOk(before, e))
    && (IsItem(e.kind) ==> ItemEventOk(q, before, e))
  }

  predicate HeaderOk(es: seq<Event>) {
    && 2 <= |es| <= MAX_EVENTS
    && es[0].kind.Created? && es[|es| - 1].kind.Completed?
    && es[0].response.Is? && es[0].response.value.id.Is? && 0 < |es[0].response.value.id.value| <= MAX_IDENTITY
  }

  function StreamId(es: seq<Event>): string
    requires HeaderOk(es)
  {
    es[0].response.value.id.value
  }

  predicate UsageOk(u: Field<Usage>, limit: int) {
    && u.Is?
    && u.value.inputTokens.Is? && u.value.outputTokens.Is? && u.value.totalTokens.Is?
    && 0 <= u.value.inputTokens.value && 0 <= u.value.outputTokens.value <= limit
    && u.value.totalTokens.value == u.value.inputTokens.value + u.value.outputTokens.value
  }

  predicate TerminalOk(q: Request, rid: string, done: seq<Item>, last: Event) {
    && last.response.Is?
    && last.response.value.id == Is(rid) && last.response.value.model == Is(q.model)
    && last.response.value.status == Is("completed")
    && last.response.value.output == Is(done) && done != []
    && UsageOk(last.response.value.usage, q.outputLimit)
  }

  /** Everything streamed piecemeal ended up in a finished item. */
  ghost predicate NothingDangling(es: seq<Event>) {
    && (forall key :: TextOf(es, key).Some? ==> HasId(DoneItems(es), key.0) && FinalText(DoneItems(es), key) == TextOf(es, key))
    && (forall key :: ArgOf(es, key).Some? ==> FinalArg(DoneItems(es), key) == Is(ArgOf(es, key).value))
    && (forall id :: AddedAs(es, id).Some? ==> HasId(DoneItems(es), id))
  }

  ghost predicate StreamOk(q: Request, es: seq<Event>) {
    && HeaderOk(es)
    && (forall k :: 0 <= k < |es| ==> EventOk(q, StreamId(es), |es|, es[..k], es[k]))
    && TerminalOk(q, StreamId(es), DoneItems(es), es[|es| - 1])
    && NothingDangling(es)
  }

  // ---- The validator -----------------------------------------------------

  ghost predicate TextState(es: seq<Event>, text: map<TextKey, string>) {
    forall key :: if key in text then TextOf(es, key) == Some(text[key]) else TextOf(es, key).None?
  }

  ghost predicate ArgState(es: seq<Event>, arguments: map<ArgKey, string>) {
    forall key :: if key in arguments then ArgOf(es, key) == Some(arguments[key]) else ArgOf(es, key).None?
  }

  ghost predicate ItemState(es: seq<Event>, done: seq<Item>, ids: set<string>, calls: set<string>, added: map<string, Identity>) {
    && done == DoneItems(es)
    && (forall id :: id in ids <==> HasId(done, id))
    && (forall c :: c in calls <==> HasCall(done, c))
    && (forall id :: if id in added then AddedAs(es, id) == Some(added[id]) else AddedAs(es, id).None?)
  }

  lemma Snoc(es: seq<Event>, e: Event)
    ensures (es + [e])[..|es + [e]| - 1] == es
  {
  }

  method TakeText(ghost before: seq<Event>, e: Event, text: map<TextKey, string>)
    returns (ok: bool, text': map<TextKey, string>)
    requires TextState(before, text)
    ensures ok <==> (IsText(e.kind) ==> TextEventOk(before, e))
    ensures ok ==> TextState(before + [e], text')
  {
    Snoc(before, e);
    if !IsText(e.kind) {
      return true, text;
    }
    if !TextShape(e) {
      return false, text;
    }
    var key := TextKeyOf(e);
    if e.kind.TextDone? {
      if key in text && text[key] != e.text.value {
        return false, text;
      }
      return true, text[key := e.text.value];
    }
    return true, text[key := (if key in text then text[key] else "") + e.delta.value];
  }

  method TakeArguments(ghost before: seq<Event>, e: Event, arguments: map<ArgKey, string>)
    returns (ok: bool, arguments': map<ArgKey, string>)
    requires ArgState(before, arguments)
    ensures ok <==> (IsArgs(e.kind) ==> ArgEventOk(before, e))
    ensures ok ==> ArgState(before + [e], arguments')
  {
    Snoc(before, e);
    if !IsArgs(e.kind) {
      return true, arguments;
    }
    if !ArgShape(e) {
      return false, arguments;
    }
    var key, value := ArgKeyOf(e), ArgValue(e).value;
    if IsArgsDelta(e.kind) {
      return true, arguments[key := (if key in arguments then arguments[key] else "") + value];
    }
    if key in arguments && arguments[key] != value {
      return false, arguments;
    }
    return true, arguments[key := value];
  }

  method PartsMatch(ghost before: seq<Event>, text: map<TextKey, string>, i: Item) returns (ok: bool)
    requires TextState(before, text)
    requires i.id.Is? && i.content.Is? && PartsOk(i.content.value, {"output_text"})
    ensures ok <==> PartsAgree(before, i)
  {
    for n := 0 to |i.content.value|
      invariant forall j :: 0 <= j < n ==> AgreesWith(TextOf(before, (i.id.value, j)), i.content.value[j].text.value)
    {
      var key := (i.id.value, n);
      if key in text && text[key] != i.content.value[n].text.value {
        return false;
      }
    }
    return true;
  }

  method TakeItem(ghost before: seq<Event>, q: Request, e: Event, text: map<TextKey, string>,
                  done: seq<Item>, ids: set<string>, calls: set<string>, added: map<string, Identity>)
    returns (ok: bool, done': seq<Item>, ids': set<string>, calls': set<string>, added': map<string, Identity>)
    requires TextState(before, text) && ItemState(before, done, ids, calls, added)
    ensures ok <==> (IsItem(e.kind) ==> ItemEventOk(q, before, e))
    ensures ok ==> ItemState(before + [e], done', ids', calls', added')
  {
    Snoc(before, e);
    done', ids', calls', added' := done, ids, calls, added;
    if !IsItem(e.kind) {
      return true, done', ids', calls', added';
    }
    if !e.item.Is? || !ItemShape(e.item.value) || e.item.value.id.value in ids {
      return false, done', ids', calls', added';
    }
    var i := e.item.value;
    var id := i.id.value;
    if IsCall(i) && !Declared(q, i) {
      return false, done', ids', calls', added';
    }
    if e.kind.ItemAdded? {
      return id !in added, done', ids', calls', added'[id := IdentityOf(i)];
    }
    if id in added && added[id] != IdentityOf(i) {
      return false, done', ids', calls', added';
    }
    if i.kind == Is("message") {
      if !FinishedMessage(i) {
        return false, done', ids', calls', added';
      }
      var match' := PartsMatch(before, text, i);
      if !match' {
        return false, done', ids', calls', added';
      }
    }
    if IsCall(i) {
      if i.callId.value in calls {
        return false, done', ids', calls', added';
      }
      calls' := calls' + {i.callId.value};
    }
    ids' := ids' + {id};
    done' := done' + [i];
    ItemAppended(done, i);
    return true, done', ids', calls', added';
  }

  lemma ItemAppended(done: seq<Item>, i: Item)
    ensures forall id :: HasId(done + [i], id) <==> HasId(done, id) || i.id == Is(id)
    ensures forall c :: HasCall(done + [i], c) <==> HasCall(done, c) || (IsCall(i) && i.callId == Is(c))
  {
    forall id ensures HasId(done + [i], id) <==> HasId(done, id) || i.id == Is(id) {
      if HasId(done, id) {
        var k :| 0 <= k < |done| && done[k].id == Is(id);
        assert (done + [i])[k].id == Is(id);
      }
      assert (done + [i])[|done|] == i;
    }
    forall c ensures HasCall(done + [i], c) <==> HasCall(done, c) || (IsCall(i) && i.callId == Is(c)) {
      if HasCall(done, c) {
        var k :| 0 <= k < |done| && IsCall(done[k]) && done[k].callId == Is(c);
        assert IsCall((done + [i])[k]);
      }
      assert (done + [i])[|done|] == i;
    }
  }

  /** Accepts a stream exactly when it is well formed, in one pass over its events. */
  method Events(q: Request, es: seq<Event>) returns (ok: bool)
    ensures ok <==> StreamOk(q, es)
  {
    if !HeaderOk(es) {
      return false;
    }
    var text: map<TextKey, string>, arguments: map<ArgKey, string>, added: map<string, Identity> := map[], map[], map[];
    var done: seq<Item>, ids: set<string>, calls: set<string> := [], {}, {};
    var rid := StreamId(es);
    for k := 0 to |es|
      invariant forall j :: 0 <= j < k ==> EventOk(q, rid, |es|, es[..j], es[j])
      invariant TextState(es[..k], text) && ArgState(es[..k], arguments)
      invariant ItemState(es[..k], done, ids, calls, added)
    {
      var e := es[k];
      assert es[..k + 1] == es[..k] + [e];
      if !EnvelopeOk(rid, k, |es|, e) {
        return false;
      }
      var textOk, argumentsOk, itemOk;
      itemOk, done, ids, calls, added := TakeItem(es[..k], q, e, text, done, ids, calls, added);
      textOk, text := TakeText(es[..k], e, text);
      argumentsOk, arguments := TakeArguments(es[..k], e, arguments);
      if !textOk || !argumentsOk || !itemOk {
        return false;
      }
    }
    assert es[..|es|] == es;
    if !TerminalOk(q, rid, done, es[|es| - 1]) {
      return false;
    }
    ok := (forall key | key in text :: key.0 in ids && FinalText(done, key) == Some(text[key]))
          && (forall id | id in added :: id in ids)
          && (forall key | key in arguments :: FinalArg(done, key) == Is(arguments[key]));
    DanglingByState(es, text, arguments, done, ids, calls, added, ok);
  }

  lemma DanglingByState(es: seq<Event>, text: map<TextKey, string>, arguments: map<ArgKey, string>,
                        done: seq<Item>, ids: set<string>, calls: set<string>, added: map<string, Identity>, ok: bool)
    requires TextState(es, text) && ArgState(es, arguments) && ItemState(es, done, ids, calls, added)
    requires ok == (&& (forall key :: key in text ==> key.0 in ids && FinalText(done, key) == Some(text[key]))
                    && (forall id :: id in added ==> id in ids)
                    && (forall key :: key in arguments ==> FinalArg(done, key) == Is(arguments[key])))
    ensures ok <==> NothingDangling(es)
  {
  }

  // ---- What acceptance guarantees ----------------------------------------

  /** All deltas of one text part, joined in stream order. */
  function TextDeltas(es: seq<Event>, key: TextKey): string {
    if es == [] then ""
    else
      var before, e := TextDeltas(es[..|es| - 1], key), es[|es| - 1];
      if TextFor(e, key) && e.kind.TextDelta? then before + e.delta.value else before
  }

  /** What the first event of a text part contributes when it is not a delta. */
  function TextOpening(es: seq<Event>, key: TextKey): string {
    if es == [] then ""
    else
      var before, e := es[..|es| - 1], es[|es| - 1];
      if TextOf(before, key).None? && TextFor(e, key) && e.kind.TextDone? then e.text.value else TextOpening(before, key)
  }

  function ArgDeltas(es: seq<Event>, key: ArgKey): string {
    if es == [] then ""
    else
      var before, e := ArgDeltas(es[..|es| - 1], key), es[|es| - 1];
      if ArgFor(e, key) && IsArgsDelta(e.kind) then before + e.delta.value else before
  }

  function ArgOpening(es: seq<Event>, key: ArgKey): string {
    if es == [] then ""
    else
      var before, e := es[..|es| - 1], es[|es| - 1];
      if ArgOf(before, key).None? && ArgFor(e, key) && !IsArgsDelta(e.kind) then ArgValue(e).value else ArgOpening(before, key)
  }

  ghost predicate PrefixOk(q: Request, rid: string, length: nat, es: seq<Event>) {
    forall k :: 0 <= k < |es| ==> EventOk(q, rid, length, es[..k], es[k])
  }

  lemma PrefixShorter(q: Request, rid: string, length: nat, es: seq<Event>)
    requires PrefixOk(q, rid, length, es) && es != []
    ensures PrefixOk(q, rid, length, es[..|es| - 1])
    ensures EventOk(q, rid, length, es[..|es| - 1], es[|es| - 1])
  {
    var before := es[..|es| - 1];
    forall k | 0 <= k < |before| ensures EventOk(q, rid, length, before[..k], before[k]) {
      assert before[..k] == es[..k];
    }
  }

  lemma {:induction false} TextAccumulates(q: Request, rid: string, length: nat, es: seq<Event>, key: TextKey)
    requires PrefixOk(q, rid, length, es)
    ensures OrEmpty(TextOf(es, key)) == TextOpening(es, key) + TextDeltas(es, key)
    ensures TextOf(es, key).None? ==> TextOpening(es, key) == TextDeltas(es, key) == ""
  {
    if es != [] {
      PrefixShorter(q, rid, length, es);
      TextAccumulates(q, rid, length, es[..|es| - 1], key);
    }
  }

  lemma {:induction false} ArgumentsAccumulate(q: Request, rid: string, length: nat, es: seq<Event>, key: ArgKey)
    requires PrefixOk(q, rid, length, es)
    ensures OrEmpty(ArgOf(es, key)) == ArgOpening(es, key) + ArgDeltas(es, key)
    ensures ArgOf(es, key).None? ==> ArgOpening(es, key) == ArgDeltas(es, key) == ""
  {
    if es != [] {
      PrefixShorter(q, rid, length, es);
      ArgumentsAccumulate(q, rid, length, es[..|es| - 1], key);
    }
  }

  /** The text streamed for a part is the text of that part in the finished item:
      nothing a delta carried is lost, repeated or reordered. */
  lemma StreamedTextIsFinal(q: Request, es: seq<Event>, key: TextKey)
    requires StreamOk(q, es) && TextOf(es, key).Some?
    ensures FinalText(DoneItems(es), key) == Some(TextOpening(es, key) + TextDeltas(es, key))
  {
    TextAccumulates(q, StreamId(es), |es|, es, key);
  }

  lemma StreamedArgumentsAreFinal(q: Request, es: seq<Event>, key: ArgKey)
    requires StreamOk(q, es) && ArgOf(es, key).Some?
    ensures FinalArg(DoneItems(es), key) == Is(ArgOpening(es, key) + ArgDeltas(es, key))
  {
    ArgumentsAccumulate(q, StreamId(es), |es|, es, key);
  }

  /** A part whose first event is a delta has nothing but its deltas. */
  lemma {:induction false} DeltaFirstHasNoOpening(es: seq<Event>, key: TextKey, first: nat)
    requires first < |es| && TextFor(es[first], key) && es[first].kind.TextDelta?
    requires forall k :: 0 <= k < first ==> !TextFor(es[k], key)
    ensures TextOpening(es, key) == "" && TextOf(es, key).Some?
  {
    var before := es[..|es| - 1];
    if first == |es| - 1 {
      NoTextYet(before, key);
    } else {
      DeltaFirstHasNoOpening(before, key, first);
    }
  }

  lemma {:induction false} NoTextYet(es: seq<Event>, key: TextKey)
    requires forall k :: 0 <= k < |es| ==> !TextFor(es[k], key)
    ensures TextOf(es, key).None? && TextOpening(es, key) == ""
  {
    if es != [] {
      NoTextYet(es[..|es| - 1], key);
    }
  }

  /** For a part that is streamed by deltas, the finished text is their concatenation. */
  lemma DeltasMakeTheFinalText(q: Request, es: seq<Event>, key: TextKey, first: nat)
    requires StreamOk(q, es)
    requires first < |es| && TextFor(es[first], key) && es[first].kind.TextDelta?
    requires forall k :: 0 <= k < first ==> !TextFor(es[k], key)
    ensures FinalText(DoneItems(es), key) == Some(TextDeltas(es, key))
  {
    DeltaFirstHasNoOpening(es, key, first);
    StreamedTextIsFinal(q, es, key);
    assert "" + TextDeltas(es, key) == TextDeltas(es, key);
  }

  lemma {:induction false} DeltaFirstHasNoArgOpening(es: seq<Event>, key: ArgKey, first: nat)
    requires first < |es| && ArgFor(es[first], key) && IsArgsDelta(es[first].kind)
    requires forall k :: 0 <= k < first ==> !ArgFor(es[k], key)
    ensures ArgOpening(es, key) == "" && ArgOf(es, key).Some?
  {
    var before := es[..|es| - 1];
    if first == |es| - 1 {
      NoArgsYet(before, key);
    } else {
      DeltaFirstHasNoArgOpening(before, key, first);
    }
  }

  lemma {:induction false} NoArgsYet(es: seq<Event>, key: ArgKey)
    requires forall k :: 0 <= k < |es| ==> !ArgFor(es[k], key)
    ensures ArgOf(es, key).None? && ArgOpening(es, key) == ""
  {
    if es != [] {
      NoArgsYet(es[..|es| - 1], key);
    }
  }

  lemma DeltasMakeTheFinalArguments(q: Request, es: seq<Event>, key: ArgKey, first: nat)
    requires StreamOk(q, es)
    requires first < |es| && ArgFor(es[first], key) && IsArgsDelta(es[first].kind)
    requires forall k :: 0 <= k < first ==> !ArgFor(es[k], key)
    ensures FinalArg(DoneItems(es), key) == Is(ArgDeltas(es, key))
  {
    DeltaFirstHasNoArgOpening(es, key, first);
    StreamedArgumentsAreFinal(q, es, key);
    assert "" + ArgDeltas(es, key) == ArgDeltas(es, key);
  }

  ghost predicate SoundItems(q: Request, items: seq<Item>) {
    && (forall i :: 0 <= i < |items| ==> ItemShape(items[i]) && (IsCall(items[i]) ==> Declared(q, items[i])))
    && (forall i, j :: 0 <= i < j < |items| ==> items[i].id != items[j].id)
    && (forall i, j :: 0 <= i < j < |items| && IsCall(items[i]) && IsCall(items[j]) ==> items[i].callId != items[j].callId)
  }

  lemma {:induction false} DoneItemsAreSound(q: Request, rid: string, length: nat, es: seq<Event>)
    requires PrefixOk(q, rid, length, es)
    ensures SoundItems(q, DoneItems(es))
  {
    if es != [] {
      PrefixShorter(q, rid, length, es);
      DoneItemsAreSound(q, rid, length, es[..|es| - 1]);
    }
  }

  /** The declared output is the finished items in order: every identifier and every
      call identifier is used once, and every call names a declared tool. */
  lemma OutputIsSound(q: Request, es: seq<Event>)
    requires StreamOk(q, es)
    ensures es[|es| - 1].response.Is? && es[|es| - 1].response.value.output == Is(DoneItems(es))
    ensures DoneItems(es) != [] && SoundItems(q, DoneItems(es))
  {
    DoneItemsAreSound(q, StreamId(es), |es|, es);
  }

  lemma {:induction false} DoneKeepsIdentity(q: Request, rid: string, length: nat, es: seq<Event>, n: nat)
    requires PrefixOk(q, rid, length, es) && n < |DoneItems(es)|
    ensures DoneItems(es)[n].id.Is?
    ensures AddedAs(es, DoneItems(es)[n].id.value).Some? ==> AddedAs(es, DoneItems(es)[n].id.value).value == IdentityOf(DoneItems(es)[n])
  {
    PrefixShorter(q, rid, length, es);
    var before := es[..|es| - 1];
    if n < |DoneItems(before)| {
      DoneKeepsIdentity(q, rid, length, before, n);
      assert HasId(DoneItems(before), DoneItems(before)[n].id.value);
    }
  }

  /** An item announced in advance is finished later under the same identity. */
  lemma AnnouncedItemIsFinished(q: Request, es: seq<Event>, id: string) returns (n: nat)
    requires StreamOk(q, es) && AddedAs(es, id).Some?
    ensures n < |DoneItems(es)| && DoneItems(es)[n].id == Is(id)
    ensures IdentityOf(DoneItems(es)[n]) == AddedAs(es, id).value
  {
    assert HasId(DoneItems(es), id);
    n :| 0 <= n < |DoneItems(es)| && DoneItems(es)[n].id == Is(id);
    DoneKeepsIdentity(q, StreamId(es), |es|, es, n);
  }

  // ---- Declared tools ----------------------------------------------------

  const MAX_TOOLS: nat := 128

  /** One entry of the tools list; a namespace carries further entries. */
  datatype ToolEntry = ToolEntry(kind: Field<string>, name: Field<string>, members: Field<seq<ToolEntry>>)

  predicate NameOk(t: ToolEntry) { t.name.Is? && 0 < |t.name.value| <= MAX_IDENTITY }

  predicate IsNamespace(t: ToolEntry) { t.kind == Is("namespace") }

  predicate ToolOk(t: ToolEntry) { (t.kind == Is("function") || t.kind == Is("custom")) && NameOk(t) }

  function KindOf(t: ToolEntry): ToolKind {
    if t.kind == Is("function") then FunctionTool else CustomTool
  }

  /** Every tool the list declares, in order, with the namespace it is declared in. */
  function Declarations(tools: seq<ToolEntry>): seq<(Option<string>, ToolEntry)> {
    if tools == [] then []
    else
      var before, t := Declarations(tools[..|tools| - 1]), tools[|tools| - 1];
      if IsNamespace(t) then before + Members(t) else before + [(None, t)]
  }

  function Members(t: ToolEntry): seq<(Option<string>, ToolEntry)> {
    if t.name.Is? && t.members.Is? then seq(|t.members.value|, i requires 0 <= i < |t.members.value| => (Some(t.name.value), t.members.value[i]))
    else []
  }

  function KeyOf(d: (Option<string>, ToolEntry)): ToolKey
    requires d.1.name.Is?
  {
    (d.0, d.1.name.value)
  }

  predicate SoundDeclarations(ds: seq<(Option<string>, ToolEntry)>) {
    && |ds| <= MAX_TOOLS
    && (forall i :: 0 <= i < |ds| ==> ToolOk(ds[i].1))
    && (forall i, j :: 0 <= i < j < |ds| ==> KeyOf(ds[i]) != KeyOf(ds[j]))
  }

  ghost predicate ToolsOk(tools: seq<ToolEntry>) {
    && |tools| <= MAX_TOOLS
    && (forall i :: 0 <= i < |tools| && IsNamespace(tools[i]) ==> NameOk(tools[i]) && tools[i].members.Is?)
    && SoundDeclarations(Declarations(tools))
  }

  ghost predicate Tabulates(declared: Tools, ds: seq<(Option<string>, ToolEntry)>) {
    && SoundDeclarations(ds)
    && (forall i :: 0 <= i < |ds| ==> KeyOf(ds[i]) in declared && declared[KeyOf(ds[i])] == KindOf(ds[i].1))
    && (forall k :: k in declared ==> exists i :: 0 <= i < |ds| && KeyOf(ds[i]) == k)
    && |declared| == |ds|
  }

  method AddTool(declared: Tools, ghost ds: seq<(Option<string>, ToolEntry)>, d: (Option<string>, ToolEntry))
    returns (ok: bool, declared': Tools)
    requires Tabulates(declared, ds)
    ensures ok <==> SoundDeclarations(ds + [d])
    ensures ok ==> Tabulates(declared', ds + [d])
  {
    declared' := declared;
    var all := ds + [d];
    assert all[|ds|] == d;
    if !ToolOk(d.1) {
      return false, declared';
    }
    if KeyOf(d) in declared || |declared| >= MAX_TOOLS {
      if KeyOf(d) in declared {
        ghost var i :| 0 <= i < |ds| && KeyOf(ds[i]) == KeyOf(d);
        assert KeyOf(all[i]) == KeyOf(all[|ds|]);
      }
      return false, declared';
    }
    declared' := declared[KeyOf(d) := KindOf(d.1)];
    forall k | k in declared' ensures exists i :: 0 <= i < |all| && KeyOf(all[i]) == k {
      if k in declared {
        var i :| 0 <= i < |ds| && KeyOf(ds[i]) == k;
        assert KeyOf(all[i]) == k;
      }
    }
    return true, declared';
  }

  lemma SoundPrefix(ds: seq<(Option<string>, ToolEntry)>, more: seq<(Option<string>, ToolEntry)>)
    requires SoundDeclarations(ds + more)
    ensures SoundDeclarations(ds)
  {
    forall i | 0 <= i < |ds| ensures ToolOk(ds[i].1) {
      assert (ds + more)[i] == ds[i];
    }
    forall i, j | 0 <= i < j < |ds| ensures KeyOf(ds[i]) != KeyOf(ds[j]) {
      assert (ds + more)[i] == ds[i] && (ds + more)[j] == ds[j];
    }
  }

  lemma SoundSlice(ds: seq<(Option<string>, ToolEntry)>, ms: seq<(Option<string>, ToolEntry)>, i: nat)
    requires i <= |ms| && SoundDeclarations(ds + ms)
    ensures SoundDeclarations(ds + ms[..i])
  {
    assert ds + ms == (ds + ms[..i]) + ms[i..];
    SoundPrefix(ds + ms[..i], ms[i..]);
  }

  lemma SliceSnoc(ds: seq<(Option<string>, ToolEntry)>, ms: seq<(Option<string>, ToolEntry)>, i: nat)
    requires i < |ms|
    ensures ds + ms[..i + 1] == ds + ms[..i] + [ms[i]]
  {
  }

  method AddNamespace(declared: Tools, ghost ds: seq<(Option<string>, ToolEntry)>, t: ToolEntry)
    returns (ok: bool, declared': Tools)
    requires Tabulates(declared, ds) && NameOk(t) && t.members.Is?
    ensures ok <==> SoundDeclarations(ds + Members(t))
    ensures ok ==> Tabulates(declared', ds + Members(t))
  {
    hide SoundDeclarations, Tabulates;
    declared', ok := declared, true;
    ghost var ms := Members(t);
    assert ds + ms[..0] == ds;
    var i := 0;
    while i < |t.members.value| && ok
      invariant i <= |ms| == |t.members.value|
      invariant ok ==> Tabulates(declared', ds + ms[..i])
      invariant !ok ==> !SoundDeclarations(ds + ms[..i])
    {
      SliceSnoc(ds, ms, i);
      ok, declared' := AddTool(declared', ds + ms[..i], (Some(t.name.value), t.members.value[i]));
      i := i + 1;
    }
    assert ms[..|ms|] == ms;
    if ok {
      TabulatedIsSound(declared', ds + ms);
    } else if SoundDeclarations(ds + ms) {
      SoundSlice(ds, ms, i);
    }
  }

  lemma {:induction false} DeclarationsGrow(tools: seq<ToolEntry>, k: nat) returns (more: seq<(Option<string>, ToolEntry)>)
    requires k <= |tools|
    ensures Declarations(tools) == Declarations(tools[..k]) + more
    decreases |tools| - k
  {
    if k == |tools| {
      assert tools[..k] == tools;
      more := [];
    } else {
      var rest := DeclarationsGrow(tools, k + 1);
      assert tools[..k + 1][..k] == tools[..k];
      more := (if IsNamespace(tools[k]) then Members(tools[k]) else [(None, tools[k])]) + rest;
    }
  }

  lemma OneMoreTool(tools: seq<ToolEntry>, k: nat)
    requires k < |tools|
    ensures Declarations(tools[..k + 1]) ==
      Declarations(tools[..k]) + (if IsNamespace(tools[k]) then Members(tools[k]) else [(None, tools[k])])
  {
    assert tools[..k + 1][..k] == tools[..k];
  }

  lemma SoundSoFar(tools: seq<ToolEntry>, k: nat)
    requires k <= |tools| && SoundDeclarations(Declarations(tools))
    ensures SoundDeclarations(Declarations(tools[..k]))
  {
    hide Declarations, SoundDeclarations;
    var more := DeclarationsGrow(tools, k);
    SoundPrefix(Declarations(tools[..k]), more);
  }

  /** The tool at position `k`, after those before it. */
  method Declare(declared: Tools, tools: seq<ToolEntry>, k: nat) returns (ok: bool, declared': Tools)
    requires k < |tools| && Tabulates(declared, Declarations(tools[..k]))
    ensures ok ==> Tabulates(declared', Declarations(tools[..k + 1]))
    ensures ok && IsNamespace(tools[k]) ==> NameOk(tools[k]) && tools[k].members.Is?
    ensures !ok ==> !ToolsOk(tools)
  {
    hide Declarations, Tabulates, SoundDeclarations, NameOk, Members;
    OneMoreTool(tools, k);
    if IsNamespace(tools[k]) {
      if !NameOk(tools[k]) || !tools[k].members.Is? {
        return false, declared;
      }
      ok, declared' := AddNamespace(declared, Declarations(tools[..k]), tools[k]);
    } else {
      ok, declared' := AddTool(declared, Declarations(tools[..k]), (None, tools[k]));
    }
    if !ok && ToolsOk(tools) {
      SoundSoFar(tools, k + 1);
    }
  }

  lemma TabulatedIsSound(declared: Tools, ds: seq<(Option<string>, ToolEntry)>)
    requires Tabulates(declared, ds)
    ensures SoundDeclarations(ds)
  {
  }

  /** Tabulates the declared tools, refusing a key declared twice. */
  method ToolDeclarations(tools: seq<ToolEntry>) returns (ok: bool, declared: Tools)
    ensures ok <==> ToolsOk(tools)
    ensures ok ==> Tabulates(declared, Declarations(tools))
  {
    hide SoundDeclarations, NameOk;
    declared := map[];
    if |tools| > MAX_TOOLS {
      return false, declared;
    }
    NothingDeclared(tools);
    hide Declarations, Tabulates;
    for k := 0 to |tools|
      invariant Tabulates(declared, Declarations(tools[..k]))
      invariant forall i :: 0 <= i < k && IsNamespace(tools[i]) ==> NameOk(tools[i]) && tools[i].members.Is?
    {
      ok, declared := Declare(declared, tools, k);
      if !ok {
        return;
      }
    }
    assert tools[..|tools|] == tools;
    TabulatedIsSound(declared, Declarations(tools));
    return true, declared;
  }

  lemma NothingDeclared(tools: seq<ToolEntry>)
    ensures Tabulates(map[], Declarations(tools[..0]))
  {
  }
}
