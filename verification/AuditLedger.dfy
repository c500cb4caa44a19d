/** The signed audit ledger: pending anchor, put-if-absent anchor, receipt, ledger line. A run
    may stop before any durable step; `budget` counts the steps it still has. */
module AuditLedger {
  import opened Common

  const GENESIS: string := "0000000000000000000000000000000000000000000000000000000000000000"
  const COMPLIANCE_MODE: string := "COMPLIANCE"

  datatype Value = Text(text: string) | Number(number: int) | Flag(flag: bool) | Nil | Structure(id: int)

  /** Event keys: those the ledger sets itself, and every other name. */
  datatype Key =
    | RunId | Sequence | Previous | EventId | Backend | Compliance | Trust | Retention | ObjectKey | EventSha | Signature
    | Field(name: string)

  type Event = map<Key, Value>

  datatype SinkKind = SignedLocal | DirectoryTest | ObjectLock

  datatype Sink = Sink(kind: SinkKind, backend: string, trust: string, retention: nat)

  function Compliant(s: Sink): bool { s.kind.ObjectLock? }

  function RetentionMode(s: Sink): Value { if Compliant(s) then Text(COMPLIANCE_MODE) else Nil }

  /** Hashing, canonical encoding, the CONTROL key's signature, rendering of values that are
      not text, and anchor object names. */
  datatype Env = Env(
    sha: Bytes -> string, encode: Event -> Bytes, mac: Bytes -> string, show: Value -> string,
    objectName: (string, nat, string) -> string, sink: Sink)

  function Show(env: Env, v: Value): string { if v.Text? then v.text else env.show(v) }

  function Get(e: Event, k: Key): Value { if k in e then e[k] else Nil }

  // ---- Verifying a ledger -------------------------------------------------

  function StoredSha(env: Env, e: Event): string { if EventSha in e then Show(env, e[EventSha]) else "" }

  function StoredMac(env: Env, e: Event): string { if Signature in e then Show(env, e[Signature]) else "" }

  predicate DigestOk(env: Env, e: Event, previous: string) {
    && Get(e, Previous) == Text(previous)
    && StoredSha(env, e) == env.sha(env.encode(e - {Signature} - {EventSha}))
  }

  predicate RecordOk(env: Env, e: Event, previous: string) {
    StoredMac(env, e) == env.mac(env.encode(e - {Signature})) && DigestOk(env, e, previous)
  }

  function PreviousOf(env: Env, events: seq<Event>): string {
    if events == [] then GENESIS else StoredSha(env, events[|events| - 1])
  }

  predicate LedgerOk(env: Env, events: seq<Event>) {
    forall i :: 0 <= i < |events| ==> RecordOk(env, events[i], PreviousOf(env, events[..i]))
  }

  method LoadAndVerify(env: Env, records: seq<Event>) returns (ok: bool)
    ensures ok <==> LedgerOk(env, records)
  {
    hide RecordOk;
    var previous := GENESIS;
    var n := 0;
    while n < |records|
      invariant n <= |records|
      invariant previous == PreviousOf(env, records[..n])
      invariant forall i :: 0 <= i < n ==> RecordOk(env, records[i], PreviousOf(env, records[..i]))
    {
      if !RecordOk(env, records[n], previous) {
        return false;
      }
      previous := StoredSha(env, records[n]);
      n := n + 1;
    }
    ok := true;
  }

  // ---- The store and the event to append ----------------------------------

  datatype Pending = Pending(eventId: string, objectKey: string, sha: string, payloadSha: string)

  datatype Receipt = Receipt(
    worm: bool, backend: string, trust: string, objectKey: string, sha: string,
    version: Option<string>, retainedUntil: Option<int>, mode: Option<string>)

  /** An anchored object; the directory sink keeps only its content. */
  datatype Object = Object(content: Bytes, sha: string, version: string, retainedUntil: int)

  datatype Store = Store(
    ledger: seq<Event>, pending: map<string, Pending>, receipts: map<string, Receipt>, objects: map<string, Object>)

  datatype Result = Going | Stopped | Failed | Done(event: Event)

  datatype Run = Run(store: Store, budget: nat, result: Result)

  /** One call: the run, the payload, the id drawn when the payload names none, and what the
      object store and the clock answer. */
  datatype Call = Call(run: string, payload: Event, drawn: string, now: int, checkedAt: int, version: string)

  predicate Falsy(v: Value) { v.Nil? || v == Text("") || v == Number(0) || v == Flag(false) }

  function Requested(env: Env, payload: Event): string {
    if Falsy(Get(payload, EventId)) then "" else Show(env, payload[EventId])
  }

  function ObjectNameOf(env: Env, run: string, sequence: nat, id: string): string {
    if env.sink.kind.SignedLocal? then "" else env.objectName(run, sequence, id)
  }

  function EventIdOf(env: Env, c: Call): string {
    if Requested(env, c.payload) == "" then c.drawn else Requested(env, c.payload)
  }

  predicate SetByLedger(k: Key) { !k.EventSha? && !k.Signature? && !k.Field? }

  const SET_KEYS: set<Key> := {RunId, Sequence, Previous, EventId, Backend, Compliance, Trust, Retention, ObjectKey}

  function Control(env: Env, events: seq<Event>, c: Call, k: Key): Value {
    match k
    case RunId => Text(c.run)
    case Sequence => Number(|events| + 1)
    case Previous => Text(PreviousOf(env, events))
    case EventId => Text(EventIdOf(env, c))
    case Backend => Text(env.sink.backend)
    case Compliance => Flag(Compliant(env.sink))
    case Trust => Text(env.sink.trust)
    case Retention => RetentionMode(env.sink)
    case ObjectKey => Text(ObjectNameOf(env, c.run, |events| + 1, EventIdOf(env, c)))
    case _ => Nil
  }

  function Unsealed(env: Env, events: seq<Event>, c: Call): Event {
    c.payload + Controls(env, events, c)
  }

  function Controls(env: Env, events: seq<Event>, c: Call): Event { map k | k in SET_KEYS :: Control(env, events, c, k) }

  function Digested(env: Env, e: Event): Event { e[EventSha := Text(env.sha(env.encode(e)))] }

  function Signed(env: Env, e: Event): Event { e[Signature := Text(env.mac(env.encode(e)))] }

  function NewEvent(env: Env, events: seq<Event>, c: Call): Event {
    Signed(env, Digested(env, Unsealed(env, events, c)))
  }

  function WithId(env: Env, events: seq<Event>, id: string): (found: Option<Event>)
    ensures found.Some? ==> found.value in events && Get(found.value, EventId) == Text(id)
    ensures found.None? ==> forall i :: 0 <= i < |events| ==> Get(events[i], EventId) != Text(id)
  {
    if events == [] then None
    else if Get(events[0], EventId) == Text(id) then Some(events[0])
    else WithId(env, events[1..], id)
  }

  predicate Agrees(e: Event, payload: Event) { forall k :: k in payload ==> Get(e, k) == payload[k] }

  function TextAt(e: Event, k: Key): string { if Get(e, k).Text? then Get(e, k).text else "" }

  function PendingOf(env: Env, e: Event): Pending {
    Pending(TextAt(e, EventId), TextAt(e, ObjectKey), TextAt(e, EventSha), env.sha(env.encode(e)))
  }

  // ---- Anchoring ----------------------------------------------------------

  function LocalReceipt(env: Env, e: Event): Receipt {
    Receipt(false, env.sink.backend, env.sink.trust, TextAt(e, ObjectKey), TextAt(e, EventSha), None, None, None)
  }

  function LockReceipt(env: Env, e: Event, o: Object): Receipt {
    Receipt(true, env.sink.backend, env.sink.trust, TextAt(e, ObjectKey), TextAt(e, EventSha),
            Some(o.version), Some(o.retainedUntil), Some(COMPLIANCE_MODE))
  }

  function ReceiptFor(env: Env, e: Event, o: Object): Receipt {
    if Compliant(env.sink) then LockReceipt(env, e, o) else LocalReceipt(env, e)
  }

  predicate Usable(version: string) { version != "" && version != "null" }

  const DAY: int := 86400

  datatype Anchored = Anchored(store: Store, budget: nat, receipt: Option<Receipt>, stopped: bool)

  /** Put if absent; an object already there must hold the same bytes. The lock store then
      checks the digest metadata and the retention: the requested one after a put of its own,
      only the present moment after finding the object there. */
  function Anchor(env: Env, s: Store, e: Event, c: Call, budget: nat): Anchored {
    var key, content := TextAt(e, ObjectKey), env.encode(e);
    if env.sink.kind.SignedLocal? then Anchored(s, budget, Some(LocalReceipt(env, e)), false)
    else if key in s.objects then
      var o := s.objects[key];
      if o.content != content then Anchored(s, budget, None, false)
      else if env.sink.kind.DirectoryTest? then Anchored(s, budget, Some(LocalReceipt(env, e)), false)
      else if o.retainedUntil < c.checkedAt || o.sha != TextAt(e, EventSha) then Anchored(s, budget, None, false)
      else Anchored(s, budget, Some(LockReceipt(env, e, o)), false)
    else if budget == 0 then Anchored(s, 0, None, true)
    else
      var o := if env.sink.kind.DirectoryTest? then Object(content, "", "", 0)
               else Object(content, TextAt(e, EventSha), c.version, c.now + env.sink.retention * DAY);
      var put := s.(objects := s.objects[key := o]);
      if env.sink.kind.DirectoryTest? then Anchored(put, budget - 1, Some(LocalReceipt(env, e)), false)
      else if !Usable(c.version) then Anchored(put, budget - 1, None, false)
      else Anchored(put, budget - 1, Some(LockReceipt(env, e, o)), false)
  }

  // ---- Append -------------------------------------------------------------

  function CompletePending(env: Env, s: Store, e: Event, budget: nat): Run {
    var id := TextAt(e, EventId);
    if id !in s.pending then Run(s, budget, Done(e))
    else if s.pending[id] != PendingOf(env, e) || id !in s.receipts then Run(s, budget, Failed)
    else if budget == 0 then Run(s, 0, Stopped)
    else Run(s.(pending := s.pending - {id}), budget - 1, Done(e))
  }

  function WriteReceipt(s: Store, id: string, r: Receipt, budget: nat): Run {
    if id in s.receipts then Run(s, budget, if s.receipts[id] == r then Going else Failed)
    else if budget == 0 then Run(s, 0, Stopped)
    else Run(s.(receipts := s.receipts[id := r]), budget - 1, Going)
  }

  function PersistPending(s: Store, id: string, p: Pending, budget: nat): Run {
    if id in s.pending then Run(s, budget, if s.pending[id] == p then Going else Failed)
    else if budget == 0 then Run(s, 0, Stopped)
    else Run(s.(pending := s.pending[id := p]), budget - 1, Going)
  }

  function Commit(s: Store, id: string, e: Event, budget: nat): Run {
    if budget == 0 then Run(s, 0, Stopped)
    else
      var logged := s.(ledger := s.ledger + [e]);
      if budget == 1 then Run(logged, 0, Stopped)
      else Run(logged.(pending := logged.pending - {id}), budget - 2, Done(e))
  }

  function Record(env: Env, s: Store, e: Event, c: Call, budget: nat): Run {
    var id := TextAt(e, EventId);
    var p := PersistPending(s, id, PendingOf(env, e), budget);
    if !p.result.Going? then p
    else
      var a := Anchor(env, p.store, e, c, p.budget);
      if a.receipt.None? then Run(a.store, a.budget, if a.stopped then Stopped else Failed)
      else
        var r := WriteReceipt(a.store, id, a.receipt.value, a.budget);
        if !r.result.Going? then r else Commit(r.store, id, e, r.budget)
  }

  function Append(env: Env, s: Store, c: Call, budget: nat): Run {
    if !LedgerOk(env, s.ledger) then Run(s, budget, Failed)
    else
      var id := Requested(env, c.payload);
      var existing := if id == "" then None else WithId(env, s.ledger, id);
      match existing
      case Some(e) => if Agrees(e, c.payload) then CompletePending(env, s, e, budget) else Run(s, budget, Failed)
      case None => Record(env, s, NewEvent(env, s.ledger, c), c, budget)
  }

  // ---- What the new event looks like --------------------------------------

  lemma NewEventField(env: Env, events: seq<Event>, c: Call, k: Key)
    ensures var e := NewEvent(env, events, c);
      && (SetByLedger(k) ==> Get(e, k) == Control(env, events, c, k))
      && (k.EventSha? ==> Get(e, k) == Text(env.sha(env.encode(Unsealed(env, events, c)))))
      && (k.Signature? ==> Get(e, k).Text?)
      && (k.Field? ==> (k in e <==> k in c.payload) && Get(e, k) == Get(c.payload, k))
  {
    hide Control;
    assert SetByLedger(k) <==> k in SET_KEYS;
  }

  predicate Clean(payload: Event) { EventSha !in payload && Signature !in payload }

  /** The digest covers whatever the payload put under the digest and signature keys, while
      verification leaves those keys out: the ledger `append` writes verifies exactly when the
      payload has neither. */
  lemma WrittenLedgerVerifies(env: Env, events: seq<Event>, c: Call)
    requires LedgerOk(env, events) && Injective(env.sha) && Injective(env.mac) && Injective(env.encode)
    ensures LedgerOk(env, events + [NewEvent(env, events, c)]) <==> Clean(c.payload)
  {
    hide RecordOk, NewEvent;
    var longer := events + [NewEvent(env, events, c)];
    forall i | 0 <= i <= |events| ensures longer[..i] == events[..i] {
    }
    assert longer[..|events|] == events && events[..|events|] == events;
    assert longer[|events|] == NewEvent(env, events, c);
    forall i | 0 <= i < |events|
      ensures RecordOk(env, longer[i], PreviousOf(env, longer[..i]))
    {
      assert longer[i] == events[i];
    }
    NewRecordVerifies(env, events, c);
  }

  lemma NewRecordVerifies(env: Env, events: seq<Event>, c: Call)
    requires Injective(env.sha) && Injective(env.mac) && Injective(env.encode)
    ensures RecordOk(env, NewEvent(env, events, c), PreviousOf(env, events)) <==> Clean(c.payload)
  {
    var base := Unsealed(env, events, c);
    assert Previous in SET_KEYS && EventSha !in SET_KEYS && Signature !in SET_KEYS;
    assert Get(base, Previous) == Text(PreviousOf(env, events));
    hide PreviousOf, Injective, RecordOk, Unsealed;
    SealedRecordVerifies(env, base, PreviousOf(env, events));
  }

  lemma SealedRecordVerifies(env: Env, base: Event, previous: string)
    requires Injective(env.sha) && Injective(env.mac) && Injective(env.encode)
    requires Get(base, Previous) == Text(previous)
    ensures RecordOk(env, Signed(env, Digested(env, base)), previous) <==> Clean(base)
  {
    hide Injective;
    var sealed := Digested(env, base);
    var e := Signed(env, sealed);
    SameUnderMac(env, e - {Signature}, sealed);
    SameUnderSha(env, e - {Signature} - {EventSha}, base);
    if Clean(base) {
      assert e - {Signature} == sealed;
      assert e - {Signature} - {EventSha} == base;
    } else if Signature in base {
      assert Signature in sealed && Signature !in e - {Signature};
    } else {
      assert EventSha in base && EventSha !in e - {Signature} - {EventSha};
    }
  }

  lemma SameUnderMac(env: Env, a: Event, b: Event)
    requires Injective(env.mac) && Injective(env.encode)
    ensures env.mac(env.encode(a)) == env.mac(env.encode(b)) <==> a == b
  {
  }

  lemma SameUnderSha(env: Env, a: Event, b: Event)
    requires Injective(env.sha) && Injective(env.encode)
    ensures env.sha(env.encode(a)) == env.sha(env.encode(b)) <==> a == b
  {
  }

  // ---- Replaying one append after any crashes -----------------------------

  /** The same request: run and payload; what the stores and the clock answer may differ. */
  predicate SameRequest(a: Call, b: Call) { a.run == b.run && a.payload == b.payload }

  lemma SameRequestSameEvent(env: Env, events: seq<Event>, a: Call, b: Call)
    requires SameRequest(a, b) && Requested(env, a.payload) != ""
    ensures NewEvent(env, events, a) == NewEvent(env, events, b)
  {
    hide PreviousOf;
    assert EventIdOf(env, a) == EventIdOf(env, b);
    forall k ensures Control(env, events, a, k) == Control(env, events, b, k) {
    }
    assert Unsealed(env, events, a) == Unsealed(env, events, b);
  }

  /** Nothing of this event is in the store yet, its payload is clean, and replaying it against
      the event it made would find no disagreement. */
  ghost predicate Unseen(env: Env, s0: Store, e: Event, c: Call) {
    && e == NewEvent(env, s0.ledger, c) && Requested(env, c.payload) != ""
    && LedgerOk(env, s0.ledger) && LedgerOk(env, s0.ledger + [e]) && Agrees(e, c.payload)
    && WithId(env, s0.ledger, TextAt(e, EventId)).None?
    && TextAt(e, EventId) !in s0.pending && TextAt(e, EventId) !in s0.receipts
    && (!env.sink.kind.SignedLocal? ==> TextAt(e, ObjectKey) !in s0.objects)
  }

  datatype Phase = Untouched | Pended | Placed | Receipted | Logged | Closed

  function Rank(p: Phase): nat {
    match p
    case Untouched => 0
    case Pended => 1
    case Placed => 2
    case Receipted => 3
    case Logged => 4
    case Closed => 5
  }

  predicate Holds(env: Env, e: Event, o: Object) {
    o.content == env.encode(e) && (Compliant(env.sink) ==> o.sha == TextAt(e, EventSha))
    && (env.sink.kind.DirectoryTest? ==> o == Object(env.encode(e), "", "", 0))
  }

  /** The store in each phase of appending `e` to `s0`, `o` being the anchored object. */
  function StoreAt(env: Env, s0: Store, e: Event, o: Object, p: Phase): Store {
    var id := TextAt(e, EventId);
    Store(
      if Rank(p) >= 4 then s0.ledger + [e] else s0.ledger,
      if 1 <= Rank(p) <= 4 then s0.pending[id := PendingOf(env, e)] else s0.pending,
      if Rank(p) >= 3 then s0.receipts[id := ReceiptFor(env, e, o)] else s0.receipts,
      if Rank(p) >= 2 && !env.sink.kind.SignedLocal? then s0.objects[TextAt(e, ObjectKey) := o] else s0.objects)
  }

  /** What an attempt needs besides steps: a usable version for a put of its own, or an object
      whose retention has not run out. */
  predicate Timely(env: Env, s: Store, e: Event, c: Call) {
    Compliant(env.sink) ==>
      if TextAt(e, ObjectKey) in s.objects then c.checkedAt <= s.objects[TextAt(e, ObjectKey)].retainedUntil
      else Usable(c.version)
  }

  /** One phase later, the object kept once it exists. */
  ghost predicate Reaches(env: Env, s0: Store, e: Event, o: Object, p: Phase, s: Store) {
    exists q: Phase, x: Object ::
      Rank(q) >= Rank(p) && Holds(env, e, x) && (Rank(p) >= 2 ==> x == o) && s == StoreAt(env, s0, e, x, q)
  }

  const STEPS: nat := 5

  lemma CommitAdvances(env: Env, s0: Store, e: Event, o: Object, c: Call, budget: nat) returns (q: Phase)
    requires Unseen(env, s0, e, c) && Holds(env, e, o)
    ensures Rank(q) >= 3
    ensures var r := Commit(StoreAt(env, s0, e, o, Receipted), TextAt(e, EventId), e, budget);
      && r.store == StoreAt(env, s0, e, o, q) && !r.result.Failed? && !r.result.Going?
      && (r.result.Done? ==> r.result == Done(e) && q == Closed)
      && (budget >= 2 ==> r.result.Done?)
  {
    hide LedgerOk, Agrees, NewEvent, PendingOf, ReceiptFor;
    q := if budget == 0 then Receipted else if budget == 1 then Logged else Closed;
    var id := TextAt(e, EventId);
    assert s0.pending[id := PendingOf(env, e)] - {id} == s0.pending;
  }

  lemma ReceiptAdvances(env: Env, s0: Store, e: Event, o: Object, c: Call, p: Phase, budget: nat)
    requires Unseen(env, s0, e, c) && Holds(env, e, o) && (p.Placed? || p.Receipted?)
    ensures var r := WriteReceipt(StoreAt(env, s0, e, o, p), TextAt(e, EventId), ReceiptFor(env, e, o), budget);
      if p.Placed? && budget == 0 then r == Run(StoreAt(env, s0, e, o, p), 0, Stopped)
      else
        && r.result.Going? && r.store == StoreAt(env, s0, e, o, Receipted)
        && r.budget == budget - (if p.Placed? then 1 else 0)
  {
    hide LedgerOk, Agrees, NewEvent, PendingOf, ReceiptFor;
  }

  lemma AnchorAdvances(env: Env, s0: Store, e: Event, o: Object, c: Call, p: Phase, budget: nat)
    returns (q: Phase, x: Object)
    requires Unseen(env, s0, e, c) && Holds(env, e, o) && 1 <= Rank(p) <= 3
    ensures Rank(p) <= Rank(q) <= 3 && Holds(env, e, x) && (Rank(p) >= 2 ==> q == p && x == o)
    ensures var s := StoreAt(env, s0, e, o, p);
      var a := Anchor(env, s, e, c, budget);
      && a.store == StoreAt(env, s0, e, x, q)
      && (a.receipt.Some? ==> Rank(q) >= 2 && a.receipt.value == ReceiptFor(env, e, x) && a.budget + 1 >= budget)
      && (budget >= 1 && Timely(env, s, e, c) ==> a.receipt.Some?)
      && (a.receipt.Some? ==> Timely(env, s, e, c))
  {
    hide LedgerOk, Agrees, NewEvent, PendingOf;
    if env.sink.kind.SignedLocal? {
      q, x := if p.Pended? then Placed else p, o;
    } else if p.Pended? && budget > 0 {
      q := Placed;
      x := if env.sink.kind.DirectoryTest? then Object(env.encode(e), "", "", 0)
           else Object(env.encode(e), TextAt(e, EventSha), c.version, c.now + env.sink.retention * DAY);
    } else {
      q, x := p, o;
    }
  }

  lemma PendingAdvances(env: Env, s0: Store, e: Event, o: Object, c: Call, p: Phase, budget: nat)
    requires Unseen(env, s0, e, c) && Rank(p) <= 3
    ensures var r := PersistPending(StoreAt(env, s0, e, o, p), TextAt(e, EventId), PendingOf(env, e), budget);
      if p.Untouched? && budget == 0 then r == Run(StoreAt(env, s0, e, o, p), 0, Stopped)
      else
        && r.result.Going? && r.store == StoreAt(env, s0, e, o, if p.Untouched? then Pended else p)
        && r.budget == budget - (if p.Untouched? then 1 else 0)
  {
    hide LedgerOk, Agrees, NewEvent, PendingOf, ReceiptFor;
  }

  lemma RecordAdvances(env: Env, s0: Store, e: Event, o: Object, c: Call, p: Phase, budget: nat)
    requires Unseen(env, s0, e, c) && Holds(env, e, o) && Rank(p) <= 3
    ensures var s := StoreAt(env, s0, e, o, p);
      var r := Record(env, s, e, c, budget);
      && Reaches(env, s0, e, o, p, r.store)
      && (r.result.Done? ==> r.result == Done(e) && exists x :: Holds(env, e, x) && r.store == StoreAt(env, s0, e, x, Closed))
      && (budget >= STEPS ==> (r.result.Done? <==> Timely(env, s, e, c)))
  {
    hide LedgerOk, Agrees, NewEvent, Unseen, PersistPending, Anchor, WriteReceipt, Commit, PendingOf, ReceiptFor, Holds,
      StoreAt;
    var s := StoreAt(env, s0, e, o, p);
    PendingAdvances(env, s0, e, o, c, p, budget);
    var pr := PersistPending(s, TextAt(e, EventId), PendingOf(env, e), budget);
    TimelyIgnoresPending(env, s0, e, o, c, p);
    if pr.result.Going? {
      var q0 := if p.Untouched? then Pended else p;
      var q, x := AnchorAdvances(env, s0, e, o, c, q0, pr.budget);
      var a := Anchor(env, pr.store, e, c, pr.budget);
      if a.receipt.Some? {
        ReceiptAdvances(env, s0, e, x, c, q, a.budget);
        var r := WriteReceipt(a.store, TextAt(e, EventId), a.receipt.value, a.budget);
        if r.result.Going? {
          var z := CommitAdvances(env, s0, e, x, c, r.budget);
        }
      }
    }
  }

  lemma TimelyIgnoresPending(env: Env, s0: Store, e: Event, o: Object, c: Call, p: Phase)
    ensures Timely(env, StoreAt(env, s0, e, o, p), e, c) <==>
      Timely(env, StoreAt(env, s0, e, o, if p.Untouched? then Pended else p), e, c)
  {
  }

  lemma RecordedIsFound(env: Env, s0: Store, e: Event)
    requires WithId(env, s0.ledger, TextAt(e, EventId)).None? && Get(e, EventId) == Text(TextAt(e, EventId))
    ensures WithId(env, s0.ledger + [e], TextAt(e, EventId)) == Some(e)
  {
    var found := WithId(env, s0.ledger + [e], TextAt(e, EventId));
    assert (s0.ledger + [e])[|s0.ledger|] == e;
    assert found.Some?;
    var i :| 0 <= i < |s0.ledger + [e]| && (s0.ledger + [e])[i] == found.value;
  }

  lemma EventCarriesItsId(env: Env, s0: Store, e: Event, c: Call)
    requires e == NewEvent(env, s0.ledger, c) && Requested(env, c.payload) != ""
    ensures TextAt(e, EventId) == Requested(env, c.payload) && Get(e, EventId) == Text(TextAt(e, EventId))
  {
    hide NewEvent;
    NewEventField(env, s0.ledger, c, EventId);
  }

  lemma PendingNamesItsEvent(env: Env, s0: Store, e: Event, o: Object, budget: nat)
    requires TextAt(e, EventId) !in s0.pending
    ensures CompletePending(env, StoreAt(env, s0, e, o, Closed), e, budget) ==
      Run(StoreAt(env, s0, e, o, Closed), budget, Done(e))
    ensures CompletePending(env, StoreAt(env, s0, e, o, Logged), e, budget) ==
      if budget == 0 then Run(StoreAt(env, s0, e, o, Logged), 0, Stopped)
      else Run(StoreAt(env, s0, e, o, Closed), budget - 1, Done(e))
  {
    var id := TextAt(e, EventId);
    assert s0.pending[id := PendingOf(env, e)] - {id} == s0.pending;
  }

  /** One replay, from any phase a crash can leave, stopped anywhere. */
  lemma ReplayAdvances(env: Env, s0: Store, e: Event, o: Object, c0: Call, c: Call, p: Phase, budget: nat)
    requires Unseen(env, s0, e, c0) && SameRequest(c0, c) && Holds(env, e, o)
    ensures var s := StoreAt(env, s0, e, o, p);
      var r := Append(env, s, c, budget);
      && Reaches(env, s0, e, o, p, r.store)
      && (r.result.Done? ==> r.result == Done(e) && exists x :: Holds(env, e, x) && r.store == StoreAt(env, s0, e, x, Closed))
      && (budget >= STEPS ==> (r.result.Done? <==> Rank(p) >= 4 || Timely(env, s, e, c)))
  {
    hide LedgerOk, Agrees, NewEvent, Record, CompletePending, Timely, Holds, WithId, StoreAt;
    var s := StoreAt(env, s0, e, o, p);
    EventCarriesItsId(env, s0, e, c0);
    StoreAtLedger(env, s0, e, o, p);
    if Rank(p) <= 3 {
      SameRequestSameEvent(env, s0.ledger, c0, c);
      RecordAdvances(env, s0, e, o, c, p, budget);
    } else {
      RecordedIsFound(env, s0, e);
      PendingNamesItsEvent(env, s0, e, o, budget);
    }
  }

  lemma StoreAtLedger(env: Env, s0: Store, e: Event, o: Object, p: Phase)
    ensures StoreAt(env, s0, e, o, p).ledger == if Rank(p) >= 4 then s0.ledger + [e] else s0.ledger
  {
  }

  function Retry(env: Env, s: Store, attempts: seq<(Call, nat)>): Store
    decreases attempts
  {
    if attempts == [] then s
    else Retry(env, Append(env, s, attempts[0].0, attempts[0].1).store, attempts[1..])
  }

  lemma {:induction false} RetriesReach(env: Env, s0: Store, e: Event, o: Object, c0: Call, p: Phase, s: Store,
                                        attempts: seq<(Call, nat)>)
    requires Unseen(env, s0, e, c0) && Holds(env, e, o) && s == StoreAt(env, s0, e, o, p)
    requires forall i :: 0 <= i < |attempts| ==> SameRequest(c0, attempts[i].0)
    ensures Reaches(env, s0, e, o, p, Retry(env, s, attempts))
    decreases attempts
  {
    hide Unseen, Holds, StoreAt, Append, SameRequest;
    if attempts == [] {
    } else {
      ReplayAdvances(env, s0, e, o, c0, attempts[0].0, p, attempts[0].1);
      var next := Append(env, s, attempts[0].0, attempts[0].1).store;
      var q: Phase, x: Object :|
        Rank(q) >= Rank(p) && Holds(env, e, x) && (Rank(p) >= 2 ==> x == o) && next == StoreAt(env, s0, e, x, q);
      RetriesReach(env, s0, e, x, c0, q, next, attempts[1..]);
    }
  }

  lemma UnseenIsUntouched(env: Env, s0: Store, e: Event, o: Object)
    ensures StoreAt(env, s0, e, o, Untouched) == s0
  {
  }

  function PlainObject(env: Env, e: Event): Object {
    if Compliant(env.sink) then Object(env.encode(e), TextAt(e, EventSha), "", 0) else Object(env.encode(e), "", "", 0)
  }

  /** After any number of crashed or failed attempts, a replay with steps to spare succeeds
      exactly when the event is already in the ledger or the anchor is timely. It then returns
      the event of the crash-free run, appended once, with its anchor receipt. */
  lemma CrashedAppendConverges(env: Env, s0: Store, c0: Call, attempts: seq<(Call, nat)>, c: Call, budget: nat)
    requires Unseen(env, s0, NewEvent(env, s0.ledger, c0), c0) && SameRequest(c0, c) && budget >= STEPS
    requires forall i :: 0 <= i < |attempts| ==> SameRequest(c0, attempts[i].0)
    ensures
      var e, crashed := NewEvent(env, s0.ledger, c0), Retry(env, s0, attempts);
      var r := Append(env, crashed, c, budget);
      && (r.result.Done? <==> crashed.ledger == s0.ledger + [e] || Timely(env, crashed, e, c))
      && (r.result.Done? ==>
            r.result == Done(e) && exists x :: Holds(env, e, x) && r.store == StoreAt(env, s0, e, x, Closed))
  {
    var e := NewEvent(env, s0.ledger, c0);
    var o := PlainObject(env, e);
    UnseenIsUntouched(env, s0, e, o);
    assert Holds(env, e, o);
    RetriesReach(env, s0, e, o, c0, Untouched, s0, attempts);
    hide Unseen, Holds, StoreAt, Append, SameRequest, Retry, NewEvent, Timely;
    var crashed := Retry(env, s0, attempts);
    var q: Phase, x: Object :| Holds(env, e, x) && crashed == StoreAt(env, s0, e, x, q);
    StoreAtLedger(env, s0, e, x, q);
    ReplayAdvances(env, s0, e, x, c0, c, q, budget);
  }

  /** Without an object lock the recovered store is the crash-free store itself. */
  lemma CrashesLeaveNoTrace(env: Env, s0: Store, c0: Call, attempts: seq<(Call, nat)>, c: Call, budget: nat)
    requires !Compliant(env.sink) && budget >= STEPS
    requires Unseen(env, s0, NewEvent(env, s0.ledger, c0), c0) && SameRequest(c0, c)
    requires forall i :: 0 <= i < |attempts| ==> SameRequest(c0, attempts[i].0)
    ensures Append(env, Retry(env, s0, attempts), c, budget).result == Done(NewEvent(env, s0.ledger, c0))
    ensures Append(env, Retry(env, s0, attempts), c, budget).store == Append(env, s0, c0, budget).store
  {
    var e := NewEvent(env, s0.ledger, c0);
    CrashedAppendConverges(env, s0, c0, attempts, c, budget);
    CrashedAppendConverges(env, s0, c0, [], c0, budget);
    assert Retry(env, s0, []) == s0;
    hide Append, Retry, Unseen, NewEvent;
    var x :| Holds(env, e, x) && Append(env, Retry(env, s0, attempts), c, budget).store == StoreAt(env, s0, e, x, Closed);
    var y :| Holds(env, e, y) && Append(env, s0, c0, budget).store == StoreAt(env, s0, e, y, Closed);
    PlainObjectsAgree(env, s0, e, x, y);
  }

  lemma PlainObjectsAgree(env: Env, s0: Store, e: Event, x: Object, y: Object)
    requires !Compliant(env.sink) && Holds(env, e, x) && Holds(env, e, y)
    ensures StoreAt(env, s0, e, x, Closed) == StoreAt(env, s0, e, y, Closed)
  {
  }

  // ---- A retry that is not the same append --------------------------------

  /** What decides the new event: the run, the ledger's length and last digest, and the payload
      outside the keys the ledger sets. */
  predicate SameAppend(env: Env, before: seq<Event>, a: Call, now: seq<Event>, b: Call) {
    && a.run == b.run && |before| == |now| && PreviousOf(env, before) == PreviousOf(env, now)
    && a.payload - SET_KEYS == b.payload - SET_KEYS
  }

  lemma SameAppendSameEvent(env: Env, before: seq<Event>, a: Call, now: seq<Event>, b: Call)
    requires Injective(env.sha) && Injective(env.encode)
    requires Requested(env, a.payload) == Requested(env, b.payload) != ""
    ensures NewEvent(env, before, a) == NewEvent(env, now, b) <==> SameAppend(env, before, a, now, b)
  {
    var x, y := Unsealed(env, before, a), Unsealed(env, now, b);
    SameUnderSha(env, x, y);
    hide Injective, PreviousOf, Unsealed;
    if NewEvent(env, before, a) == NewEvent(env, now, b) {
      assert NewEvent(env, before, a)[EventSha] == NewEvent(env, now, b)[EventSha];
      assert x == y;
    } else {
      assert x != y;
    }
    SameUnsealed(env, before, a, now, b);
  }

  lemma SameUnsealed(env: Env, before: seq<Event>, a: Call, now: seq<Event>, b: Call)
    requires Requested(env, a.payload) == Requested(env, b.payload) != ""
    ensures Unsealed(env, before, a) == Unsealed(env, now, b) <==> SameAppend(env, before, a, now, b)
  {
    SameControls(env, before, a, now, b);
    hide PreviousOf, Requested, Controls;
    assert Controls(env, before, a).Keys == SET_KEYS == Controls(env, now, b).Keys by { ControlKeys(env, before, a); ControlKeys(env, now, b); }
    OverlaysAgree(a.payload, b.payload, Controls(env, before, a), Controls(env, now, b), SET_KEYS);
  }

  lemma ControlKeys(env: Env, events: seq<Event>, c: Call)
    ensures Controls(env, events, c).Keys == SET_KEYS
  {
    hide Control;
  }

  lemma OverlaysAgree(a: Event, b: Event, x: Event, y: Event, keys: set<Key>)
    requires x.Keys == keys == y.Keys
    ensures a + x == b + y <==> x == y && a - keys == b - keys
  {
    assert (a + x) - keys == a - keys && (b + y) - keys == b - keys;
    if a + x == b + y {
      forall k | k in x ensures x[k] == y[k] {
        assert (a + x)[k] == x[k] && (b + y)[k] == y[k];
      }
      assert x == y;
    } else if x == y && a - keys == b - keys {
      OverlaysAreEqual(a, b, x, keys);
    }
  }

  lemma OverlaysAreEqual(a: Event, b: Event, x: Event, keys: set<Key>)
    requires x.Keys == keys && a - keys == b - keys
    ensures a + x == b + x
  {
    forall k ensures k in a + x <==> k in b + x {
      assert k !in keys ==> (k in a <==> k in a - keys) && (k in b <==> k in b - keys);
    }
    forall k | k in a + x ensures (a + x)[k] == (b + x)[k] {
      assert k !in keys ==> a[k] == (a - keys)[k] && b[k] == (b - keys)[k];
    }
  }

  lemma SameControls(env: Env, before: seq<Event>, a: Call, now: seq<Event>, b: Call)
    requires Requested(env, a.payload) == Requested(env, b.payload) != ""
    ensures Controls(env, before, a) == Controls(env, now, b) <==>
      a.run == b.run && |before| == |now| && PreviousOf(env, before) == PreviousOf(env, now)
  {
    hide PreviousOf, Requested;
    var x, y := Controls(env, before, a), Controls(env, now, b);
    if x == y {
      assert x[RunId] == Text(a.run) && y[RunId] == Text(b.run);
      assert x[Sequence] == Number(|before| + 1) && y[Sequence] == Number(|now| + 1);
      assert x[Previous] == Text(PreviousOf(env, before)) && y[Previous] == Text(PreviousOf(env, now));
    } else if a.run == b.run && |before| == |now| && PreviousOf(env, before) == PreviousOf(env, now) {
      forall k | k in SET_KEYS ensures Control(env, before, a, k) == Control(env, now, b, k) {
      }
    }
  }

  /** A retry of an id whose pending entry a crashed append left behind gets past that entry
      exactly when it would make the same event: no other append came between, and the payload
      is unchanged. Otherwise it fails and changes nothing. */
  lemma PendingDecides(env: Env, before: seq<Event>, c0: Call, s: Store, c: Call, budget: nat)
    requires Injective(env.sha) && Injective(env.encode)
    requires Requested(env, c0.payload) == Requested(env, c.payload) != ""
    requires LedgerOk(env, s.ledger) && WithId(env, s.ledger, Requested(env, c.payload)).None?
    requires Requested(env, c.payload) in s.pending
    requires s.pending[Requested(env, c.payload)] == PendingOf(env, NewEvent(env, before, c0))
    ensures PersistPending(s, Requested(env, c.payload), PendingOf(env, NewEvent(env, s.ledger, c)), budget).result.Going?
      <==> SameAppend(env, before, c0, s.ledger, c)
    ensures !SameAppend(env, before, c0, s.ledger, c) ==> Append(env, s, c, budget) == Run(s, budget, Failed)
  {
    var e, d := NewEvent(env, s.ledger, c), NewEvent(env, before, c0);
    SameAppendSameEvent(env, before, c0, s.ledger, c);
    SameUnderSha(env, e, d);
    NewEventField(env, s.ledger, c, EventId);
    assert TextAt(e, EventId) == Requested(env, c.payload);
    hide NewEvent, SameAppend, LedgerOk, WithId, Injective, Requested;
  }

  /** The same request with another time stamp, as the service makes it on every call. */
  predicate Restamped(a: Call, b: Call) {
    && b.run == a.run && Field("timestamp") in b.payload && Get(a.payload, Field("timestamp")) != b.payload[Field("timestamp")]
    && b.payload - {Field("timestamp")} == a.payload - {Field("timestamp")}
  }

  /** So an append that crashed once its pending entry was durable is never recorded by retries
      that carry a new time stamp: each of them fails, and the pending entry stays. */
  lemma {:induction false} RestampedRetriesFail(
      env: Env, s0: Store, c0: Call, attempts: seq<(Call, nat)>, c: Call, budget: nat)
    requires Unseen(env, s0, NewEvent(env, s0.ledger, c0), c0) && Injective(env.sha) && Injective(env.encode)
    requires forall i :: 0 <= i < |attempts| ==> Restamped(c0, attempts[i].0)
    requires Restamped(c0, c)
    ensures
      var crashed := Append(env, s0, c0, 1).store;
      && crashed.ledger == s0.ledger && Requested(env, c0.payload) in crashed.pending
      && Retry(env, crashed, attempts) == crashed
      && Append(env, crashed, c, budget) == Run(crashed, budget, Failed)
    decreases attempts
  {
    var crashed := Append(env, s0, c0, 1).store;
    CrashAfterPending(env, s0, c0);
    RestampedRetryFails(env, s0, c0, c, budget);
    if attempts != [] {
      RestampedRetryFails(env, s0, c0, attempts[0].0, attempts[0].1);
      RestampedRetriesFail(env, s0, c0, attempts[1..], c, budget);
    }
  }

  lemma CrashAfterPending(env: Env, s0: Store, c0: Call)
    requires Unseen(env, s0, NewEvent(env, s0.ledger, c0), c0)
    ensures
      var e, crashed := NewEvent(env, s0.ledger, c0), Append(env, s0, c0, 1).store;
      && crashed.ledger == s0.ledger && Requested(env, c0.payload) in crashed.pending
      && crashed.pending[Requested(env, c0.payload)] == PendingOf(env, e)
  {
    var e := NewEvent(env, s0.ledger, c0);
    EventCarriesItsId(env, s0, e, c0);
    hide NewEvent, LedgerOk, Agrees, PendingOf, WithId, Requested;
  }

  lemma RestampedRetryFails(env: Env, s0: Store, c0: Call, c: Call, budget: nat)
    requires Unseen(env, s0, NewEvent(env, s0.ledger, c0), c0) && Injective(env.sha) && Injective(env.encode)
    requires Restamped(c0, c)
    ensures var crashed := Append(env, s0, c0, 1).store; Append(env, crashed, c, budget) == Run(crashed, budget, Failed)
  {
    var crashed := Append(env, s0, c0, 1).store;
    CrashAfterPending(env, s0, c0);
    EventCarriesItsId(env, s0, NewEvent(env, s0.ledger, c0), c0);
    RestampedKeepsId(env, c0, c);
    assert !SameAppend(env, s0.ledger, c0, crashed.ledger, c) by {
      var stamp := Field("timestamp");
      assert stamp !in SET_KEYS;
      assert stamp in c.payload - SET_KEYS;
      assert stamp in c0.payload - SET_KEYS ==> (c0.payload - SET_KEYS)[stamp] == c0.payload[stamp];
    }
    hide NewEvent, Append, SameAppend, Injective, Requested;
    PendingDecides(env, s0.ledger, c0, crashed, c, budget);
  }

  lemma RestampedKeepsId(env: Env, a: Call, b: Call)
    requires Restamped(a, b)
    ensures Requested(env, a.payload) == Requested(env, b.payload)
  {
    var rest := a.payload - {Field("timestamp")};
    assert EventId in a.payload <==> EventId in rest;
    assert EventId in b.payload <==> EventId in b.payload - {Field("timestamp")};
    if EventId in a.payload {
      assert rest[EventId] == a.payload[EventId] && (b.payload - {Field("timestamp")})[EventId] == b.payload[EventId];
    }
  }

  // ---- Replaying after completion -----------------------------------------

  /** The event overwrites the keys the ledger sets, so a payload agrees with its own event
      exactly when what it says under those keys is what the ledger sets. */
  lemma AgreementIsOnControlKeys(env: Env, events: seq<Event>, c: Call)
    requires Clean(c.payload)
    ensures Agrees(NewEvent(env, events, c), c.payload) <==>
      forall k :: k in c.payload && SetByLedger(k) ==> c.payload[k] == Control(env, events, c, k)
  {
    hide NewEvent, Control;
    forall k | k in c.payload
      ensures Get(NewEvent(env, events, c), k) ==
        if SetByLedger(k) then Control(env, events, c, k) else c.payload[k]
    {
      NewEventField(env, events, c, k);
    }
  }

  /** Repeating a completed append finds its event; it succeeds exactly when the payload agrees
      with that event on every key. */
  lemma CompletedReplayDecides(env: Env, s: Store, e: Event, c: Call, budget: nat)
    requires LedgerOk(env, s.ledger) && Requested(env, c.payload) != ""
    requires WithId(env, s.ledger, Requested(env, c.payload)) == Some(e) && TextAt(e, EventId) !in s.pending
    ensures Append(env, s, c, budget) == Run(s, budget, if Agrees(e, c.payload) then Done(e) else Failed)
  {
    hide LedgerOk, Agrees, WithId;
  }

  /** A payload that names its own sequence number is recorded with another and can never be
      replayed. */
  lemma SequenceInPayloadBreaksReplay(env: Env, run: string, id: string, n: int)
    requires id != "" && n != 1 && env.sink.kind.SignedLocal?
    requires Injective(env.sha) && Injective(env.mac) && Injective(env.encode)
    ensures
      var c := Call(run, map[EventId := Text(id), Sequence := Number(n)], "", 0, 0, "");
      var first := Append(env, Store([], map[], map[], map[]), c, STEPS);
      first.result.Done? && Append(env, first.store, c, STEPS) == Run(first.store, STEPS, Failed)
  {
    var c := Call(run, map[EventId := Text(id), Sequence := Number(n)], "", 0, 0, "");
    var s0 := Store([], map[], map[], map[]);
    var e := NewEvent(env, [], c);
    NumberedPayloadDisagrees(env, id, n, c);
    EventCarriesItsId(env, s0, e, c);
    FirstLedgerVerifies(env, c);
    hide NewEvent, LedgerOk, Control, Agrees, Append, Requested;
    FirstAppend(env, s0, e, c);
    RecordedIsFound(env, s0, e);
    assert s0.ledger + [e] == [e];
    assert Requested(env, c.payload) == id by { NamedPayload(env, c.payload, id); }
    CompletedReplayDecides(env, Append(env, s0, c, STEPS).store, e, c, STEPS);
  }

  lemma NamedPayload(env: Env, payload: Event, id: string)
    requires EventId in payload && payload[EventId] == Text(id) && id != ""
    ensures Requested(env, payload) == id
  {
  }

  lemma NumberedPayloadDisagrees(env: Env, id: string, n: int, c: Call)
    requires c.payload == map[EventId := Text(id), Sequence := Number(n)] && n != 1
    ensures !Agrees(NewEvent(env, [], c), c.payload)
  {
    hide NewEvent;
    NewEventField(env, [], c, Sequence);
    assert Sequence in c.payload;
  }

  lemma FirstLedgerVerifies(env: Env, c: Call)
    requires Injective(env.sha) && Injective(env.mac) && Injective(env.encode) && Clean(c.payload)
    ensures LedgerOk(env, []) && LedgerOk(env, [NewEvent(env, [], c)])
  {
    hide NewEvent;
    WrittenLedgerVerifies(env, [], c);
    assert [] + [NewEvent(env, [], c)] == [NewEvent(env, [], c)];
  }

  lemma FirstAppend(env: Env, s0: Store, e: Event, c: Call)
    requires env.sink.kind.SignedLocal? && s0 == Store([], map[], map[], map[]) && e == NewEvent(env, [], c)
    requires LedgerOk(env, [])
    ensures Append(env, s0, c, STEPS).result == Done(e)
    ensures Append(env, s0, c, STEPS).store.ledger == [e] && Append(env, s0, c, STEPS).store.pending == map[]
  {
    hide NewEvent, LedgerOk, PendingOf;
    var id := TextAt(e, EventId);
    assert map[id := PendingOf(env, e)] - {id} == map[];
  }

  /** A payload that brings a digest of its own is recorded, and from then on the ledger refuses
      every append. */
  lemma DigestInPayloadBreaksLedger(env: Env, run: string, id: string, digest: string, c: Call, budget: nat)
    requires id != "" && env.sink.kind.SignedLocal?
    requires Injective(env.sha) && Injective(env.mac) && Injective(env.encode)
    ensures
      var bad := Call(run, map[EventId := Text(id), EventSha := Text(digest)], "", 0, 0, "");
      var first := Append(env, Store([], map[], map[], map[]), bad, STEPS);
      && first.result.Done? && !LedgerOk(env, first.store.ledger)
      && Append(env, first.store, c, budget) == Run(first.store, budget, Failed)
  {
    var bad := Call(run, map[EventId := Text(id), EventSha := Text(digest)], "", 0, 0, "");
    var e := NewEvent(env, [], bad);
    assert LedgerOk(env, []);
    assert EventSha in bad.payload;
    WrittenLedgerVerifies(env, [], bad);
    assert [] + [e] == [e];
    hide NewEvent, LedgerOk, Injective;
    FirstAppend(env, Store([], map[], map[], map[]), e, bad);
  }

  /** The first append of a payload that only names its id. */
  lemma FirstIsUnseen(env: Env, run: string, id: string, c: Call)
    requires id != "" && c.run == run && c.payload == map[EventId := Text(id)]
    requires Injective(env.sha) && Injective(env.mac) && Injective(env.encode)
    ensures Unseen(env, Store([], map[], map[], map[]), NewEvent(env, [], c), c)
  {
    FirstLedgerVerifies(env, c);
    NamedPayload(env, c.payload, id);
    AgreementIsOnControlKeys(env, [], c);
    assert [] + [NewEvent(env, [], c)] == [NewEvent(env, [], c)];
    hide NewEvent, LedgerOk, Injective;
  }

  /** An append that stops after its put, and is retried when the object's retention is over,
      fails: the object is there, and too old to be accepted. */
  lemma ExpiredRetentionBlocksRetry(env: Env, run: string, id: string, version: string, now: int)
    requires id != "" && Usable(version) && Compliant(env.sink)
    requires Injective(env.sha) && Injective(env.mac) && Injective(env.encode)
    ensures
      var late := now + env.sink.retention * DAY + 1;
      var first := Append(env, Store([], map[], map[], map[]), Call(run, map[EventId := Text(id)], "", now, now, version), 2);
      var retry := Append(env, first.store, Call(run, map[EventId := Text(id)], "", late, late, version), STEPS);
      first.result.Stopped? && !retry.result.Done? && retry.store.ledger == []
  {
    var c0 := Call(run, map[EventId := Text(id)], "", now, now, version);
    var late := now + env.sink.retention * DAY + 1;
    var c := Call(run, map[EventId := Text(id)], "", late, late, version);
    var s0 := Store([], map[], map[], map[]);
    var e := NewEvent(env, [], c0);
    var o := Object(env.encode(e), TextAt(e, EventSha), version, now + env.sink.retention * DAY);
    FirstIsUnseen(env, run, id, c0);
    hide NewEvent, LedgerOk, Injective, Unseen, StoreAt;
    StopsAfterPut(env, s0, e, o, c0);
    ReplayAdvances(env, s0, e, o, c0, c, Placed, STEPS);
    LateIsNotTimely(env, s0, e, o, c);
    AppendGrowsLedgerOnlyIfDone(env, StoreAt(env, s0, e, o, Placed), c);
  }

  lemma LateIsNotTimely(env: Env, s0: Store, e: Event, o: Object, c: Call)
    requires Compliant(env.sink) && c.checkedAt > o.retainedUntil
    ensures !Timely(env, StoreAt(env, s0, e, o, Placed), e, c)
    ensures StoreAt(env, s0, e, o, Placed).ledger == s0.ledger
  {
  }

  lemma AppendGrowsLedgerOnlyIfDone(env: Env, s: Store, c: Call)
    ensures !Append(env, s, c, STEPS).result.Done? ==> Append(env, s, c, STEPS).store.ledger == s.ledger
  {
    hide LedgerOk, Agrees, NewEvent, PendingOf, WithId, Anchor;
    var e := NewEvent(env, s.ledger, c);
    var p := PersistPending(s, TextAt(e, EventId), PendingOf(env, e), STEPS);
    AnchorKeepsLedger(env, p.store, e, c, p.budget);
  }

  lemma AnchorKeepsLedger(env: Env, s: Store, e: Event, c: Call, budget: nat)
    ensures Anchor(env, s, e, c, budget).store.ledger == s.ledger && Anchor(env, s, e, c, budget).budget + 1 >= budget
  {
  }

  lemma StopsAfterPut(env: Env, s0: Store, e: Event, o: Object, c0: Call)
    requires e == NewEvent(env, s0.ledger, c0) && Unseen(env, s0, e, c0) && Compliant(env.sink) && Usable(c0.version)
    requires o == Object(env.encode(e), TextAt(e, EventSha), c0.version, c0.now + env.sink.retention * DAY)
    ensures Append(env, s0, c0, 2) == Run(StoreAt(env, s0, e, o, Placed), 0, Stopped)
  {
    hide NewEvent, LedgerOk, Agrees, PendingOf, WithId, Usable, ReceiptFor;
    EventCarriesItsId(env, s0, e, c0);
    var id := TextAt(e, EventId);
    var p := PersistPending(s0, id, PendingOf(env, e), 2);
    assert p == Run(s0.(pending := s0.pending[id := PendingOf(env, e)]), 1, Going);
    var a := Anchor(env, p.store, e, c0, 1);
    assert a.store == p.store.(objects := s0.objects[TextAt(e, ObjectKey) := o]) && a.budget == 0 && a.receipt.Some?;
    assert Record(env, s0, e, c0, 2) == Run(a.store, 0, Stopped);
  }

  /** An object put without a usable version makes the first append fail, but the retry finds
      the object, accepts it, and records a receipt with that version. */
  lemma UnusableVersionIsRecordedOnRetry(env: Env, s0: Store, c0: Call, c: Call)
    requires Unseen(env, s0, NewEvent(env, s0.ledger, c0), c0) && SameRequest(c0, c)
    requires Compliant(env.sink) && !Usable(c0.version)
    requires c.checkedAt <= c0.now + env.sink.retention * DAY
    ensures
      var e, first := NewEvent(env, s0.ledger, c0), Append(env, s0, c0, STEPS);
      var second := Append(env, first.store, c, STEPS);
      && first.result.Failed? && first.store.ledger == s0.ledger && second.result == Done(e)
      && TextAt(e, EventId) in second.store.receipts
      && second.store.receipts[TextAt(e, EventId)].version == Some(c0.version)
  {
    var e := NewEvent(env, s0.ledger, c0);
    var o := Object(env.encode(e), TextAt(e, EventSha), c0.version, c0.now + env.sink.retention * DAY);
    hide Unseen, NewEvent, Append, StoreAt, Timely;
    FirstPutFails(env, s0, e, o, c0);
    var s := StoreAt(env, s0, e, o, Placed);
    AnchoredIsTimely(env, s0, e, o, c);
    ReplayAdvances(env, s0, e, o, c0, c, Placed, STEPS);
    var second := Append(env, s, c, STEPS);
    var q: Phase, x: Object :|
      Rank(q) >= 2 && Holds(env, e, x) && x == o && second.store == StoreAt(env, s0, e, x, q);
    var y :| Holds(env, e, y) && second.store == StoreAt(env, s0, e, y, Closed);
    ClosedKeepsObject(env, s0, e, o, y, q);
  }

  lemma AnchoredIsTimely(env: Env, s0: Store, e: Event, o: Object, c: Call)
    requires Compliant(env.sink) && c.checkedAt <= o.retainedUntil
    ensures var s := StoreAt(env, s0, e, o, Placed);
      s.ledger == s0.ledger && Timely(env, s, e, c)
  {
  }

  lemma ClosedKeepsObject(env: Env, s0: Store, e: Event, o: Object, y: Object, q: Phase)
    requires Compliant(env.sink) && Rank(q) >= 2 && StoreAt(env, s0, e, o, q) == StoreAt(env, s0, e, y, Closed)
    ensures var t := StoreAt(env, s0, e, y, Closed);
      TextAt(e, EventId) in t.receipts && t.receipts[TextAt(e, EventId)].version == Some(o.version)
  {
    var t := StoreAt(env, s0, e, y, Closed);
    assert t.objects[TextAt(e, ObjectKey)] == y && t.objects[TextAt(e, ObjectKey)] == o;
  }

  lemma FirstPutFails(env: Env, s0: Store, e: Event, o: Object, c0: Call)
    requires e == NewEvent(env, s0.ledger, c0) && Unseen(env, s0, e, c0) && Compliant(env.sink) && !Usable(c0.version)
    requires o == Object(env.encode(e), TextAt(e, EventSha), c0.version, c0.now + env.sink.retention * DAY)
    ensures Append(env, s0, c0, STEPS) == Run(StoreAt(env, s0, e, o, Placed), STEPS - 2, Failed)
  {
    hide NewEvent, LedgerOk, Agrees, PendingOf, WithId, Usable, ReceiptFor;
    EventCarriesItsId(env, s0, e, c0);
    var id := TextAt(e, EventId);
    var p := PersistPending(s0, id, PendingOf(env, e), STEPS);
    assert p == Run(s0.(pending := s0.pending[id := PendingOf(env, e)]), STEPS - 1, Going);
    var a := Anchor(env, p.store, e, c0, STEPS - 1);
    assert a == Anchored(p.store.(objects := s0.objects[TextAt(e, ObjectKey) := o]), STEPS - 2, None, false);
    assert Record(env, s0, e, c0, STEPS) == Run(a.store, STEPS - 2, Failed);
  }

  // ---- Every interleaving of appends --------------------------------------

  ghost predicate ReceiptMatches(env: Env, e: Event, r: Receipt) { exists o :: r == ReceiptFor(env, e, o) }

  /** The fields the ledger set on its i-th event. */
  predicate Controlled(env: Env, run: string, e: Event, i: nat) {
    && Get(e, RunId) == Text(run) && Get(e, Sequence) == Number(i + 1)
    && Get(e, EventId).Text? && Get(e, ObjectKey).Text? && Get(e, EventSha).Text?
    && Get(e, Signature).Text?
    && Get(e, Backend) == Text(env.sink.backend) && Get(e, Compliance) == Flag(Compliant(env.sink))
    && Get(e, Trust) == Text(env.sink.trust) && Get(e, Retention) == RetentionMode(env.sink)
  }

  ghost predicate Recorded(env: Env, run: string, s: Store, i: nat)
    requires i < |s.ledger|
  {
    var e := s.ledger[i];
    Controlled(env, run, e, i) && TextAt(e, EventId) in s.receipts && ReceiptMatches(env, e, s.receipts[TextAt(e, EventId)])
  }

  predicate InLedger(events: seq<Event>, id: string) {
    exists i :: 0 <= i < |events| && TextAt(events[i], EventId) == id
  }

  predicate DistinctIds(events: seq<Event>) {
    forall i, j :: 0 <= i < j < |events| ==> TextAt(events[i], EventId) != TextAt(events[j], EventId)
  }

  /** The ledger verifies, names each event once, and holds each event's receipt; a receipt
      without its event still has its pending mark. */
  ghost predicate Sound(env: Env, run: string, s: Store) {
    && LedgerOk(env, s.ledger) && DistinctIds(s.ledger)
    && (forall i :: 0 <= i < |s.ledger| ==> Recorded(env, run, s, i))
    && (forall id :: id in s.receipts ==> id in s.pending || InLedger(s.ledger, id))
  }

  /** Calls the service makes: clean payloads for this run, and drawn ids that are new. */
  predicate Proper(env: Env, run: string, s: Store, c: Call) {
    && c.run == run && Clean(c.payload)
    && (Requested(env, c.payload) == "" ==> !InLedger(s.ledger, c.drawn))
  }

  predicate ReceiptsKept(s: Store, t: Store) {
    forall id :: id in s.receipts ==> id in t.receipts && t.receipts[id] == s.receipts[id]
  }

  lemma NewEventIsControlled(env: Env, run: string, events: seq<Event>, c: Call)
    requires c.run == run
    ensures Controlled(env, run, NewEvent(env, events, c), |events|)
    ensures TextAt(NewEvent(env, events, c), EventId) == EventIdOf(env, c)
  {
    hide NewEvent;
    NewEventField(env, events, c, RunId);
    NewEventField(env, events, c, Sequence);
    NewEventField(env, events, c, EventId);
    NewEventField(env, events, c, ObjectKey);
    NewEventField(env, events, c, EventSha);
    NewEventField(env, events, c, Signature);
    NewEventField(env, events, c, Backend);
    NewEventField(env, events, c, Compliance);
    NewEventField(env, events, c, Trust);
    NewEventField(env, events, c, Retention);
  }

  lemma PendingKeepsSound(env: Env, run: string, s: Store, id: string, p: Pending, budget: nat)
    requires Sound(env, run, s)
    ensures var r := PersistPending(s, id, p, budget);
      && Sound(env, run, r.store) && r.store.ledger == s.ledger && r.store.receipts == s.receipts
      && (r.result.Going? ==> id in r.store.pending)
  {
    hide LedgerOk, DistinctIds, Controlled, ReceiptMatches, InLedger;
    var r := PersistPending(s, id, p, budget);
    forall i | 0 <= i < |s.ledger| ensures Recorded(env, run, r.store, i) {
      assert Recorded(env, run, s, i);
    }
  }

  lemma AnchorKeepsSound(env: Env, run: string, s: Store, e: Event, c: Call, budget: nat)
    requires Sound(env, run, s)
    ensures var a := Anchor(env, s, e, c, budget);
      && Sound(env, run, a.store) && a.store.ledger == s.ledger && a.store.pending == s.pending && a.store.receipts == s.receipts
      && (a.receipt.Some? ==> ReceiptMatches(env, e, a.receipt.value))
  {
    hide LedgerOk, DistinctIds, Controlled, InLedger, PendingOf;
    var a := Anchor(env, s, e, c, budget);
    assert a.store.receipts == s.receipts;
    forall i | 0 <= i < |s.ledger| ensures Recorded(env, run, a.store, i) {
      assert Recorded(env, run, s, i);
    }
    if a.receipt.Some? {
      AnchorMatches(env, s, e, c, budget);
    }
  }

  lemma AnchorMatches(env: Env, s: Store, e: Event, c: Call, budget: nat)
    requires Anchor(env, s, e, c, budget).receipt.Some?
    ensures ReceiptMatches(env, e, Anchor(env, s, e, c, budget).receipt.value)
  {
    var a := Anchor(env, s, e, c, budget);
    var key := TextAt(e, ObjectKey);
    var o := if key in a.store.objects then a.store.objects[key] else PlainObject(env, e);
    assert a.receipt.value == ReceiptFor(env, e, o);
  }

  lemma ReceiptKeepsSound(env: Env, run: string, s: Store, id: string, r: Receipt, budget: nat)
    requires Sound(env, run, s) && !InLedger(s.ledger, id) && id in s.pending
    ensures var w := WriteReceipt(s, id, r, budget);
      && Sound(env, run, w.store) && w.store.ledger == s.ledger && w.store.pending == s.pending
      && ReceiptsKept(s, w.store)
      && (w.result.Going? ==> id in w.store.receipts && w.store.receipts[id] == r)
  {
    hide LedgerOk, DistinctIds, Controlled, ReceiptMatches;
    var w := WriteReceipt(s, id, r, budget);
    forall i | 0 <= i < |s.ledger| ensures Recorded(env, run, w.store, i) {
      assert Recorded(env, run, s, i);
    }
  }

  lemma LineKeepsSound(env: Env, run: string, s: Store, e: Event)
    requires Sound(env, run, s) && !InLedger(s.ledger, TextAt(e, EventId)) && LedgerOk(env, s.ledger + [e])
    requires Controlled(env, run, e, |s.ledger|)
    requires TextAt(e, EventId) in s.receipts && ReceiptMatches(env, e, s.receipts[TextAt(e, EventId)])
    ensures Sound(env, run, s.(ledger := s.ledger + [e])) && InLedger(s.ledger + [e], TextAt(e, EventId))
  {
    hide LedgerOk, Controlled, ReceiptMatches;
    var t := s.(ledger := s.ledger + [e]);
    assert t.ledger[|s.ledger|] == e;
    forall i | 0 <= i < |t.ledger| ensures Recorded(env, run, t, i) {
      if i < |s.ledger| {
        assert Recorded(env, run, s, i);
      }
    }
    forall id | InLedger(s.ledger, id) ensures InLedger(t.ledger, id) {
      var i :| 0 <= i < |s.ledger| && TextAt(s.ledger[i], EventId) == id;
      assert t.ledger[i] == s.ledger[i];
    }
  }

  lemma UnlinkKeepsSound(env: Env, run: string, s: Store, id: string)
    requires Sound(env, run, s) && InLedger(s.ledger, id)
    ensures Sound(env, run, s.(pending := s.pending - {id}))
  {
    hide LedgerOk, DistinctIds, Controlled, ReceiptMatches, InLedger;
    var t := s.(pending := s.pending - {id});
    forall i | 0 <= i < |t.ledger| ensures Recorded(env, run, t, i) {
      assert Recorded(env, run, s, i);
    }
  }

  lemma RecordKeepsSound(env: Env, run: string, s: Store, e: Event, c: Call, budget: nat)
    requires Sound(env, run, s) && !InLedger(s.ledger, TextAt(e, EventId)) && LedgerOk(env, s.ledger + [e])
    requires Controlled(env, run, e, |s.ledger|)
    ensures Sound(env, run, Record(env, s, e, c, budget).store)
    ensures s.ledger <= Record(env, s, e, c, budget).store.ledger && ReceiptsKept(s, Record(env, s, e, c, budget).store)
  {
    hide Sound, PersistPending, Anchor, WriteReceipt, LedgerOk, Controlled, ReceiptMatches, InLedger;
    var id := TextAt(e, EventId);
    var p := PersistPending(s, id, PendingOf(env, e), budget);
    PendingKeepsSound(env, run, s, id, PendingOf(env, e), budget);
    if p.result.Going? {
      var a := Anchor(env, p.store, e, c, p.budget);
      AnchorKeepsSound(env, run, p.store, e, c, p.budget);
      if a.receipt.Some? {
        var w := WriteReceipt(a.store, id, a.receipt.value, a.budget);
        ReceiptKeepsSound(env, run, a.store, id, a.receipt.value, a.budget);
        if w.result.Going? && w.budget > 0 {
          LineKeepsSound(env, run, w.store, e);
          UnlinkKeepsSound(env, run, w.store.(ledger := w.store.ledger + [e]), id);
        }
      }
    }
  }

  lemma NotFoundNotInLedger(env: Env, run: string, s: Store, id: string)
    requires Sound(env, run, s) && WithId(env, s.ledger, id).None?
    ensures !InLedger(s.ledger, id)
  {
    hide LedgerOk, WithId, DistinctIds;
    forall i | 0 <= i < |s.ledger| ensures TextAt(s.ledger[i], EventId) != id {
      assert Recorded(env, run, s, i);
    }
  }

  lemma FoundInLedger(env: Env, events: seq<Event>, id: string)
    requires WithId(env, events, id).Some?
    ensures TextAt(WithId(env, events, id).value, EventId) == id && InLedger(events, id)
  {
    hide WithId;
    var e := WithId(env, events, id).value;
    var i :| 0 <= i < |events| && events[i] == e;
  }

  /** Every append, of any event, stopped anywhere or failing, keeps the store sound: in
      particular every ledger event has its anchor receipt and every id occurs once. */
  lemma AppendKeepsSound(env: Env, run: string, s: Store, c: Call, budget: nat)
    requires Sound(env, run, s) && Proper(env, run, s, c)
    requires Injective(env.sha) && Injective(env.mac) && Injective(env.encode)
    ensures Sound(env, run, Append(env, s, c, budget).store)
    ensures s.ledger <= Append(env, s, c, budget).store.ledger && ReceiptsKept(s, Append(env, s, c, budget).store)
  {
    hide Sound, Record, LedgerOk, NewEvent, InLedger, WithId, Requested, Controlled, Clean, Injective;
    assert LedgerOk(env, s.ledger) by { SoundLedger(env, run, s); }
    var id := Requested(env, c.payload);
    var existing := if id == "" then None else WithId(env, s.ledger, id);
    if existing.Some? {
      FoundInLedger(env, s.ledger, id);
      UnlinkKeepsSound(env, run, s, id);
    } else {
      var e := NewEvent(env, s.ledger, c);
      NewEventIsControlled(env, run, s.ledger, c);
      WrittenLedgerVerifies(env, s.ledger, c);
      if id != "" {
        NotFoundNotInLedger(env, run, s, id);
      }
      RecordKeepsSound(env, run, s, e, c, budget);
    }
  }

  lemma SoundLedger(env: Env, run: string, s: Store)
    requires Sound(env, run, s)
    ensures LedgerOk(env, s.ledger)
  {
  }

  // ---- The ledger the program updates in place ----------------------------

  class SignedLedger {
    const env: Env
    var ledger: seq<Event>
    var pending: map<string, Pending>
    var receipts: map<string, Receipt>
    var objects: map<string, Object>
    var budget: nat

    function Now(): Store
      reads this
    {
      Store(ledger, pending, receipts, objects)
    }

    constructor (env: Env, s: Store, steps: nat)
      ensures this.env == env && Now() == s && budget == steps
    {
      this.env := env;
      ledger, pending, receipts, objects, budget := s.ledger, s.pending, s.receipts, s.objects, steps;
    }

    method Persist(id: string, p: Pending) returns (result: Result)
      modifies this`pending, this`budget
      ensures Run(Now(), budget, result) == PersistPending(old(Now()), id, p, old(budget))
    {
      if id in pending {
        return if pending[id] == p then Going else Failed;
      }
      if budget == 0 {
        return Stopped;
      }
      pending, budget := pending[id := p], budget - 1;
      result := Going;
    }

    method Receive(id: string, r: Receipt) returns (result: Result)
      modifies this`receipts, this`budget
      ensures Run(Now(), budget, result) == WriteReceipt(old(Now()), id, r, old(budget))
    {
      if id in receipts {
        return if receipts[id] == r then Going else Failed;
      }
      if budget == 0 {
        return Stopped;
      }
      receipts, budget := receipts[id := r], budget - 1;
      result := Going;
    }

    /** The three sinks. */
    method PutAnchor(e: Event, c: Call) returns (receipt: Option<Receipt>, stopped: bool)
      modifies this`objects, this`budget
      ensures Anchored(Now(), budget, receipt, stopped) == Anchor(env, old(Now()), e, c, old(budget))
    {
      var key, content, kind := TextAt(e, ObjectKey), env.encode(e), env.sink.kind;
      if kind.SignedLocal? {
        return Some(LocalReceipt(env, e)), false;
      }
      var recovered := key in objects;
      if !recovered {
        if budget == 0 {
          return None, true;
        }
        var o := if kind.DirectoryTest? then Object(content, "", "", 0)
                 else Object(content, TextAt(e, EventSha), c.version, c.now + env.sink.retention * DAY);
        objects, budget := objects[key := o], budget - 1;
        if kind.ObjectLock? && !Usable(c.version) {
          return None, false;
        }
      }
      var stored := objects[key];
      if kind.DirectoryTest? {
        return if stored.content == content then Some(LocalReceipt(env, e)) else None, false;
      }
      if recovered && stored.content != content {
        return None, false;
      }
      var required := if recovered then c.checkedAt else c.now + env.sink.retention * DAY;
      if stored.retainedUntil < required || stored.sha != TextAt(e, EventSha) {
        return None, false;
      }
      receipt, stopped := Some(LockReceipt(env, e, stored)), false;
    }

    method CompleteExisting(e: Event) returns (result: Result)
      modifies this`pending, this`budget
      ensures Run(Now(), budget, result) == CompletePending(env, old(Now()), e, old(budget))
    {
      var id := TextAt(e, EventId);
      if id !in pending {
        return Done(e);
      }
      if pending[id] != PendingOf(env, e) || id !in receipts {
        return Failed;
      }
      if budget == 0 {
        return Stopped;
      }
      pending, budget := pending - {id}, budget - 1;
      result := Done(e);
    }

    method RecordNew(e: Event, c: Call) returns (result: Result)
      modifies this
      ensures Run(Now(), budget, result) == Record(env, old(Now()), e, c, old(budget))
    {
      hide Anchor, PersistPending, WriteReceipt, PendingOf;
      var id := TextAt(e, EventId);
      result := Persist(id, PendingOf(env, e));
      if !result.Going? {
        return;
      }
      var receipt, stopped := PutAnchor(e, c);
      if receipt.None? {
        return if stopped then Stopped else Failed;
      }
      result := Receive(id, receipt.value);
      if !result.Going? {
        return;
      }
      if budget == 0 {
        return Stopped;
      }
      ledger, budget := ledger + [e], budget - 1;
      if budget == 0 {
        return Stopped;
      }
      pending, budget := pending - {id}, budget - 1;
      result := Done(e);
    }

    method AppendEvent(c: Call) returns (result: Result)
      modifies this
      ensures Run(Now(), budget, result) == Append(env, old(Now()), c, old(budget))
    {
      hide Record, CompletePending, NewEvent, LedgerOk, Agrees;
      var sound := LoadAndVerify(env, ledger);
      if !sound {
        return Failed;
      }
      var id := Requested(env, c.payload);
      if id != "" {
        var existing := WithId(env, ledger, id);
        if existing.Some? {
          if !Agrees(existing.value, c.payload) {
            return Failed;
          }
          result := CompleteExisting(existing.value);
          return;
        }
      }
      result := RecordNew(NewEvent(env, ledger, c), c);
    }
  }
}
