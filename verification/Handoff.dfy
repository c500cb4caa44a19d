/** Assurance handoff: eight runtime files move from the live fleet to the Mission's
    evidence directory under a prepared/committing intent and a final receipt.
    A run may stop before any durable step; `budget` counts the steps it still has. */
module Handoff {
  import opened Common

  const SCHEMA_VERSION: int := 1

  datatype Kind =
    | PhaseState | Ledger | Dialogue | DialogueControl | AssuranceControl
    | VerificationReceipt | AssuranceReceipt | Manifest

  const FILES: seq<Kind> :=
    [PhaseState, Ledger, Dialogue, DialogueControl, AssuranceControl, VerificationReceipt, AssuranceReceipt, Manifest]

  predicate Required(k: Kind) { k.Manifest? || k.PhaseState? || k.Ledger? }

  /** Where a file can be: the live leaf of a kind, its leaf under main-runtime, another
      entry of main-runtime, or anywhere else in the store. */
  datatype Path = Source(kind: Kind) | Destination(kind: Kind) | Stray(name: string) | Elsewhere(name: string)

  type Files = map<Path, Bytes>

  datatype Item = Item(
    kind: Kind, source: Path, destination: Path, present: bool, sha256: Option<Digest>, size: Option<nat>)

  datatype Status = Prepared | Committing | Complete | OtherStatus

  datatype Intent = Intent(
    schema: int, status: Status, feature: string, mission: string, head: Digest, approval: Digest,
    workspace: string, files: seq<Kind>, items: Option<seq<Item>>)

  datatype Receipt = Receipt(
    schema: int, status: Status, feature: string, mission: string, head: Digest, approval: Digest,
    workspace: string, completedAt: int, items: seq<Item>)

  /** A metadata file either fails to load as a canonical object or holds a record. */
  datatype Stored<T> = Garbled | Canonical(record: T)

  datatype Disk = Disk(files: Files, intent: Option<Stored<Intent>>, receipt: Option<Stored<Receipt>>)

  datatype ManifestRecord = ManifestRecord(
    feature: string, mission: string, mode: string, target: string, compiled: Digest, preset: string,
    workspace: string, handoffState: string, quiesced: string)

  datatype Compiled = Compiled(workflow: Digest, compiled: Digest, preset: string)

  // ---- The Mission ledger -------------------------------------------------

  datatype EventKind = ApprovalRenewed | OtherEvent(name: string)

  datatype Event = Event(kind: EventKind, sha: Digest, timestamp: int, expires: int)

  datatype MissionStatus = AssuranceApproved | AssuredRunning | OtherMissionStatus

  datatype Approval = Approval(approved: bool, workflow: Digest, scope: string, sha: Digest, expires: int)

  datatype State = State(
    mission: string, feature: string, status: MissionStatus, terminal: bool, approval: Option<Approval>,
    workflow: Digest, compiled: Digest, target: string, head: Digest, leadFinalized: bool, quiet: bool)

  /** Everything outside the protocol: hashing, the manifest parser, whether phase-state
      bytes are canonical, the compiled workflow, and the effect on the Mission of every
      event but an approval renewal. */
  datatype Env = Env(
    feature: string, mission: string, hash: Bytes -> Digest, manifestOf: Bytes -> Option<ManifestRecord>,
    phaseOk: Bytes -> bool, compiled: Option<Compiled>, start: State, advance: (State, Event) -> Option<State>)

  /** An approval may be renewed only once it has expired; the renewal replaces the
      approval and nothing else. */
  function Renew(s: State, e: Event): Option<State> {
    if s.status.OtherMissionStatus? || s.approval.None? then None
    else if s.status.AssuredRunning? && !s.quiet then None
    else if e.timestamp < s.approval.value.expires || e.expires <= e.timestamp then None
    else Some(s.(approval := Some(Approval(true, s.workflow, s.target, e.sha, e.expires))))
  }

  function Derive(env: Env, events: seq<Event>): Option<State> {
    if events == [] then Some(env.start)
    else
      var e := events[|events| - 1];
      match Derive(env, events[..|events| - 1])
      case None => None
      case Some(s) =>
        match if e.kind.ApprovalRenewed? then Renew(s, e) else env.advance(s, e)
        case None => None
        case Some(t) => Some(t.(head := e.sha))
  }

  predicate Distinct(events: seq<Event>) {
    forall i, j :: 0 <= i < j < |events| ==> events[i].sha != events[j].sha
  }

  /** `later` is `earlier` followed by approval renewals only. */
  predicate RenewedSince(earlier: seq<Event>, later: seq<Event>) {
    && |earlier| <= |later|
    && later[..|earlier|] == earlier
    && forall j :: |earlier| <= j < |later| ==> later[j].kind.ApprovalRenewed?
  }

  function Position(events: seq<Event>, sha: Digest): (at: Option<nat>)
    ensures at.Some? ==> at.value < |events| && events[at.value].sha == sha
    ensures at.Some? ==> forall j :: 0 <= j < at.value ==> events[j].sha != sha
    ensures at.None? ==> forall j :: 0 <= j < |events| ==> events[j].sha != sha
  {
    if events == [] then None
    else
      match Position(events[..|events| - 1], sha)
      case Some(i) => Some(i)
      case None => if events[|events| - 1].sha == sha then Some(|events| - 1) else None
  }

  // ---- Validators ---------------------------------------------------------

  datatype Verdict = Fine | Unfit | Lapsed

  function CheckMission(env: Env, s: State, now: int): Verdict {
    if s.mission != env.mission || s.feature != env.feature then Unfit
    else if !s.status.AssuranceApproved? || s.terminal || s.approval.None? then Unfit
    else
      var a := s.approval.value;
      if !a.approved || a.workflow != s.workflow || a.scope != s.target then Unfit
      else if now >= a.expires then Lapsed
      else if !s.leadFinalized || !s.quiet then Unfit
      else Fine
  }

  predicate BindingOk(env: Env, s: State, events: seq<Event>, head: Digest, approval: Digest, completed: Option<int>) {
    match Position(events, head)
    case None => false
    case Some(i) =>
      match Derive(env, events[..i + 1])
      case None => false
      case Some(then') =>
        && then'.status.AssuranceApproved?
        && then'.approval.Some?
        && then'.approval.value.sha == approval
        && then'.approval.value.workflow == s.workflow
        && then'.approval.value.scope == s.target
        && (forall j :: i < j < |events| ==> events[j].kind.ApprovalRenewed?)
        && (completed.Some? ==> events[i].timestamp <= completed.value < then'.approval.value.expires)
  }

  predicate ItemOk(item: Item, k: Kind) {
    && item.kind == k && item.source == Source(k) && item.destination == Destination(k)
    && item.sha256.Some? == item.present && item.size.Some? == item.present
    && (Required(k) ==> item.present)
  }

  predicate ItemsOk(items: seq<Item>) {
    |items| == |FILES| && forall i :: 0 <= i < |FILES| ==> ItemOk(items[i], FILES[i])
  }

  predicate IntentOk(env: Env, i: Intent, s: State, events: seq<Event>) {
    && (i.status.Prepared? || i.status.Committing?)
    && i.items.Some? == i.status.Committing?
    && i.schema == SCHEMA_VERSION && i.feature == env.feature && i.mission == env.mission
    && i.files == FILES && i.workspace != ""
    && BindingOk(env, s, events, i.head, i.approval, None)
    && (i.status.Committing? ==> ItemsOk(i.items.value))
  }

  predicate ReceiptOk(env: Env, r: Receipt, s: State, events: seq<Event>) {
    && r.schema == SCHEMA_VERSION && r.status.Complete? && r.feature == env.feature && r.mission == env.mission
    && BindingOk(env, s, events, r.head, r.approval, Some(r.completedAt))
    && ItemsOk(r.items)
  }

  predicate PairOk(r: Receipt, i: Intent) {
    && i.status.Committing?
    && r.feature == i.feature && r.mission == i.mission && r.head == i.head && r.approval == i.approval
    && r.workspace == i.workspace && Some(r.items) == i.items
  }

  predicate PlacedOk(env: Env, files: Files, item: Item) {
    && item.source !in files
    && (item.destination in files <==> item.present)
    && (item.present ==>
          && item.size == Some(|files[item.destination]|)
          && item.sha256 == Some(env.hash(files[item.destination])))
  }

  /** Nothing unlisted is in main-runtime, no source came back, and every retained file is intact. */
  predicate LayoutOk(env: Env, files: Files, items: seq<Item>) {
    && (forall p :: p in files ==> !p.Stray?)
    && (forall i :: 0 <= i < |items| ==> PlacedOk(env, files, items[i]))
  }

  predicate ReplayOk(env: Env, d: Disk, s: State, events: seq<Event>) {
    && d.receipt.Some? && d.receipt.value.Canonical? && d.intent.Some? && d.intent.value.Canonical?
    && IntentOk(env, d.intent.value.record, s, events)
    && ReceiptOk(env, d.receipt.value.record, s, events)
    && PairOk(d.receipt.value.record, d.intent.value.record)
    && LayoutOk(env, d.files, d.receipt.value.record.items)
  }

  predicate ManifestOk(env: Env, m: ManifestRecord, s: State) {
    && env.compiled.Some?
    && env.compiled.value.workflow == s.workflow && env.compiled.value.compiled == s.compiled
    && m.feature == env.feature && m.mission == env.mission && m.mode == "autonomous"
    && m.target == s.target && m.compiled == s.compiled && m.preset == env.compiled.value.preset
  }

  predicate Quiesced(m: ManifestRecord) { m.handoffState == "quiesced" && m.quiesced == "1" }

  predicate DestinationEmpty(files: Files) {
    forall p :: p in files ==> !p.Destination? && !p.Stray?
  }

  predicate HasRequired(files: Files) {
    forall i :: 0 <= i < |FILES| && Required(FILES[i]) ==> Source(FILES[i]) in files
  }

  function Describe(env: Env, files: Files, k: Kind): Item {
    var p := Source(k);
    if p in files
    then Item(k, p, Destination(k), true, Some(env.hash(files[p])), Some(|files[p]|))
    else Item(k, p, Destination(k), false, None, None)
  }

  function Snapshot(env: Env, files: Files): (items: seq<Item>)
    ensures |items| == |FILES|
    ensures HasRequired(files) ==> ItemsOk(items)
  {
    seq(|FILES|, i requires 0 <= i < |FILES| => Describe(env, files, FILES[i]))
  }

  // ---- The commit, as a function of the disk ------------------------------

  datatype Progress = Going | Stopped | Transient | Refused | Done

  datatype Run = Run(disk: Disk, budget: nat, progress: Progress)

  /** The clock readings of one commit: on entry, after the moves, and for the receipt. */
  datatype Clock = Clock(entry: int, recheck: int, completion: int)

  function Rename(files: Files, source: Path, destination: Path): Files
    requires source in files
  {
    (files - {source})[destination := files[source]]
  }

  predicate Matches(env: Env, item: Item, content: Bytes) {
    item.size == Some(|content|) && item.sha256 == Some(env.hash(content))
  }

  function MoveItem(env: Env, d: Disk, item: Item, budget: nat): Run {
    var atSource, atDestination := item.source in d.files, item.destination in d.files;
    if !item.present then Run(d, budget, if atSource || atDestination then Refused else Going)
    else if atSource == atDestination then Run(d, budget, Refused)
    else if !Matches(env, item, d.files[if atSource then item.source else item.destination])
    then Run(d, budget, Refused)
    else if atDestination then Run(d, budget, Going)
    else if budget == 0 then Run(d, 0, Stopped)
    else Run(d.(files := Rename(d.files, item.source, item.destination)), budget - 1, Going)
  }

  function MoveAll(env: Env, d: Disk, items: seq<Item>, budget: nat): Run
    decreases items
  {
    if items == [] then Run(d, budget, Going)
    else
      var r := MoveItem(env, d, items[0], budget);
      if r.progress.Going? then MoveAll(env, r.disk, items[1..], r.budget) else r
  }

  function OthersOf(items: seq<Item>): seq<Item> {
    if items == [] then []
    else (if items[0].kind.Manifest? then [] else [items[0]]) + OthersOf(items[1..])
  }

  function ManifestsOf(items: seq<Item>): seq<Item> {
    if items == [] then []
    else (if items[0].kind.Manifest? then [items[0]] else []) + ManifestsOf(items[1..])
  }

  /** The manifest goes last. */
  function Ordered(items: seq<Item>): seq<Item> { OthersOf(items) + ManifestsOf(items) }

  function Write(d: Disk, intent: Intent): Disk { d.(intent := Some(Canonical(intent))) }

  function ReceiptOf(env: Env, intent: Intent, s: State, at: int): Receipt
    requires s.approval.Some? && intent.items.Some?
  {
    Receipt(SCHEMA_VERSION, Complete, env.feature, env.mission, s.head, s.approval.value.sha, intent.workspace, at,
            intent.items.value)
  }

  function Seal(env: Env, d: Disk, intent: Intent, s: State, clock: Clock, budget: nat): Run
    requires s.approval.Some? && intent.items.Some?
  {
    if Source(Manifest) in d.files then Run(d, budget, Refused)
    else
      match CheckMission(env, s, clock.recheck)
      case Unfit => Run(d, budget, Refused)
      case Lapsed => Run(d, budget, Transient)
      case Fine =>
        if clock.completion >= s.approval.value.expires then Run(d, budget, Transient)
        else if budget == 0 then Run(d, 0, Stopped)
        else Run(d.(receipt := Some(Canonical(ReceiptOf(env, intent, s, clock.completion)))), budget - 1, Done)
  }

  function Finish(env: Env, d: Disk, intent: Intent, s: State, clock: Clock, budget: nat): Run
    requires s.approval.Some? && intent.items.Some?
  {
    if !ItemsOk(intent.items.value) then Run(d, budget, Refused)
    else
      var r := MoveAll(env, d, Ordered(intent.items.value), budget);
      if r.progress.Going? then Seal(env, r.disk, intent, s, clock, r.budget) else r
  }

  /** Why a prepared intent may not start committing yet; `Going` when it may. */
  function Gate(env: Env, files: Files, s: State): Progress {
    if Source(Manifest) !in files then Refused
    else
      match env.manifestOf(files[Source(Manifest)])
      case None => Refused
      case Some(m) =>
        if !ManifestOk(env, m, s) then Refused
        else if !Quiesced(m) then Transient
        else if !DestinationEmpty(files) || !HasRequired(files) then Refused
        else Going
  }

  function Begin(env: Env, d: Disk, intent: Intent, s: State, clock: Clock, budget: nat): Run
    requires s.approval.Some? && (intent.status.Committing? ==> intent.items.Some?)
  {
    if intent.status.Committing? then Finish(env, d, intent, s, clock, budget)
    else if !Gate(env, d.files, s).Going? then Run(d, budget, Gate(env, d.files, s))
    else if budget == 0 then Run(d, 0, Stopped)
    else
      var committing := intent.(status := Committing, items := Some(Snapshot(env, d.files)));
      Finish(env, Write(d, committing), committing, s, clock, budget - 1)
  }

  function Rebind(intent: Intent, s: State): Intent
    requires s.approval.Some?
  {
    intent.(head := s.head, approval := s.approval.value.sha)
  }

  function Continue(env: Env, d: Disk, s: State, events: seq<Event>, clock: Clock, budget: nat): Run
    requires s.approval.Some?
  {
    if d.intent.None? || d.intent.value.Garbled? || !IntentOk(env, d.intent.value.record, s, events)
    then Run(d, budget, Refused)
    else
      var intent := d.intent.value.record;
      if Rebind(intent, s) == intent then Begin(env, d, intent, s, clock, budget)
      else if budget == 0 then Run(d, 0, Stopped)
      else Begin(env, Write(d, Rebind(intent, s)), Rebind(intent, s), s, clock, budget - 1)
  }

  function Commit(env: Env, d: Disk, events: seq<Event>, clock: Clock, budget: nat): Run {
    match Derive(env, events)
    case None => Run(d, budget, Refused)
    case Some(s) =>
      match CheckMission(env, s, clock.entry)
      case Unfit => Run(d, budget, Refused)
      case Lapsed => Run(d, budget, Transient)
      case Fine =>
        if d.receipt.Some? then Run(d, budget, if ReplayOk(env, d, s, events) then Done else Refused)
        else Continue(env, d, s, events, clock, budget)
  }

  // ---- Conservation: every disk, every stop ------------------------------

  /** What the store holds for a kind, wherever it is. */
  function Holding(files: Files, k: Kind): (Option<Bytes>, Option<Bytes>) {
    var source := if Source(k) in files then Some(files[Source(k)]) else None;
    var destination := if Destination(k) in files then Some(files[Destination(k)]) else None;
    if source.Some? && destination.None? then (None, source) else (source, destination)
  }

  /** The same contents for every kind, and every other path untouched. */
  ghost predicate SameContents(a: Files, b: Files) {
    && (forall k :: Holding(a, k) == Holding(b, k))
    && (forall p: Path :: p.Stray? || p.Elsewhere? ==> (p in a <==> p in b))
    && (forall p: Path :: (p.Stray? || p.Elsewhere?) && p in a && p in b ==> a[p] == b[p])
  }

  lemma MoveItemConserves(env: Env, d: Disk, item: Item, budget: nat)
    requires item.source == Source(item.kind) && item.destination == Destination(item.kind)
    ensures SameContents(d.files, MoveItem(env, d, item, budget).disk.files)
  {
  }

  predicate Addressed(items: seq<Item>) {
    forall i :: 0 <= i < |items| ==>
      items[i].source == Source(items[i].kind) && items[i].destination == Destination(items[i].kind)
  }

  lemma {:induction false} MoveAllConserves(env: Env, d: Disk, items: seq<Item>, budget: nat)
    requires Addressed(items)
    ensures SameContents(d.files, MoveAll(env, d, items, budget).disk.files)
    ensures MoveAll(env, d, items, budget).disk.intent == d.intent
    ensures MoveAll(env, d, items, budget).disk.receipt == d.receipt
    ensures !MoveAll(env, d, items, budget).progress.Done? && !MoveAll(env, d, items, budget).progress.Transient?
    decreases items
  {
    if items != [] {
      MoveItemConserves(env, d, items[0], budget);
      var r := MoveItem(env, d, items[0], budget);
      if r.progress.Going? {
        MoveAllConserves(env, r.disk, items[1..], r.budget);
      }
    }
  }

  lemma {:induction false} ManifestGoesLast(items: seq<Item>)
    requires ItemsOk(items)
    ensures Ordered(items) == items
  {
    hide OthersOf, ManifestsOf;
    assert items[..|items| - 1] + [items[|items| - 1]] == items;
    OthersOfPlain(items[..|items| - 1]);
    OthersOfEnd(items[..|items| - 1], items[|items| - 1]);
  }

  lemma {:induction false} OthersOfPlain(items: seq<Item>)
    requires forall i :: 0 <= i < |items| ==> !items[i].kind.Manifest?
    ensures OthersOf(items) == items && ManifestsOf(items) == []
  {
    if items != [] {
      OthersOfPlain(items[1..]);
    }
  }

  lemma {:induction false} OthersOfEnd(items: seq<Item>, last: Item)
    requires last.kind.Manifest? && ManifestsOf(items) == []
    ensures OthersOf(items + [last]) == OthersOf(items) && ManifestsOf(items + [last]) == [last]
  {
    if items == [] {
      assert items + [last] == [last];
    } else {
      assert (items + [last])[1..] == items[1..] + [last];
      OthersOfEnd(items[1..], last);
    }
  }

  lemma SealKeepsFiles(env: Env, d: Disk, intent: Intent, s: State, clock: Clock, budget: nat)
    requires s.approval.Some? && intent.items.Some?
    ensures Seal(env, d, intent, s, clock, budget).disk.files == d.files
  {
  }

  lemma FinishConserves(env: Env, d: Disk, intent: Intent, s: State, clock: Clock, budget: nat)
    requires s.approval.Some? && intent.items.Some?
    ensures SameContents(d.files, Finish(env, d, intent, s, clock, budget).disk.files)
  {
    if ItemsOk(intent.items.value) {
      ManifestGoesLast(intent.items.value);
      MoveAllConserves(env, d, intent.items.value, budget);
    }
  }

  /** From any disk, stopping anywhere: no content is lost, duplicated or changed. */
  lemma CommitConserves(env: Env, d: Disk, events: seq<Event>, clock: Clock, budget: nat)
    ensures SameContents(d.files, Commit(env, d, events, clock, budget).disk.files)
  {
    hide MoveAll, Derive, Position, Holding, Ordered;
    var r := Commit(env, d, events, clock, budget);
    if r.disk.files != d.files {
      var s := Derive(env, events).value;
      ContinueConserves(env, d, s, events, clock, budget);
    } else {
      assert SameContents(d.files, d.files) by { SameContentsOfSelf(d.files); }
    }
  }

  lemma SameContentsOfSelf(f: Files)
    ensures SameContents(f, f)
  {
  }

  lemma BeginConserves(env: Env, d: Disk, intent: Intent, s: State, clock: Clock, budget: nat)
    requires s.approval.Some? && (intent.status.Committing? ==> intent.items.Some?)
    ensures SameContents(d.files, Begin(env, d, intent, s, clock, budget).disk.files)
  {
    hide Finish, Gate;
    SameContentsOfSelf(d.files);
    if intent.status.Committing? {
      FinishConserves(env, d, intent, s, clock, budget);
    } else if Gate(env, d.files, s).Going? && budget > 0 {
      var committing := intent.(status := Committing, items := Some(Snapshot(env, d.files)));
      FinishConserves(env, Write(d, committing), committing, s, clock, budget - 1);
    }
  }

  lemma ContinueConserves(env: Env, d: Disk, s: State, events: seq<Event>, clock: Clock, budget: nat)
    requires s.approval.Some?
    ensures SameContents(d.files, Continue(env, d, s, events, clock, budget).disk.files)
  {
    hide Begin, IntentOk;
    SameContentsOfSelf(d.files);
    if d.intent.Some? && d.intent.value.Canonical? && IntentOk(env, d.intent.value.record, s, events) {
      var intent := d.intent.value.record;
      assert intent.status.Committing? ==> intent.items.Some? by { CommittingIntentHasItems(env, intent, s, events); }
      if Rebind(intent, s) == intent {
        BeginConserves(env, d, intent, s, clock, budget);
      } else if budget > 0 {
        BeginConserves(env, Write(d, Rebind(intent, s)), Rebind(intent, s), s, clock, budget - 1);
      }
    }
  }

  lemma CommittingIntentHasItems(env: Env, i: Intent, s: State, events: seq<Event>)
    requires IntentOk(env, i, s, events)
    ensures i.status.Committing? ==> i.items.Some?
  {
  }

  // ---- What renewals preserve --------------------------------------------

  predicate SameMission(s: State, t: State) {
    t == s.(approval := t.approval, head := t.head) && (s.approval.Some? ==> t.approval.Some?)
  }

  lemma {:induction false} RenewalsKeepMission(env: Env, earlier: seq<Event>, later: seq<Event>)
    requires RenewedSince(earlier, later) && Derive(env, later).Some?
    ensures Derive(env, earlier).Some?
    ensures SameMission(Derive(env, earlier).value, Derive(env, later).value)
    decreases |later|
  {
    if |earlier| == |later| {
      assert later == earlier;
    } else {
      var shorter := later[..|later| - 1];
      assert shorter[..|earlier|] == later[..|earlier|];
      RenewalsKeepMission(env, earlier, shorter);
    }
  }

  lemma HeadIsLatest(env: Env, events: seq<Event>)
    requires events != [] && Derive(env, events).Some?
    ensures Derive(env, events).value.head == events[|events| - 1].sha
  {
  }

  lemma {:induction false} PositionSurvives(earlier: seq<Event>, later: seq<Event>, sha: Digest)
    requires |earlier| <= |later| && later[..|earlier|] == earlier && Position(earlier, sha).Some?
    ensures Position(later, sha) == Position(earlier, sha)
  {
    var i := Position(earlier, sha).value;
    assert forall j :: 0 <= j <= i ==> later[j] == earlier[j];
    assert later[i].sha == sha;
  }

  lemma BindingSurvives(
      env: Env, s: State, t: State, earlier: seq<Event>, later: seq<Event>, head: Digest, approval: Digest,
      completed: Option<int>)
    requires RenewedSince(earlier, later) && SameMission(s, t) && Position(earlier, head).Some?
    ensures BindingOk(env, t, later, head, approval, completed) <==> BindingOk(env, s, earlier, head, approval, completed)
  {
    hide Derive, Position;
    PositionSurvives(earlier, later, head);
    var i := Position(earlier, head).value;
    assert later[..i + 1] == earlier[..i + 1];
    assert forall j :: 0 <= j < |earlier| ==> later[j] == earlier[j];
  }

  lemma IntentSurvives(env: Env, i: Intent, s: State, t: State, earlier: seq<Event>, later: seq<Event>)
    requires RenewedSince(earlier, later) && SameMission(s, t) && IntentOk(env, i, s, earlier)
    ensures IntentOk(env, i, t, later)
  {
    hide Derive, Position, ItemsOk;
    BindingSurvives(env, s, t, earlier, later, i.head, i.approval, None);
  }

  predicate Approved(s: State) {
    && s.status.AssuranceApproved? && s.approval.Some?
    && s.approval.value.workflow == s.workflow && s.approval.value.scope == s.target
  }

  lemma LatestPosition(events: seq<Event>)
    requires events != [] && Distinct(events)
    ensures Position(events, events[|events| - 1].sha) == Some(|events| - 1)
  {
    hide Position;
    var at := Position(events, events[|events| - 1].sha);
    assert at.Some?;
  }

  /** A record bound to the ledger's own head is valid exactly when its completion time,
      if any, lies between the head's timestamp and the approval's expiry. */
  lemma CurrentBinding(env: Env, s: State, events: seq<Event>, completed: Option<int>)
    requires events != [] && Distinct(events) && Derive(env, events) == Some(s) && Approved(s)
    ensures BindingOk(env, s, events, s.head, s.approval.value.sha, completed) <==>
      (completed.Some? ==> events[|events| - 1].timestamp <= completed.value < s.approval.value.expires)
  {
    HeadIsLatest(env, events);
    hide Derive, Position;
    LatestPosition(events);
    assert events[..|events|] == events;
  }

  // ---- Placement after a complete pass ------------------------------------

  predicate DistinctKinds(items: seq<Item>) {
    forall i, j :: 0 <= i < j < |items| ==> items[i].kind != items[j].kind
  }

  predicate Concerns(item: Item, p: Path) { (p.Source? || p.Destination?) && p.kind == item.kind }

  lemma MoveItemFrame(env: Env, d: Disk, item: Item, budget: nat, p: Path)
    requires item.source == Source(item.kind) && item.destination == Destination(item.kind) && !Concerns(item, p)
    ensures var after := MoveItem(env, d, item, budget).disk.files;
      (p in after <==> p in d.files) && (p in d.files ==> after[p] == d.files[p])
  {
  }

  lemma {:induction false} MoveAllFrame(env: Env, d: Disk, items: seq<Item>, budget: nat, p: Path)
    requires Addressed(items) && forall i :: 0 <= i < |items| ==> !Concerns(items[i], p)
    ensures var after := MoveAll(env, d, items, budget).disk.files;
      (p in after <==> p in d.files) && (p in d.files ==> after[p] == d.files[p])
    decreases items
  {
    if items != [] {
      var r := MoveItem(env, d, items[0], budget);
      MoveItemFrame(env, d, items[0], budget, p);
      if r.progress.Going? {
        MoveAllFrame(env, r.disk, items[1..], r.budget, p);
      }
    }
  }

  lemma MoveItemPlaces(env: Env, d: Disk, item: Item, budget: nat)
    requires item.source == Source(item.kind) && item.destination == Destination(item.kind)
    requires MoveItem(env, d, item, budget).progress.Going?
    ensures PlacedOk(env, MoveItem(env, d, item, budget).disk.files, item)
  {
  }

  lemma {:induction false} MoveAllPlaces(env: Env, d: Disk, items: seq<Item>, budget: nat)
    requires Addressed(items) && DistinctKinds(items)
    requires MoveAll(env, d, items, budget).progress.Going?
    ensures forall i :: 0 <= i < |items| ==> PlacedOk(env, MoveAll(env, d, items, budget).disk.files, items[i])
    decreases items
  {
    hide PlacedOk, MoveItem;
    if items != [] {
      var r := MoveItem(env, d, items[0], budget);
      var after := MoveAll(env, d, items, budget).disk.files;
      MoveItemPlaces(env, d, items[0], budget);
      MoveAllPlaces(env, r.disk, items[1..], r.budget);
      MoveAllFrame(env, r.disk, items[1..], r.budget, items[0].source);
      MoveAllFrame(env, r.disk, items[1..], r.budget, items[0].destination);
      PlacedFrame(env, r.disk.files, after, items[0]);
      forall i | 0 <= i < |items| ensures PlacedOk(env, after, items[i]) {
        if i > 0 {
          assert items[i] == items[1..][i - 1];
        }
      }
    }
  }

  lemma PlacedFrame(env: Env, before: Files, after: Files, item: Item)
    requires PlacedOk(env, before, item)
    requires item.source in after <==> item.source in before
    requires item.destination in after <==> item.destination in before
    requires item.destination in before ==> after[item.destination] == before[item.destination]
    ensures PlacedOk(env, after, item)
  {
  }

  lemma InventoryIsDistinct(items: seq<Item>)
    requires ItemsOk(items)
    ensures Addressed(items) && DistinctKinds(items)
  {
  }

  predicate NoStrays(files: Files) { forall p :: p in files ==> !p.Stray? }

  lemma ConservedStrays(a: Files, b: Files)
    requires SameContents(a, b)
    ensures NoStrays(a) <==> NoStrays(b)
  {
    hide Holding;
    forall p: Path | p.Stray? ensures p in a <==> p in b {
    }
  }

  // ---- The minted receipt -------------------------------------------------

  lemma MintedLayout(env: Env, d: Disk, intent: Intent, s: State, clock: Clock, budget: nat)
    requires s.approval.Some? && intent.items.Some?
    requires Finish(env, d, intent, s, clock, budget).progress.Done?
    ensures ItemsOk(intent.items.value)
    ensures var after := Finish(env, d, intent, s, clock, budget).disk;
      && (LayoutOk(env, after.files, intent.items.value) <==> NoStrays(d.files))
      && after.intent == d.intent
      && after.receipt == Some(Canonical(ReceiptOf(env, intent, s, clock.completion)))
      && clock.completion < s.approval.value.expires
  {
    var items := intent.items.value;
    ManifestGoesLast(items);
    InventoryIsDistinct(items);
    hide MoveAll, ItemsOk, PlacedOk, Ordered, Holding, ReceiptOf;
    MoveAllConserves(env, d, items, budget);
    MoveAllPlaces(env, d, items, budget);
    ConservedStrays(d.files, MoveAll(env, d, items, budget).disk.files);
  }

  ghost predicate Minted(env: Env, intent: Intent, s: State, before: Disk, clock: Clock, after: Disk)
    requires s.approval.Some?
  {
    && after.intent.Some? && after.intent.value.Canonical?
    && var final := after.intent.value.record;
       && final.items.Some? && ItemsOk(final.items.value)
       && final == intent.(status := Committing, items := final.items)
       && after.receipt == Some(Canonical(ReceiptOf(env, final, s, clock.completion)))
       && clock.completion < s.approval.value.expires
       && (LayoutOk(env, after.files, final.items.value) <==> NoStrays(before.files))
  }

  lemma BeginMints(env: Env, d: Disk, intent: Intent, s: State, clock: Clock, budget: nat)
    requires s.approval.Some? && (intent.status.Committing? ==> intent.items.Some?)
    requires d.intent == Some(Canonical(intent))
    requires Begin(env, d, intent, s, clock, budget).progress.Done?
    ensures Minted(env, intent, s, d, clock, Begin(env, d, intent, s, clock, budget).disk)
  {
    hide Finish, ItemsOk, LayoutOk, NoStrays, Snapshot, ReceiptOf;
    if intent.status.Committing? {
      MintedLayout(env, d, intent, s, clock, budget);
    } else {
      GateIsNeverDone(env, d.files, s);
      var committing := intent.(status := Committing, items := Some(Snapshot(env, d.files)));
      MintedLayout(env, Write(d, committing), committing, s, clock, budget - 1);
    }
  }

  lemma GateIsNeverDone(env: Env, files: Files, s: State)
    ensures !Gate(env, files, s).Done?
  {
  }

  lemma ContinueMints(env: Env, d: Disk, s: State, events: seq<Event>, clock: Clock, budget: nat)
    requires s.approval.Some? && Continue(env, d, s, events, clock, budget).progress.Done?
    ensures d.intent.Some? && d.intent.value.Canonical? && IntentOk(env, d.intent.value.record, s, events)
    ensures Minted(env, Rebind(d.intent.value.record, s), s, d, clock, Continue(env, d, s, events, clock, budget).disk)
  {
    hide Begin, IntentOk;
    var intent := d.intent.value.record;
    CommittingIntentHasItems(env, intent, s, events);
    if Rebind(intent, s) == intent {
      BeginMints(env, d, intent, s, clock, budget);
    } else {
      BeginMints(env, Write(d, Rebind(intent, s)), Rebind(intent, s), s, clock, budget - 1);
    }
  }

  lemma BoundLedger(env: Env, i: Intent, s: State, events: seq<Event>)
    requires IntentOk(env, i, s, events)
    ensures events != []
  {
    hide Derive;
  }

  lemma MintedValidates(
      env: Env, intent: Intent, before: Disk, s: State, events: seq<Event>, clock: Clock, after: Disk,
      t: State, later: seq<Event>)
    requires events != [] && Distinct(events) && Derive(env, events) == Some(s) && Approved(s)
    requires IntentOk(env, intent, s, events) && Minted(env, Rebind(intent, s), s, before, clock, after)
    requires RenewedSince(events, later) && SameMission(s, t)
    ensures IntentOk(env, after.intent.value.record, t, later)
    ensures ReplayOk(env, after, t, later) <==>
      NoStrays(before.files) && events[|events| - 1].timestamp <= clock.completion
  {
    CurrentBinding(env, s, events, None);
    CurrentBinding(env, s, events, Some(clock.completion));
    HeadIsLatest(env, events);
    LatestPosition(events);
    BindingSurvives(env, s, t, events, later, s.head, s.approval.value.sha, None);
    BindingSurvives(env, s, t, events, later, s.head, s.approval.value.sha, Some(clock.completion));
    hide Derive, Position, ItemsOk, LayoutOk, NoStrays, BindingOk, Distinct, RenewedSince, Approved;
  }

  /** A commit that writes a receipt checks its completion time against the approval's
      expiry but not against the ledger head. The receipt and its intent therefore validate
      under every later renewal exactly when the clock was not behind the head (and
      main-runtime held no foreign entry). */
  lemma MintedReceiptValidates(
      env: Env, d: Disk, events: seq<Event>, clock: Clock, budget: nat, later: seq<Event>)
    requires d.receipt.None? && Distinct(events)
    requires Commit(env, d, events, clock, budget).progress.Done?
    requires RenewedSince(events, later) && Derive(env, later).Some?
    ensures Commit(env, d, events, clock, budget).disk.receipt.Some?
    ensures events != []
    ensures ReplayOk(env, Commit(env, d, events, clock, budget).disk, Derive(env, later).value, later) <==>
      NoStrays(d.files) && events[|events| - 1].timestamp <= clock.completion
  {
    RenewalsKeepMission(env, events, later);
    var s := Derive(env, events).value;
    hide Derive, Continue, IntentOk, ReplayOk, NoStrays, Distinct, RenewedSince;
    ContinueMints(env, d, s, events, clock, budget);
    BoundLedger(env, d.intent.value.record, s, events);
    MintedValidates(env, d.intent.value.record, d, s, events, clock, Commit(env, d, events, clock, budget).disk,
                    Derive(env, later).value, later);
  }

  // ---- Order of the moves: a prefix has moved -----------------------------

  function Rank(k: Kind): (r: nat)
    ensures r < |FILES| && FILES[r] == k
  {
    match k
    case PhaseState => 0
    case Ledger => 1
    case Dialogue => 2
    case DialogueControl => 3
    case AssuranceControl => 4
    case VerificationReceipt => 5
    case AssuranceReceipt => 6
    case Manifest => 7
  }

  lemma RankOfListed(i: nat)
    requires i < |FILES|
    ensures Rank(FILES[i]) == i
  {
  }

  function Relocate(files: Files, k: Kind): Files {
    if Source(k) in files then Rename(files, Source(k), Destination(k)) else files
  }

  /** The store after the first `m` listed kinds have moved. */
  function Shift(files: Files, m: nat): Files
    requires m <= |FILES|
  {
    if m == 0 then files else Relocate(Shift(files, m - 1), FILES[m - 1])
  }

  ghost predicate ShiftedAt(origin: Files, files: Files, m: nat, p: Path) {
    match p
    case Source(k) =>
      && (p in files <==> p in origin && Rank(k) >= m)
      && (p in files ==> files[p] == origin[p])
    case Destination(k) =>
      && (p in files <==> Source(k) in origin && Rank(k) < m)
      && (p in files ==> files[p] == origin[Source(k)])
    case _ => (p in files <==> p in origin) && (p in files ==> files[p] == origin[p])
  }

  lemma {:induction false} ShiftContents(origin: Files, m: nat, p: Path)
    requires m <= |FILES| && DestinationEmpty(origin)
    ensures ShiftedAt(origin, Shift(origin, m), m, p)
  {
    if m > 0 {
      ShiftContents(origin, m - 1, p);
      ShiftContents(origin, m - 1, Source(FILES[m - 1]));
      RankOfListed(m - 1);
      RelocateStep(origin, Shift(origin, m - 1), m, p);
    }
  }

  lemma RelocateStep(origin: Files, files: Files, m: nat, p: Path)
    requires 0 < m <= |FILES| && Rank(FILES[m - 1]) == m - 1
    requires ShiftedAt(origin, files, m - 1, p) && ShiftedAt(origin, files, m - 1, Source(FILES[m - 1]))
    ensures ShiftedAt(origin, Relocate(files, FILES[m - 1]), m, p)
  {
    if p.Source? || p.Destination? {
      assert FILES[Rank(p.kind)] == p.kind;
    }
  }

  lemma MoveListed(env: Env, origin: Files, d: Disk, j: nat, m: nat, budget: nat)
    requires j <= m <= |FILES| && j < |FILES| && DestinationEmpty(origin) && d.files == Shift(origin, m)
    ensures var r := MoveItem(env, d, Describe(env, origin, FILES[j]), budget);
      if j < m then r == Run(d, budget, Going)
      else if Source(FILES[j]) !in origin then r == Run(d, budget, Going) && Shift(origin, m + 1) == Shift(origin, m)
      else if budget == 0 then r == Run(d, 0, Stopped)
      else r == Run(d.(files := Shift(origin, m + 1)), budget - 1, Going)
  {
    ShiftContents(origin, m, Source(FILES[j]));
    ShiftContents(origin, m, Destination(FILES[j]));
    RankOfListed(j);
  }

  lemma {:induction false} MoveFrom(env: Env, origin: Files, d: Disk, j: nat, m: nat, budget: nat) returns (end: nat)
    requires j <= m <= |FILES| && DestinationEmpty(origin) && d.files == Shift(origin, m)
    ensures m <= end <= |FILES|
    ensures var r := MoveAll(env, d, Snapshot(env, origin)[j..], budget);
      && r.disk == d.(files := Shift(origin, end))
      && (r.progress.Going? || r.progress.Stopped?)
      && (r.progress.Going? ==> end == |FILES|)
      && (budget >= |FILES| - m ==> r.progress.Going? && r.budget >= budget - (|FILES| - m))
    decreases |FILES| - j
  {
    hide Shift, MoveItem, Describe;
    var items := Snapshot(env, origin);
    if j == |FILES| {
      end := m;
    } else {
      MoveListed(env, origin, d, j, m, budget);
      assert items[j..][0] == Describe(env, origin, FILES[j]);
      assert items[j..][1..] == items[j + 1..];
      var r := MoveItem(env, d, items[j], budget);
      if r.progress.Going? {
        end := MoveFrom(env, origin, r.disk, j + 1, if j < m then m else m + 1, r.budget);
      } else {
        end := m;
      }
    }
  }

  /** A store in which a handoff of `origin` is under way and its first `m` kinds have moved. */
  ghost predicate UnderwayAt(env: Env, origin: Files, events: seq<Event>, d: Disk, m: nat) {
    && m <= |FILES| && d.receipt.None? && d.files == Shift(origin, m)
    && d.intent.Some? && d.intent.value.Canonical?
    && Derive(env, events).Some?
    && Gate(env, origin, Derive(env, events).value).Going?
    && var i := d.intent.value.record;
       && IntentOk(env, i, Derive(env, events).value, events)
       && (i.status.Prepared? ==> m == 0)
       && (i.status.Committing? ==> i.items == Some(Snapshot(env, origin)))
  }

  /** A completed handoff of `origin`: everything moved, and every validator accepts. */
  ghost predicate Finished(env: Env, origin: Files, events: seq<Event>, d: Disk) {
    && d.files == Shift(origin, |FILES|)
    && Derive(env, events).Some? && d.receipt.Some?
    && ReplayOk(env, d, Derive(env, events).value, events)
  }

  ghost predicate Reached(env: Env, origin: Files, events: seq<Event>, d: Disk) {
    Finished(env, origin, events, d) || exists m :: UnderwayAt(env, origin, events, d, m)
  }

  /** In every state a crash can leave, each present file is at exactly one of its two places
      with the digest and size its item records, each absent file is at neither, and the
      manifest has moved only if every other file has. */
  lemma CrashStatesAreRecoverable(env: Env, origin: Files, events: seq<Event>, d: Disk, m: nat, k: Kind)
    requires UnderwayAt(env, origin, events, d, m)
    ensures
      var item := Describe(env, origin, k);
      if item.present then
        && (item.source in d.files <==> item.destination !in d.files)
        && Matches(env, item, d.files[if item.source in d.files then item.source else item.destination])
      else item.source !in d.files && item.destination !in d.files
    ensures Destination(Manifest) in d.files ==> Source(k) !in d.files
    ensures Source(k) !in d.files && Source(k) in origin ==> d.intent.value.record.status.Committing?
  {
    hide Shift, Derive, BindingOk, Snapshot;
    ShiftContents(origin, m, Source(k));
    ShiftContents(origin, m, Destination(k));
    ShiftContents(origin, m, Destination(Manifest));
  }

  lemma GateSurvives(env: Env, origin: Files, s: State, t: State)
    requires SameMission(s, t)
    ensures Gate(env, origin, t) == Gate(env, origin, s)
  {
  }

  lemma GateOpens(env: Env, origin: Files, s: State)
    requires Gate(env, origin, s).Going?
    ensures DestinationEmpty(origin) && HasRequired(origin) && NoStrays(origin)
  {
  }

  predicate Live(s: State, env: Env, clock: Clock) {
    && CheckMission(env, s, clock.entry).Fine? && CheckMission(env, s, clock.recheck).Fine?
    && s.approval.Some? && clock.completion < s.approval.value.expires
  }

  const STEPS: nat := |FILES| + 3

  lemma SealResumes(env: Env, origin: Files, d: Disk, intent: Intent, s: State, clock: Clock, budget: nat)
    requires s.approval.Some? && intent.items.Some?
    requires DestinationEmpty(origin) && d.files == Shift(origin, |FILES|)
    ensures var r := Seal(env, d, intent, s, clock, budget);
      && (r.progress.Done? || r.disk == d)
      && (Live(s, env, clock) && budget > 0 ==> r.progress.Done?)
  {
    ShiftContents(origin, |FILES|, Source(Manifest));
  }

  lemma FinishResumes(env: Env, origin: Files, d: Disk, intent: Intent, s: State, clock: Clock, budget: nat, m: nat)
    returns (end: nat)
    requires s.approval.Some? && intent.items == Some(Snapshot(env, origin))
    requires m <= |FILES| && DestinationEmpty(origin) && HasRequired(origin) && d.files == Shift(origin, m)
    ensures m <= end <= |FILES|
    ensures var r := Finish(env, d, intent, s, clock, budget);
      && r.disk.files == Shift(origin, end)
      && (r.progress.Done? ==> end == |FILES|)
      && (!r.progress.Done? ==> r.disk == d.(files := Shift(origin, end)))
      && (Live(s, env, clock) && budget > |FILES| ==> r.progress.Done?)
  {
    hide Shift, MoveAll, Ordered, ItemsOk, Seal, Live;
    var items := Snapshot(env, origin);
    ManifestGoesLast(items);
    assert items[0..] == items;
    end := MoveFrom(env, origin, d, 0, m, budget);
    var r := MoveAll(env, d, items, budget);
    if r.progress.Going? {
      SealResumes(env, origin, r.disk, intent, s, clock, r.budget);
      SealKeepsFiles(env, r.disk, intent, s, clock, r.budget);
    }
  }

  /** What one commit leaves behind, in terms of the intent it started from. */
  ghost predicate Resumed(env: Env, origin: Files, intent: Intent, d: Disk, r: Run) {
    if r.progress.Done? then r.disk.files == Shift(origin, |FILES|)
    else
      && r.disk.receipt == d.receipt
      && r.disk.intent.Some? && r.disk.intent.value.Canonical?
      && var i := r.disk.intent.value.record;
         if i.status.Prepared? then i == intent && r.disk.files == Shift(origin, 0)
         else
           && i == intent.(status := Committing, items := Some(Snapshot(env, origin)))
           && Partway(origin, r.disk.files)
  }

  ghost predicate Partway(origin: Files, files: Files) {
    exists m: nat :: m <= |FILES| && files == Shift(origin, m)
  }

  lemma BeginResumes(env: Env, origin: Files, d: Disk, intent: Intent, s: State, clock: Clock, budget: nat, m: nat)
    requires s.approval.Some? && Gate(env, origin, s).Going?
    requires m <= |FILES| && d.files == Shift(origin, m) && d.intent == Some(Canonical(intent))
    requires intent.status.Committing? || (intent.status.Prepared? && m == 0)
    requires intent.status.Committing? ==> intent.items == Some(Snapshot(env, origin))
    ensures Resumed(env, origin, intent, d, Begin(env, d, intent, s, clock, budget))
    ensures Live(s, env, clock) && budget > |FILES| + 1 ==> Begin(env, d, intent, s, clock, budget).progress.Done?
  {
    GateOpens(env, origin, s);
    assert m == 0 ==> d.files == origin;
    hide Shift, Finish, Gate, Snapshot, Live;
    if intent.status.Committing? {
      var end := FinishResumes(env, origin, d, intent, s, clock, budget, m);
    } else if budget > 0 {
      var committing := intent.(status := Committing, items := Some(Snapshot(env, origin)));
      var end := FinishResumes(env, origin, Write(d, committing), committing, s, clock, budget - 1, 0);
    }
  }

  lemma ContinueResumes(
      env: Env, origin: Files, d: Disk, s: State, events: seq<Event>, clock: Clock, budget: nat, m: nat)
    requires UnderwayAt(env, origin, events, d, m) && Derive(env, events) == Some(s) && s.approval.Some?
    ensures var r := Continue(env, d, s, events, clock, budget);
      && (r.disk != d || r.progress.Done? ==> Resumed(env, origin, Rebind(d.intent.value.record, s), d, r))
      && (Live(s, env, clock) && budget >= STEPS ==> r.progress.Done?)
  {
    hide Begin, Resumed, Live, Gate, BindingOk, Shift, Derive, Snapshot, ItemsOk;
    var intent := d.intent.value.record;
    if Rebind(intent, s) == intent {
      BeginResumes(env, origin, d, intent, s, clock, budget, m);
    } else if budget > 0 {
      var to := Write(d, Rebind(intent, s));
      BeginResumes(env, origin, to, Rebind(intent, s), s, clock, budget - 1, m);
      ResumedFromSameReceipt(env, origin, Rebind(intent, s), to, d, Begin(env, to, Rebind(intent, s), s, clock, budget - 1));
    }
  }

  lemma ResumedFromSameReceipt(env: Env, origin: Files, intent: Intent, d: Disk, e: Disk, r: Run)
    requires d.receipt == e.receipt && Resumed(env, origin, intent, d, r)
    ensures Resumed(env, origin, intent, e, r)
  {
  }

  lemma RebindIsValid(env: Env, origin: Files, i: Intent, s: State, events: seq<Event>)
    requires IntentOk(env, i, s, events) && Derive(env, events) == Some(s) && Approved(s) && Distinct(events)
    requires HasRequired(origin)
    ensures IntentOk(env, Rebind(i, s), s, events)
    ensures IntentOk(env, Rebind(i, s).(status := Committing, items := Some(Snapshot(env, origin))), s, events)
  {
    BoundLedger(env, i, s, events);
    CurrentBinding(env, s, events, None);
    hide BindingOk, Derive, ItemsOk, HasRequired, Distinct, Approved;
  }

  lemma ResumedIsUnderway(env: Env, origin: Files, d: Disk, s: State, events: seq<Event>, r: Run, m: nat)
    requires UnderwayAt(env, origin, events, d, m) && Derive(env, events) == Some(s) && Approved(s) && Distinct(events)
    requires !r.progress.Done? && Resumed(env, origin, Rebind(d.intent.value.record, s), d, r)
    ensures Reached(env, origin, events, r.disk)
  {
    hide Derive, Shift, Gate, IntentOk, Distinct, Snapshot, HasRequired;
    GateOpens(env, origin, s);
    RebindIsValid(env, origin, d.intent.value.record, s, events);
    var i := r.disk.intent.value.record;
    if i.status.Prepared? {
      PreparedStaysAtStart(env, d.intent.value.record, s, events);
      assert UnderwayAt(env, origin, events, r.disk, 0);
    } else {
      var end: nat :| end <= |FILES| && r.disk.files == Shift(origin, end);
      assert UnderwayAt(env, origin, events, r.disk, end);
    }
  }

  lemma PreparedStaysAtStart(env: Env, i: Intent, s: State, events: seq<Event>)
    requires IntentOk(env, i, s, events) && s.approval.Some?
    ensures Rebind(i, s).status.Prepared? || Rebind(i, s).status.Committing?
    ensures Rebind(i, s).status.Prepared? ==> Rebind(i, s).items.None?
  {
  }

  lemma UnderwaySurvives(env: Env, origin: Files, events: seq<Event>, later: seq<Event>, d: Disk, m: nat)
    requires UnderwayAt(env, origin, events, d, m) && RenewedSince(events, later) && Derive(env, later).Some?
    ensures UnderwayAt(env, origin, later, d, m)
  {
    RenewalsKeepMission(env, events, later);
    var s, t := Derive(env, events).value, Derive(env, later).value;
    IntentSurvives(env, d.intent.value.record, s, t, events, later);
    GateSurvives(env, origin, s, t);
    hide Derive, IntentOk, Gate, Shift, RenewedSince, SameMission;
  }

  lemma FinishedSurvives(env: Env, origin: Files, events: seq<Event>, later: seq<Event>, d: Disk)
    requires Finished(env, origin, events, d) && RenewedSince(events, later) && Derive(env, later).Some?
    ensures Finished(env, origin, later, d)
  {
    RenewalsKeepMission(env, events, later);
    var s, t := Derive(env, events).value, Derive(env, later).value;
    var i, r := d.intent.value.record, d.receipt.value.record;
    IntentSurvives(env, i, s, t, events, later);
    BindingSurvives(env, s, t, events, later, r.head, r.approval, Some(r.completedAt));
    hide Derive, Position, IntentOk, Shift, BindingOk, LayoutOk, ItemsOk, RenewedSince, SameMission;
  }

  lemma FitMissionIsApproved(env: Env, s: State, now: int)
    requires CheckMission(env, s, now).Fine?
    ensures Approved(s)
  {
  }

  predicate ClockAhead(events: seq<Event>, clock: Clock) {
    events != [] ==> events[|events| - 1].timestamp <= clock.completion
  }

  lemma ShiftHasNoStrays(origin: Files, m: nat)
    requires m <= |FILES| && DestinationEmpty(origin)
    ensures NoStrays(Shift(origin, m))
  {
    hide Shift;
    forall p | p in Shift(origin, m) ensures !p.Stray? {
      ShiftContents(origin, m, p);
    }
  }

  /** One more commit, stopped anywhere, keeps the handoff recoverable; with a live approval
      and enough steps it completes it. */
  lemma AttemptKeepsReach(env: Env, origin: Files, events: seq<Event>, d: Disk, clock: Clock, budget: nat)
    requires Reached(env, origin, events, d) && Distinct(events) && ClockAhead(events, clock)
    ensures Reached(env, origin, events, Commit(env, d, events, clock, budget).disk)
    ensures Live(Derive(env, events).value, env, clock) && budget >= STEPS ==>
      var r := Commit(env, d, events, clock, budget);
      r.progress.Done? && Finished(env, origin, events, r.disk)
  {
    var s := Derive(env, events).value;
    if !Finished(env, origin, events, d) {
      var m :| UnderwayAt(env, origin, events, d, m);
      UnderwayAttempt(env, origin, events, d, clock, budget, m);
    }
  }

  lemma UnderwayAttempt(env: Env, origin: Files, events: seq<Event>, d: Disk, clock: Clock, budget: nat, m: nat)
    requires UnderwayAt(env, origin, events, d, m) && Distinct(events) && ClockAhead(events, clock)
    ensures var r := Commit(env, d, events, clock, budget);
      && Reached(env, origin, events, r.disk)
      && (r.progress.Done? ==> Finished(env, origin, events, r.disk))
      && (Live(Derive(env, events).value, env, clock) && budget >= STEPS ==> r.progress.Done?)
  {
    hide Derive, Continue, Gate, Shift, IntentOk, ReplayOk, Distinct, Approved, NoStrays;
    var s := Derive(env, events).value;
    var r := Commit(env, d, events, clock, budget);
    if CheckMission(env, s, clock.entry).Fine? {
      FitMissionIsApproved(env, s, clock.entry);
      ContinueResumes(env, origin, d, s, events, clock, budget, m);
      if r.progress.Done? {
        GateOpens(env, origin, s);
        ShiftHasNoStrays(origin, m);
        assert events[..|events|] == events;
        MintedReceiptValidates(env, d, events, clock, budget, events);
      } else if r.disk != d {
        ResumedIsUnderway(env, origin, d, s, events, r, m);
      }
    }
  }

  // ---- Any number of crashes and renewals ---------------------------------

  datatype Attempt = Attempt(events: seq<Event>, clock: Clock, budget: nat)

  function Retry(env: Env, d: Disk, attempts: seq<Attempt>): Disk
    decreases attempts
  {
    if attempts == [] then d
    else Retry(env, Commit(env, d, attempts[0].events, attempts[0].clock, attempts[0].budget).disk, attempts[1..])
  }

  /** Each attempt sees the ledger of the one before it, extended by renewals only. */
  ghost predicate Lineage(env: Env, events: seq<Event>, attempts: seq<Attempt>)
    decreases attempts
  {
    attempts == [] ||
    (var a := attempts[0];
     && RenewedSince(events, a.events) && Derive(env, a.events).Some? && Distinct(a.events)
     && ClockAhead(a.events, a.clock)
     && Lineage(env, a.events, attempts[1..]))
  }

  function Last(attempts: seq<Attempt>): Attempt
    requires attempts != []
  {
    attempts[|attempts| - 1]
  }

  lemma {:induction false} RetriesKeepReach(env: Env, origin: Files, events: seq<Event>, d: Disk, attempts: seq<Attempt>)
    requires attempts != [] && Reached(env, origin, events, d) && Lineage(env, events, attempts)
    ensures Reached(env, origin, Last(attempts).events, Retry(env, d, attempts))
    ensures
      var a := Last(attempts);
      Derive(env, a.events).Some?
      && (Live(Derive(env, a.events).value, env, a.clock) && a.budget >= STEPS ==>
            Finished(env, origin, a.events, Retry(env, d, attempts)))
    decreases attempts
  {
    hide Commit, Derive, Reached, Finished, Live, RenewedSince, ClockAhead, Distinct;
    var a := attempts[0];
    var to := Commit(env, d, a.events, a.clock, a.budget).disk;
    ReachSurvives(env, origin, events, a.events, d);
    AttemptKeepsReach(env, origin, a.events, d, a.clock, a.budget);
    if |attempts| > 1 {
      assert Last(attempts[1..]) == Last(attempts);
      RetriesKeepReach(env, origin, a.events, to, attempts[1..]);
    } else {
      assert attempts[1..] == [];
      assert Retry(env, to, []) == to;
    }
  }

  lemma ReachSurvives(env: Env, origin: Files, events: seq<Event>, later: seq<Event>, d: Disk)
    requires Reached(env, origin, events, d) && RenewedSince(events, later) && Derive(env, later).Some?
    ensures Reached(env, origin, later, d)
  {
    if Finished(env, origin, events, d) {
      FinishedSurvives(env, origin, events, later, d);
    } else {
      var m :| UnderwayAt(env, origin, events, d, m);
      UnderwaySurvives(env, origin, events, later, d, m);
    }
  }

  /** Whatever crashes and renewals came before, a final attempt under a live approval ends
      with every validator accepting and the files of an uninterrupted run. */
  lemma CrashesConverge(env: Env, events: seq<Event>, d: Disk, attempts: seq<Attempt>, direct: Attempt)
    requires Lineage(env, events, attempts) && attempts != [] && Lineage(env, events, [direct])
    requires UnderwayAt(env, d.files, events, d, 0)
    requires forall a :: a == Last(attempts) || a == direct ==>
      Derive(env, a.events).Some? && Live(Derive(env, a.events).value, env, a.clock) && a.budget >= STEPS
    ensures Retry(env, d, attempts).files == Retry(env, d, [direct]).files
    ensures Finished(env, d.files, Last(attempts).events, Retry(env, d, attempts))
    ensures forall k :: Source(k) in d.files ==>
      var after := Retry(env, d, attempts).files;
      Source(k) !in after && Destination(k) in after && after[Destination(k)] == d.files[Source(k)]
  {
    RetriesKeepReach(env, d.files, events, d, attempts);
    RetriesKeepReach(env, d.files, events, d, [direct]);
    GateOpens(env, d.files, Derive(env, events).value);
    forall k | Source(k) in d.files ensures
      var after := Retry(env, d, attempts).files;
      Source(k) !in after && Destination(k) in after && after[Destination(k)] == d.files[Source(k)]
    {
      ShiftContents(d.files, |FILES|, Source(k));
      ShiftContents(d.files, |FILES|, Destination(k));
    }
  }

  // ---- A clock behind the ledger ------------------------------------------

  /** A clock behind the ledger head goes unnoticed when the receipt is minted, and the
      receipt then fails validation for ever. */
  lemma ClockBehindHeadIsNotNoticed(
      env: Env, origin: Files, events: seq<Event>, d: Disk, clock: Clock, budget: nat, m: nat, later: seq<Event>)
    requires UnderwayAt(env, origin, events, d, m) && Distinct(events)
    requires Live(Derive(env, events).value, env, clock) && budget >= STEPS && !ClockAhead(events, clock)
    requires RenewedSince(events, later) && Derive(env, later).Some?
    ensures Commit(env, d, events, clock, budget).progress.Done?
    ensures !ReplayOk(env, Commit(env, d, events, clock, budget).disk, Derive(env, later).value, later)
  {
    hide Derive, Continue, Gate, Shift, IntentOk, ReplayOk, Distinct, RenewedSince, NoStrays;
    ContinueResumes(env, origin, d, Derive(env, events).value, events, clock, budget, m);
    MintedReceiptValidates(env, d, events, clock, budget, later);
  }

  function ExampleEnv(): Env {
    Env("feature", "mission", b => |b|,
        b => Some(ManifestRecord("feature", "mission", "autonomous", "repo", 2, "preset", "ws", "quiesced", "1")),
        b => true, Some(Compiled(1, 2, "preset")),
        State("mission", "feature", AssuranceApproved, false, Some(Approval(true, 1, "repo", 7, 100)),
              1, 2, "repo", 0, true, true),
        (s, e) => Some(s))
  }

  /** Such a run exists: a head stamped 50, an approval expiring at 100, a clock at 10. */
  lemma ClockBehindHeadHappens()
    ensures
      var env, events := ExampleEnv(), [Event(OtherEvent("recorded"), 9, 50, 0)];
      exists d: Disk, clock: Clock ::
        && d.receipt.None? && Derive(env, events).Some?
        && Commit(env, d, events, clock, STEPS).progress.Done?
        && !ReplayOk(env, Commit(env, d, events, clock, STEPS).disk, Derive(env, events).value, events)
  {
    var env, events := ExampleEnv(), [Event(OtherEvent("recorded"), 9, 50, 0)];
    var files: Files := map[Source(PhaseState) := [], Source(Ledger) := [], Source(Manifest) := []];
    var intent := Intent(SCHEMA_VERSION, Prepared, "feature", "mission", 9, 7, "ws", FILES, None);
    var d, clock := Disk(files, Some(Canonical(intent)), None), Clock(10, 10, 10);
    var s := env.start.(head := 9);
    ExampleLedger(env, events, s);
    hide Derive, Commit, ReplayOk, BindingOk, Distinct;
    ClockBehindHeadIsNotNoticed(env, files, events, d, clock, STEPS, 0, events);
  }

  lemma ExampleLedger(env: Env, events: seq<Event>, s: State)
    requires env == ExampleEnv() && events == [Event(OtherEvent("recorded"), 9, 50, 0)] && s == env.start.(head := 9)
    ensures Derive(env, events) == Some(s) && Distinct(events)
    ensures BindingOk(env, s, events, 9, 7, None)
  {
    assert events[..0] == [];
    assert Derive(env, []) == Some(env.start);
    CurrentBinding(env, s, events, None);
  }

  // ---- Preparing ----------------------------------------------------------

  /** The live manifest, when the fleet is the exact main fleet of an approved Mission. */
  function LiveFleet(env: Env, files: Files, s: State): Option<ManifestRecord> {
    if Source(Manifest) !in files || !HasRequired(files) || Source(PhaseState) !in files then None
    else
      match env.manifestOf(files[Source(Manifest)])
      case None => None
      case Some(m) => if ManifestOk(env, m, s) && env.phaseOk(files[Source(PhaseState)]) then Some(m) else None
  }

  function PreparedIntent(env: Env, s: State, m: ManifestRecord): Intent
    requires s.approval.Some?
  {
    Intent(SCHEMA_VERSION, Prepared, env.feature, env.mission, s.head, s.approval.value.sha, m.workspace, FILES, None)
  }

  function Prepare(env: Env, d: Disk, events: seq<Event>, now: int, budget: nat): Run {
    match Derive(env, events)
    case None => Run(d, budget, Refused)
    case Some(s) =>
      if !CheckMission(env, s, now).Fine? then Run(d, budget, Refused)
      else
        match LiveFleet(env, d.files, s)
        case None => Run(d, budget, Refused)
        case Some(m) =>
          var requested := PreparedIntent(env, s, m);
          if m.workspace == "" then Run(d, budget, Refused)
          else if d.intent.None? then
            if budget == 0 then Run(d, 0, Stopped) else Run(Write(d, requested), budget - 1, Done)
          else if d.intent.value.Garbled? || !IntentOk(env, d.intent.value.record, s, events)
          then Run(d, budget, Refused)
          else if !d.intent.value.record.status.Prepared? then Run(d, budget, Transient)
          else if Rebind(d.intent.value.record, s) != requested then Run(d, budget, Refused)
          else if d.intent.value.record == requested then Run(d, budget, Done)
          else if budget == 0 then Run(d, 0, Stopped)
          else Run(Write(d, requested), budget - 1, Done)
  }

  /** Preparing moves nothing and never disturbs a commit already begun; what it leaves starts
      a commit under every later renewal, once the fleet is quiesced. */
  lemma PreparedIntentStartsCommit(
      env: Env, d: Disk, events: seq<Event>, now: int, budget: nat, quiesced: Files, later: seq<Event>)
    requires Prepare(env, d, events, now, budget).progress.Done?
    requires events != [] && Distinct(events) && RenewedSince(events, later) && Derive(env, later).Some?
    requires Gate(env, quiesced, Derive(env, later).value).Going?
    ensures Prepare(env, d, events, now, budget).disk.files == d.files
    ensures UnderwayAt(env, quiesced, later, Disk(quiesced, Prepare(env, d, events, now, budget).disk.intent, None), 0)
  {
    var s := Derive(env, events).value;
    RenewalsKeepMission(env, events, later);
    PreparedIntentIsValid(env, d, s, events, now, budget);
    hide Derive, IntentOk, Gate, RenewedSince, Distinct, Prepare;
    var i := Prepare(env, d, events, now, budget).disk.intent.value.record;
    IntentSurvives(env, i, s, Derive(env, later).value, events, later);
  }

  lemma PreparedIntentIsValid(env: Env, d: Disk, s: State, events: seq<Event>, now: int, budget: nat)
    requires Prepare(env, d, events, now, budget).progress.Done? && Derive(env, events) == Some(s)
    requires events != [] && Distinct(events)
    ensures var after := Prepare(env, d, events, now, budget).disk;
      && after.files == d.files
      && after.intent.Some? && after.intent.value.Canonical?
      && after.intent.value.record.status.Prepared?
      && IntentOk(env, after.intent.value.record, s, events)
  {
    FitMissionIsApproved(env, s, now);
    CurrentBinding(env, s, events, None);
    hide Derive, BindingOk, LiveFleet, Distinct, Approved;
  }

  // ---- The store the program updates in place -----------------------------

  /** The read-only loops of the validators. */
  method ValidateItems(items: seq<Item>) returns (ok: bool)
    ensures ok <==> ItemsOk(items)
  {
    if |items| != |FILES| {
      return false;
    }
    var n := 0;
    while n < |FILES|
      invariant n <= |FILES|
      invariant forall i :: 0 <= i < n ==> ItemOk(items[i], FILES[i])
    {
      var item := items[n];
      if item.kind != FILES[n] || item.source != Source(FILES[n]) || item.destination != Destination(FILES[n]) {
        return false;
      }
      if item.present {
        if item.sha256.None? || item.size.None? {
          return false;
        }
      } else if item.sha256.Some? || item.size.Some? {
        return false;
      }
      if Required(FILES[n]) && !item.present {
        return false;
      }
      n := n + 1;
    }
    ok := true;
  }

  method SnapshotItems(env: Env, files: Files) returns (items: Option<seq<Item>>)
    ensures items.Some? <==> HasRequired(files)
    ensures items.Some? ==> items.value == Snapshot(env, files)
  {
    var result: seq<Item> := [];
    var n := 0;
    while n < |FILES|
      invariant n <= |FILES| && |result| == n
      invariant forall i :: 0 <= i < n && Required(FILES[i]) ==> Source(FILES[i]) in files
      invariant forall i :: 0 <= i < n ==> result[i] == Describe(env, files, FILES[i])
    {
      var source := Source(FILES[n]);
      var present := source in files;
      if Required(FILES[n]) && !present {
        return None;
      }
      result := result + [Item(
        FILES[n], source, Destination(FILES[n]), present,
        if present then Some(env.hash(files[source])) else None,
        if present then Some(|files[source]|) else None)];
      n := n + 1;
    }
    items := Some(result);
  }

  class Store {
    var files: Files
    var intent: Option<Stored<Intent>>
    var receipt: Option<Stored<Receipt>>
    var budget: nat

    function Now(): Disk
      reads this
    {
      Disk(files, intent, receipt)
    }

    constructor (d: Disk, steps: nat)
      ensures Now() == d && budget == steps
    {
      files, intent, receipt, budget := d.files, d.intent, d.receipt, steps;
    }

    method WriteIntent(i: Intent) returns (ok: bool)
      modifies this`intent, this`budget
      ensures ok == (old(budget) > 0)
      ensures Now() == (if ok then Write(old(Now()), i) else old(Now()))
      ensures budget == if ok then old(budget) - 1 else 0
    {
      ok := budget > 0;
      if ok {
        intent, budget := Some(Canonical(i)), budget - 1;
      }
    }

    method Move(env: Env, item: Item) returns (p: Progress)
      modifies this`files, this`budget
      ensures Run(Now(), budget, p) == MoveItem(env, old(Now()), item, old(budget))
    {
      var source := if item.source in files then Some(files[item.source]) else None;
      var destination := if item.destination in files then Some(files[item.destination]) else None;
      if !item.present {
        return if source.Some? || destination.Some? then Refused else Going;
      }
      if source.Some? == destination.Some? {
        return Refused;
      }
      var content := if source.Some? then source.value else destination.value;
      if item.size != Some(|content|) || item.sha256 != Some(env.hash(content)) {
        return Refused;
      }
      if source.Some? {
        if budget == 0 {
          return Stopped;
        }
        files := (files - {item.source})[item.destination := content];
        budget := budget - 1;
      }
      p := Going;
    }

    method MoveEach(env: Env, items: seq<Item>) returns (p: Progress, moved: nat)
      modifies this`files, this`budget
      ensures Run(Now(), budget, p) == MoveAll(env, old(Now()), items, old(budget))
      ensures moved <= |items|
    {
      var n := 0;
      p, moved := Going, 0;
      assert items[0..] == items;
      while n < |items| && p.Going?
        invariant n <= |items| && moved <= n
        invariant intent == old(intent) && receipt == old(receipt)
        invariant p.Going? ==> MoveAll(env, old(Now()), items, old(budget)) == MoveAll(env, Now(), items[n..], budget)
        invariant !p.Going? ==> MoveAll(env, old(Now()), items, old(budget)) == Run(Now(), budget, p)
      {
        assert items[n..][1..] == items[n + 1..];
        p := Move(env, items[n]);
        if p.Going? && items[n].present {
          moved := moved + 1;
        }
        n := n + 1;
      }
    }

    method Publish(env: Env, i: Intent, s: State, clock: Clock) returns (p: Progress)
      requires s.approval.Some? && i.items.Some?
      modifies this`receipt, this`budget
      ensures Run(Now(), budget, p) == Seal(env, old(Now()), i, s, clock, old(budget))
    {
      if Source(Manifest) in files {
        return Refused;
      }
      var verdict := CheckMission(env, s, clock.recheck);
      if !verdict.Fine? {
        return if verdict.Lapsed? then Transient else Refused;
      }
      if clock.completion >= s.approval.value.expires {
        return Transient;
      }
      if budget == 0 {
        return Stopped;
      }
      receipt := Some(Canonical(Receipt(
        SCHEMA_VERSION, Complete, env.feature, env.mission, s.head, s.approval.value.sha, i.workspace,
        clock.completion, i.items.value)));
      budget := budget - 1;
      p := Done;
    }

    method CommitLocked(env: Env, events: seq<Event>, clock: Clock) returns (p: Progress)
      modifies this
      ensures Run(Now(), budget, p) == Commit(env, old(Now()), events, clock, old(budget))
    {
      hide Derive, MoveAll, BindingOk, Seal, Ordered, Gate;
      var current := Derive(env, events);
      if current.None? {
        return Refused;
      }
      var s := current.value;
      var verdict := CheckMission(env, s, clock.entry);
      if !verdict.Fine? {
        return if verdict.Lapsed? then Transient else Refused;
      }
      if receipt.Some? {
        var valid := ReplayOk(env, Now(), s, events);
        return if valid then Done else Refused;
      }
      if intent.None? || intent.value.Garbled? || !IntentOk(env, intent.value.record, s, events) {
        return Refused;
      }
      var i := intent.value.record;
      if i.head != s.head || i.approval != s.approval.value.sha {
        i := i.(head := s.head, approval := s.approval.value.sha);
        var written := WriteIntent(i);
        if !written {
          return Stopped;
        }
      }
      assert Commit(env, old(Now()), events, clock, old(budget)) == Begin(env, Now(), i, s, clock, budget);
      p := BeginLocked(env, i, s, clock);
    }

    method BeginLocked(env: Env, bound: Intent, s: State, clock: Clock) returns (p: Progress)
      requires s.approval.Some? && (bound.status.Committing? ==> bound.items.Some?)
      requires bound.status.Prepared? || bound.status.Committing?
      modifies this
      ensures Run(Now(), budget, p) == Begin(env, old(Now()), bound, s, clock, old(budget))
    {
      hide MoveAll, Seal, Ordered, Snapshot, ItemsOk;
      var i := bound;
      if i.status.Prepared? {
        if Source(Manifest) !in files {
          return Refused;
        }
        var m := env.manifestOf(files[Source(Manifest)]);
        if m.None? || !ManifestOk(env, m.value, s) {
          return Refused;
        }
        if m.value.handoffState != "quiesced" || m.value.quiesced != "1" {
          return Transient;
        }
        if !DestinationEmpty(files) {
          return Refused;
        }
        var items := SnapshotItems(env, files);
        if items.None? {
          return Refused;
        }
        i := i.(status := Committing, items := items);
        var written := WriteIntent(i);
        if !written {
          return Stopped;
        }
      }
      var valid := ValidateItems(i.items.value);
      if !valid {
        return Refused;
      }
      var moved: nat;
      p, moved := MoveEach(env, Ordered(i.items.value));
      if p.Going? {
        p := Publish(env, i, s, clock);
      }
    }

    method PrepareLocked(env: Env, events: seq<Event>, now: int) returns (p: Progress)
      modifies this`intent, this`budget
      ensures Run(Now(), budget, p) == Prepare(env, old(Now()), events, now, old(budget))
    {
      hide Derive, BindingOk, LiveFleet;
      var current := Derive(env, events);
      if current.None? || !CheckMission(env, current.value, now).Fine? {
        return Refused;
      }
      var s := current.value;
      var live := LiveFleet(env, files, s);
      if live.None? || live.value.workspace == "" {
        return Refused;
      }
      var requested := PreparedIntent(env, s, live.value);
      if intent.Some? {
        if intent.value.Garbled? || !IntentOk(env, intent.value.record, s, events) {
          return Refused;
        }
        var existing := intent.value.record;
        if !existing.status.Prepared? {
          return Transient;
        }
        if existing.(head := requested.head, approval := requested.approval) != requested {
          return Refused;
        }
        if existing == requested {
          return Done;
        }
      }
      var written := WriteIntent(requested);
      p := if written then Done else Stopped;
    }
  }
}
