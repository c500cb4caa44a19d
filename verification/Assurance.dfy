/** The assurance controller: a hash-chained ledger of snapshots, advanced by runs, published
    messages and one phase change, under idempotency keys and a deadline. */
module Assurance {
  import opened Common

  const RUN_TIMEOUT: int := 30 * 60
  const DEADLINE: int := 2 * 60 * 60
  const CHALLENGE_PROMPT: string := "challenge.txt"
  const VERIFICATION_PROMPT: string := "verification.txt"

  datatype Instance = ChallengeInstance | VerifyInstance | LeadInstance

  datatype Stage = ChallengeStage | VerificationStage

  datatype Phase = ChallengePhase | VerifyPhase

  datatype Prompt = Prompt(directory: string, leaf: string, sha: Digest)

  datatype Expected =
    | Run(stage: Stage, instance: Instance, phase: Phase, prompt: Prompt, replyTo: string)
    | Message(stage: Stage, recipient: Instance, source: Instance, runId: string, replyTo: string, payload: Digest)
    | PhaseAdvance

  datatype Status =
    | AwaitingChallengeRun | AwaitingChallengeMessage | AwaitingPhaseAdvance
    | AwaitingVerificationRun | AwaitingVerificationMessage
    | Verified | Rejected | Failed | Blocked | Abandoned | Indeterminate

  predicate Active(s: Status) {
    || s.AwaitingChallengeRun? || s.AwaitingChallengeMessage? || s.AwaitingPhaseAdvance?
    || s.AwaitingVerificationRun? || s.AwaitingVerificationMessage?
  }

  /** The part of a snapshot every event of one assurance repeats. */
  datatype Fixed = Fixed(
    createdAt: int, deadlineAt: int, runTimeout: int, acceptedHead: string, conversation: string, controlHead: Digest,
    contextFile: string, contextSha: Digest, snapshotsFile: string, snapshotsSha: Digest,
    challengePath: string, verifyPath: string,
    contextRuns: seq<string>, contextMessages: seq<string>, verifications: seq<string>)

  datatype Snapshot = Snapshot(
    status: Status, fixed: Fixed, challengeMessage: Option<string>, verificationMessage: Option<string>,
    findings: seq<string>, expected: Option<Expected>, reason: Option<string>)

  datatype EventKind =
    | Started | RunIngested | RunTimedOut | RunAfterDeadline | RunTerminal | ContractRejected
    | ChallengePublished | AssuranceVerified | AssuranceRejected | PhaseAcknowledged
    | AssuranceAbandoned | DeadlineExpired

  datatype Request =
    | StartRequest(feature: string)
    | StepRequest(run: Option<string>, message: Option<string>, phaseAdvanced: bool)
    | AbandonRequest(reason: string)
    | DeadlineRequest(assuranceId: string)

  datatype Event = Event(
    sequence: nat, time: int, id: string, feature: string, assuranceId: string, kind: EventKind, key: string,
    request: Digest, previous: Option<Digest>, snapshot: Snapshot, sha: Digest)

  // ---- Reports ------------------------------------------------------------

  datatype Evidence = Evidence(kind: string, ref: string)

  datatype Finding = Finding(id: string, severity: string, description: string, evidence: seq<Evidence>)

  datatype Adjudication = Adjudication(id: string, disposition: string, reason: string, evidence: seq<Evidence>)

  datatype Challenge = Challenge(schema: int, summary: string, findings: seq<Finding>)

  datatype Verification = Verification(
    schema: int, verdict: string, summary: string, adjudications: seq<Adjudication>, newFindings: seq<Finding>)

  datatype Participant = Participant(
    feature: string, instance: Instance, role: string, phase: Phase, provider: string, model: string, variant: string)

  datatype RunStatus = RunSucceeded | RunFailed | RunBlocked | RunAbandoned | RunIndeterminate | RunUnfinished

  /** A lifecycle row: who ran, on which prompt, in which state, when. */
  datatype Row = Row(who: Participant, task: Digest, status: RunStatus, time: int)

  datatype Manifest = Manifest(participant: (Instance, Phase) -> Participant, target: string)

  /** A published message whose stored payload has passed its own digest check. */
  datatype Published = Published(
    stage: Stage, recipient: Instance, source: Instance, runId: string, replyTo: string, payload: Bytes)

  /** Hashing, name formats, report decoding and the repository behind file evidence. */
  datatype Env = Env(
    feature: string, eventHash: Event -> Digest, requestHash: Request -> Digest, payloadHash: Bytes -> Digest,
    keyOk: string -> bool, uuidOk: string -> bool, runIdOk: string -> bool, deadlineKey: string -> string,
    challengeOf: (Bytes, string) -> Option<Challenge>, verificationOf: (Bytes, string) -> Option<Verification>,
    fileOk: (string, string, string) -> bool)

  /** Characters Python strips: Unicode white space and the four separator controls. */
  predicate Blank(c: char) {
    var n := c as int;
    || 0x09 <= n <= 0x0D || 0x1C <= n <= 0x20 || n == 0x85 || n == 0xA0 || n == 0x1680 || 0x2000 <= n <= 0x200A
    || n == 0x2028 || n == 0x2029 || n == 0x202F || n == 0x205F || n == 0x3000
  }

  predicate NonBlank(s: string) { exists i :: 0 <= i < |s| && !Blank(s[i]) }

  predicate DistinctStrings(s: seq<string>) {
    forall i, j :: 0 <= i < j < |s| ==> s[i] != s[j]
  }

  predicate EvidenceListed(e: seq<Evidence>) {
    e != [] && forall i :: 0 <= i < |e| ==> e[i].kind in {"file", "test", "run", "message"} && NonBlank(e[i].ref)
  }

  function IdsOf(f: seq<Finding>): (ids: seq<string>)
    ensures |ids| == |f| && forall i :: 0 <= i < |f| ==> ids[i] == f[i].id
  {
    seq(|f|, i requires 0 <= i < |f| => f[i].id)
  }

  predicate FindingOk(f: Finding) {
    && NonBlank(f.id) && f.severity in {"low", "medium", "high", "critical"}
    && NonBlank(f.description) && EvidenceListed(f.evidence)
  }

  predicate FindingsOk(f: seq<Finding>) {
    (forall i :: 0 <= i < |f| ==> FindingOk(f[i])) && DistinctStrings(IdsOf(f))
  }

  predicate ChallengeOk(c: Challenge) { c.schema == 1 && NonBlank(c.summary) && FindingsOk(c.findings) }

  predicate AdjudicationOk(a: Adjudication) {
    NonBlank(a.id) && a.disposition in {"dismissed", "sustained"} && NonBlank(a.reason) && EvidenceListed(a.evidence)
  }

  /** Every challenge finding is adjudicated by exactly one entry, and by no other entry. */
  predicate AdjudicatesExactly(a: seq<Adjudication>, ids: seq<string>) {
    && (forall i :: 0 <= i < |a| ==> a[i].id in ids)
    && (forall i, j :: 0 <= i < j < |a| ==> a[i].id != a[j].id)
    && (forall f :: f in ids ==> Adjudicates(a, f))
  }

  predicate Adjudicates(a: seq<Adjudication>, id: string) { exists i :: 0 <= i < |a| && a[i].id == id }

  predicate Dismissed(a: Adjudication) { a.disposition == "dismissed" }

  predicate AllDismissed(a: seq<Adjudication>) { forall i :: 0 <= i < |a| ==> Dismissed(a[i]) }

  predicate AdjudicationsOk(a: seq<Adjudication>) { forall i :: 0 <= i < |a| ==> AdjudicationOk(a[i]) }

  predicate NoneListed(f: seq<Finding>, ids: seq<string>) { forall i :: 0 <= i < |f| ==> f[i].id !in ids }

  predicate VerdictKnown(v: Verification) { v.verdict == "VERIFIED" || v.verdict == "REJECTED" }

  predicate SaysVerified(v: Verification) { v.verdict == "VERIFIED" }

  /** An acceptable verification of the findings `ids`: the verdict is VERIFIED exactly when
      every finding is dismissed and none is new. */
  predicate VerificationOk(v: Verification, ids: seq<string>) {
    && v.schema == 1 && VerdictKnown(v) && NonBlank(v.summary)
    && AdjudicationsOk(v.adjudications) && AdjudicatesExactly(v.adjudications, ids)
    && FindingsOk(v.newFindings) && NoneListed(v.newFindings, ids)
    && (SaysVerified(v) <==> AllDismissed(v.adjudications) && v.newFindings == [])
  }

  /** The adjudication loop: `seen` and `sustained` accumulate. */
  method CheckAdjudications(a: seq<Adjudication>, ids: seq<string>) returns (ok: bool, sustained: bool)
    ensures ok <==> AdjudicationsOk(a) && AdjudicatesExactly(a, ids)
    ensures ok ==> (sustained <==> !AllDismissed(a))
  {
    hide AdjudicationOk, Dismissed;
    var seen: set<string>, n := {}, 0;
    ok, sustained := true, false;
    while n < |a| && ok
      invariant n <= |a|
      invariant ok ==> forall i :: 0 <= i < n ==> AdjudicationOk(a[i]) && a[i].id in ids
      invariant ok ==> seen == set i | 0 <= i < n :: a[i].id
      invariant ok ==> forall i, j :: 0 <= i < j < n ==> a[i].id != a[j].id
      invariant ok ==> (sustained <==> exists i :: 0 <= i < n && !Dismissed(a[i]))
      invariant !ok ==> !(AdjudicationsOk(a) && AdjudicatesExactly(a, ids))
    {
      ok := a[n].id !in seen && a[n].id in ids && AdjudicationOk(a[n]);
      seen := seen + {a[n].id};
      sustained := sustained || !Dismissed(a[n]);
      n := n + 1;
    }
    if ok {
      ok := forall f | f in ids :: f in seen;
    }
  }

  method CheckVerification(v: Verification, ids: seq<string>) returns (ok: bool)
    ensures ok <==> VerificationOk(v, ids)
  {
    hide AdjudicationsOk, AdjudicatesExactly, FindingsOk, AllDismissed, NonBlank, NoneListed, SaysVerified, VerdictKnown;
    if v.schema != 1 || !VerdictKnown(v) || !NonBlank(v.summary) {
      return false;
    }
    var sustained;
    ok, sustained := CheckAdjudications(v.adjudications, ids);
    if ok {
      ok := FindingsOk(v.newFindings) && NoneListed(v.newFindings, ids)
        && SaysVerified(v) == !(sustained || v.newFindings != []);
    }
  }

  // ---- The ledger ---------------------------------------------------------

  predicate NamesOk(names: seq<string>) {
    DistinctStrings(names) && forall i :: 0 <= i < |names| ==> names[i] != ""
  }

  predicate ExpectedOk(env: Env, e: Expected) {
    match e
    case Run(_, instance, phase, prompt, _) =>
      prompt.leaf != "" && !instance.LeadInstance? && (instance.ChallengeInstance? <==> phase.ChallengePhase?)
    case Message(_, _, _, runId, _, _) => env.runIdOk(runId)
    case PhaseAdvance => true
  }

  predicate SnapshotOk(env: Env, s: Snapshot) {
    && s.fixed.createdAt < s.fixed.deadlineAt && s.fixed.runTimeout == RUN_TIMEOUT
    && NamesOk(s.fixed.contextRuns) && NamesOk(s.fixed.contextMessages) && NamesOk(s.fixed.verifications)
    && NamesOk(s.findings)
    && (s.challengeMessage.Some? ==> env.uuidOk(s.challengeMessage.value))
    && (s.verificationMessage.Some? ==> env.uuidOk(s.verificationMessage.value))
    && if Active(s.status) then s.expected.Some? && ExpectedOk(env, s.expected.value) && s.reason.None?
       else s.expected.None? && s.reason.Some? && s.reason.value != ""
  }

  function Sealed(env: Env, e: Event): Event { e.(sha := env.eventHash(e.(sha := 0))) }

  predicate EventOk(env: Env, events: seq<Event>, i: nat)
    requires i < |events|
  {
    var e := events[i];
    && e.sequence == i + 1 && e.feature == env.feature
    && env.uuidOk(e.id) && env.uuidOk(e.assuranceId) && env.keyOk(e.key)
    && e.previous == (if i == 0 then None else Some(events[i - 1].sha))
    && e == Sealed(env, e)
    && SnapshotOk(env, e.snapshot)
  }

  predicate Unrepeated(events: seq<Event>) {
    forall i, j :: 0 <= i < j < |events| ==> events[i].id != events[j].id && events[i].key != events[j].key
  }

  /** What loading a ledger demands of it. */
  predicate Loads(env: Env, events: seq<Event>) {
    (forall i :: 0 <= i < |events| ==> EventOk(env, events, i)) && Unrepeated(events)
  }

  /** The loader's loop over the records. */
  method LoadEvents(env: Env, records: seq<Event>) returns (ok: bool)
    ensures ok <==> Loads(env, records)
  {
    hide SnapshotOk, Sealed;
    var ids: set<string>, keys: set<string> := {}, {};
    var previous: Option<Digest> := None;
    var n := 0;
    ok := true;
    while n < |records| && ok
      invariant n <= |records|
      invariant ok ==> previous == if n == 0 then None else Some(records[n - 1].sha)
      invariant ok ==> ids == (set i | 0 <= i < n :: records[i].id) && keys == (set i | 0 <= i < n :: records[i].key)
      invariant ok ==> forall i :: 0 <= i < n ==> EventOk(env, records, i)
      invariant ok ==> Unrepeated(records[..n])
      invariant !ok ==> !Loads(env, records)
    {
      var e := records[n];
      ok := e.sequence == n + 1 && e.feature == env.feature && env.uuidOk(e.id) && env.uuidOk(e.assuranceId)
        && env.keyOk(e.key) && e.previous == previous && e == Sealed(env, e) && SnapshotOk(env, e.snapshot);
      assert ok <==> EventOk(env, records, n);
      if ok && (e.id in ids || e.key in keys) {
        assert !Unrepeated(records);
        ok := false;
      }
      ids, keys, previous := ids + {e.id}, keys + {e.key}, Some(e.sha);
      n := n + 1;
    }
    assert records[..|records|] == records;
  }

  datatype Reply = Recorded(event: Event) | Replayed(event: Event) | Current(latest: Option<Event>) | Raised

  datatype Outcome = Outcome(events: seq<Event>, reply: Reply)

  function WithKey(events: seq<Event>, key: string): (found: Option<Event>)
    ensures found.Some? ==> found.value in events && found.value.key == key
    ensures found.None? ==> forall e :: e in events ==> e.key != key
  {
    if events == [] then None
    else if events[0].key == key then Some(events[0])
    else WithKey(events[1..], key)
  }

  /** The identity, time and key a command brings to its event. */
  datatype Call = Call(key: string, now: int, eventId: string, expiryId: string)

  function NewEvent(env: Env, events: seq<Event>, assuranceId: string, kind: EventKind, key: string,
                    request: Request, snapshot: Snapshot, now: int, id: string): Event {
    Sealed(env, Event(
      |events| + 1, now, id, env.feature, assuranceId, kind, key, env.requestHash(request),
      if events == [] then None else Some(events[|events| - 1].sha), snapshot, 0))
  }

  function Append(env: Env, events: seq<Event>, assuranceId: string, kind: EventKind, key: string,
                  request: Request, snapshot: Snapshot, now: int, id: string): Outcome {
    if !env.keyOk(key) then Outcome(events, Raised)
    else
      match WithKey(events, key)
      case Some(e) => Outcome(events, if e.request == env.requestHash(request) then Replayed(e) else Raised)
      case None =>
        var e := NewEvent(env, events, assuranceId, kind, key, request, snapshot, now, id);
        if !SnapshotOk(env, snapshot) || !env.uuidOk(id) || !env.uuidOk(assuranceId)
           || exists i :: 0 <= i < |events| && events[i].id == id
        then Outcome(events, Raised)
        else Outcome(events + [e], Recorded(e))
  }

  function Terminal(s: Snapshot, status: Status, reason: string): Snapshot {
    s.(status := status, expected := None, reason := Some(reason))
  }

  function Last(events: seq<Event>): Event
    requires events != []
  {
    events[|events| - 1]
  }

  predicate IsActive(events: seq<Event>) { events != [] && Active(Last(events).snapshot.status) }

  predicate Due(events: seq<Event>, now: int) {
    IsActive(events) && now >= Last(events).snapshot.fixed.deadlineAt
  }

  function Expire(env: Env, events: seq<Event>, call: Call): Outcome {
    if !Due(events, call.now) then Outcome(events, Current(if events == [] then None else Some(Last(events))))
    else
      var e := Last(events);
      Append(env, events, e.assuranceId, DeadlineExpired, env.deadlineKey(e.assuranceId),
             DeadlineRequest(e.assuranceId), Terminal(e.snapshot, Indeterminate, "assurance_deadline_exceeded"),
             call.now, call.expiryId)
  }

  // ---- Ingestion ----------------------------------------------------------

  /** What a command finds outside the ledger. */
  datatype World = World(
    manifest: Option<Manifest>, closing: bool, treeOk: string -> bool, rows: (Instance, string) -> seq<Row>,
    payload: (Instance, string) -> Option<Bytes>, published: string -> Option<Published>,
    verifyReady: Digest -> bool, promptDirectory: string, promptSha: Digest)

  function BoundRuns(events: seq<Event>): set<string> {
    set i | 0 <= i < |events| && events[i].snapshot.expected.Some? && events[i].snapshot.expected.value.Message?
      :: events[i].snapshot.expected.value.runId
  }

  function BoundMessages(events: seq<Event>): set<string> {
    (set i | 0 <= i < |events| && events[i].snapshot.challengeMessage.Some? :: events[i].snapshot.challengeMessage.value)
    + (set i | 0 <= i < |events| && events[i].snapshot.verificationMessage.Some? ::
         events[i].snapshot.verificationMessage.value)
  }

  predicate RefOk(env: Env, e: Evidence, fixed: Fixed, target: string, run: string, messages: set<string>) {
    if e.kind == "file" then env.fileOk(target, fixed.acceptedHead, e.ref)
    else if e.kind == "run" then e.ref in fixed.contextRuns || e.ref == run
    else if e.kind == "message" then e.ref in fixed.contextMessages || e.ref in messages
    else if e.kind == "test" then e.ref in fixed.verifications
    else true
  }

  predicate RefsOk(env: Env, e: seq<Evidence>, fixed: Fixed, target: string, run: string, messages: set<string>) {
    forall i :: 0 <= i < |e| ==> RefOk(env, e[i], fixed, target, run, messages)
  }

  predicate FindingRefsOk(env: Env, f: seq<Finding>, fixed: Fixed, target: string, run: string, messages: set<string>) {
    forall i :: 0 <= i < |f| ==> RefsOk(env, f[i].evidence, fixed, target, run, messages)
  }

  predicate AdjudicationRefsOk(
      env: Env, a: seq<Adjudication>, fixed: Fixed, target: string, run: string, messages: set<string>)
  {
    forall i :: 0 <= i < |a| ==> RefsOk(env, a[i].evidence, fixed, target, run, messages)
  }

  /** The challenge a payload carries, when every contract and evidence check passes. */
  function AcceptedChallenge(env: Env, payload: Bytes, run: string, fixed: Fixed, target: string, messages: set<string>)
    : Option<Challenge>
  {
    match env.challengeOf(payload, run)
    case None => None
    case Some(c) =>
      if ChallengeOk(c) && FindingRefsOk(env, c.findings, fixed, target, run, messages) then Some(c) else None
  }

  function AcceptedVerification(
      env: Env, payload: Bytes, run: string, ids: seq<string>, fixed: Fixed, target: string, messages: set<string>)
    : Option<Verification>
  {
    match env.verificationOf(payload, run)
    case None => None
    case Some(v) =>
      if VerificationOk(v, ids) && AdjudicationRefsOk(env, v.adjudications, fixed, target, run, messages)
         && FindingRefsOk(env, v.newFindings, fixed, target, run, messages)
      then Some(v) else None
  }

  predicate Ended(s: RunStatus) { !s.RunUnfinished? }

  function Earliest(rows: seq<Row>): int
    requires rows != []
  {
    if |rows| == 1 then rows[0].time
    else if rows[0].time <= Earliest(rows[1..]) then rows[0].time else Earliest(rows[1..])
  }

  /** The terminal row of a run and its start, when its lifecycle rows are in order. */
  function RunEnd(rows: seq<Row>, who: Participant, prompt: Digest, createdAt: int): Option<(RunStatus, int, int)> {
    if rows == [] || exists i :: 0 <= i < |rows| && (rows[i].who != who || rows[i].task != prompt) then None
    else
      var last := rows[|rows| - 1];
      if !Ended(last.status) || (exists i :: 0 <= i < |rows| - 1 && Ended(rows[i].status))
         || last.time < Earliest(rows) || Earliest(rows) < createdAt
      then None
      else Some((last.status, Earliest(rows), last.time))
  }

  function MappedStatus(s: RunStatus): Status {
    match s
    case RunFailed => Failed
    case RunBlocked => Blocked
    case RunAbandoned => Abandoned
    case _ => Indeterminate
  }

  function RejectedContract(s: Snapshot, reason: string): (Snapshot, EventKind) {
    (Terminal(s, Indeterminate, reason), ContractRejected)
  }

  function AfterRun(env: Env, s: Snapshot, e: Expected, run: string, payload: Bytes, target: string,
                    messages: set<string>): (Snapshot, EventKind)
    requires e.Run?
  {
    match e.stage
    case ChallengeStage =>
      if AcceptedChallenge(env, payload, run, s.fixed, target, messages).None? then RejectedContract(s, "invalid_contract")
      else (s.(status := AwaitingChallengeMessage,
               expected := Some(Message(ChallengeStage, VerifyInstance, ChallengeInstance, run, e.replyTo,
                                        env.payloadHash(payload)))), RunIngested)
    case VerificationStage =>
      if AcceptedVerification(env, payload, run, s.findings, s.fixed, target, messages).None? then RejectedContract(s, "invalid_contract")
      else (s.(status := AwaitingVerificationMessage,
               expected := Some(Message(VerificationStage, LeadInstance, VerifyInstance, run, e.replyTo,
                                        env.payloadHash(payload)))), RunIngested)
  }

  function IngestRun(env: Env, events: seq<Event>, run: string, w: World, m: Manifest): Option<(Snapshot, EventKind)>
    requires events != []
  {
    var s := Last(events).snapshot;
    if s.expected.None? || !s.expected.value.Run? then None
    else
      var e := s.expected.value;
      var path := if e.instance.ChallengeInstance? then s.fixed.challengePath else s.fixed.verifyPath;
      if run in BoundRuns(events) || run in s.fixed.contextRuns || !w.treeOk(path) then None
      else
        match RunEnd(w.rows(e.instance, run), m.participant(e.instance, e.phase), e.prompt.sha, s.fixed.createdAt)
        case None => None
        case Some((status, began, ended)) =>
          if ended - began > s.fixed.runTimeout
          then Some((Terminal(s, Indeterminate, "run_timeout_exceeded:" + run), RunTimedOut))
          else if ended > s.fixed.deadlineAt
          then Some((Terminal(s, Indeterminate, "run_after_assurance_deadline:" + run), RunAfterDeadline))
          else if !status.RunSucceeded? then Some((Terminal(s, MappedStatus(status), "run_ended:" + run), RunTerminal))
          else
            match w.payload(e.instance, run)
            case None => Some(RejectedContract(s, "invalid_contract"))
            case Some(p) => Some(AfterRun(env, s, e, run, p, m.target, BoundMessages(events)))
  }

  predicate Fulfils(env: Env, p: Published, e: Expected)
    requires e.Message?
  {
    && p.stage == e.stage && p.recipient == e.recipient && p.source == e.source
    && p.runId == e.runId && p.replyTo == e.replyTo && env.payloadHash(p.payload) == e.payload
  }

  function AfterMessage(env: Env, s: Snapshot, e: Expected, id: string, payload: Bytes, target: string,
                        messages: set<string>): (Snapshot, EventKind)
    requires e.Message?
  {
    match e.stage
    case ChallengeStage =>
      (match AcceptedChallenge(env, payload, e.runId, s.fixed, target, messages)
       case None => RejectedContract(s, "invalid_publication")
       case Some(c) =>
         (s.(challengeMessage := Some(id), findings := IdsOf(c.findings), status := AwaitingPhaseAdvance,
             expected := Some(PhaseAdvance)), ChallengePublished))
    case VerificationStage =>
      match AcceptedVerification(env, payload, e.runId, s.findings, s.fixed, target, messages)
      case None => RejectedContract(s, "invalid_publication")
      case Some(v) =>
        var bound := s.(verificationMessage := Some(id));
        if SaysVerified(v) then (Terminal(bound, Verified, "claude_verified"), AssuranceVerified)
        else (Terminal(bound, Rejected, "claude_rejected"), AssuranceRejected)
  }

  function IngestMessage(env: Env, events: seq<Event>, id: string, w: World, m: Manifest): Option<(Snapshot, EventKind)>
    requires events != []
  {
    var s := Last(events).snapshot;
    if s.expected.None? || !s.expected.value.Message? then None
    else if id in BoundMessages(events) || id in s.fixed.contextMessages || w.published(id).None? then None
    else if !Fulfils(env, w.published(id).value, s.expected.value) then None
    else Some(AfterMessage(env, s, s.expected.value, id, w.published(id).value.payload, m.target, BoundMessages(events)))
  }

  function IngestPhase(env: Env, events: seq<Event>, w: World): Option<(Snapshot, EventKind)>
    requires events != []
  {
    var s := Last(events).snapshot;
    if s.expected.None? || !s.expected.value.PhaseAdvance? || !w.verifyReady(Last(events).sha) then None
    else if s.challengeMessage.None? || w.published(s.challengeMessage.value).None? then None
    else
      var p := w.published(s.challengeMessage.value).value;
      match env.challengeOf(p.payload, p.runId)
      case None => None
      case Some(c) =>
        if !ChallengeOk(c) || IdsOf(c.findings) != s.findings || !w.treeOk(s.fixed.verifyPath) then None
        else Some((s.(status := AwaitingVerificationRun,
                      expected := Some(Run(VerificationStage, VerifyInstance, VerifyPhase,
                                           Prompt(w.promptDirectory, VERIFICATION_PROMPT, w.promptSha),
                                           s.challengeMessage.value))), PhaseAcknowledged))
  }

  // ---- Commands -----------------------------------------------------------

  /** What starting gathers once every start condition holds. */
  datatype Accepted = Accepted(
    assuranceId: string, fixed: Fixed, promptDirectory: string, promptSha: Digest, replyTo: string)

  datatype Command =
    | Start(accepted: Option<Accepted>)
    | StepRun(run: string, world: World)
    | StepMessage(message: string, world: World)
    | StepPhase(world: World)
    | Abandon(reason: string)
    | Show

  function RequestOf(env: Env, c: Command): Request
    requires !c.Show?
  {
    match c
    case Start(_) => StartRequest(env.feature)
    case StepRun(run, _) => StepRequest(Some(run), None, false)
    case StepMessage(message, _) => StepRequest(None, Some(message), false)
    case StepPhase(_) => StepRequest(None, None, true)
    case Abandon(reason) => AbandonRequest(reason)
  }

  function FirstSnapshot(a: Accepted, now: int): Snapshot {
    Snapshot(
      AwaitingChallengeRun,
      a.fixed.(createdAt := now, deadlineAt := now + DEADLINE, runTimeout := RUN_TIMEOUT), None, None, [],
      Some(Run(ChallengeStage, ChallengeInstance, ChallengePhase,
               Prompt(a.promptDirectory, CHALLENGE_PROMPT, a.promptSha), a.replyTo)), None)
  }

  function Ingest(env: Env, events: seq<Event>, c: Command): Option<(Snapshot, EventKind)>
    requires events != [] && (c.StepRun? || c.StepMessage? || c.StepPhase?)
  {
    if c.world.manifest.None? || c.world.closing then None
    else
      match c
      case StepRun(run, w) => IngestRun(env, events, run, w, w.manifest.value)
      case StepMessage(id, w) => IngestMessage(env, events, id, w, w.manifest.value)
      case StepPhase(w) => IngestPhase(env, events, w)
  }

  /** The command proper, after expiry. */
  function Perform(env: Env, events: seq<Event>, c: Command, call: Call): Outcome
    requires !c.Show?
  {
    var request := RequestOf(env, c);
    match WithKey(events, call.key)
    case Some(e) => Outcome(events, if e.request == env.requestHash(request) then Replayed(e) else Raised)
    case None =>
      if c.Start? then
        if events != [] || c.accepted.None? then Outcome(events, Raised)
        else Append(env, events, c.accepted.value.assuranceId, Started, call.key, request,
                    FirstSnapshot(c.accepted.value, call.now), call.now, call.eventId)
      else if !IsActive(events) then Outcome(events, Raised)
      else if c.Abandon? then
        Append(env, events, Last(events).assuranceId, AssuranceAbandoned, call.key, request,
               Terminal(Last(events).snapshot, Status.Abandoned, "operator_abandoned:" + c.reason),
               call.now, call.eventId)
      else
        match Ingest(env, events, c)
        case None => Outcome(events, Raised)
        case Some((snapshot, kind)) =>
          Append(env, events, Last(events).assuranceId, kind, call.key, request, snapshot, call.now, call.eventId)
  }

  function Apply(env: Env, events: seq<Event>, c: Command, call: Call): Outcome {
    if c.Abandon? && !NonBlank(c.reason) then Outcome(events, Raised)
    else
      var o := Expire(env, events, call);
      if o.reply.Raised? then o
      else if c.Show? then Outcome(o.events, if o.events == [] then Raised else Current(Some(Last(o.events))))
      else Perform(env, o.events, c, call)
  }

  // ---- The protocol as a relation between neighbouring events -------------

  /** Some payload with this digest carries an acceptable challenge with these finding ids. */
  ghost predicate ChallengeBound(env: Env, run: string, sha: Digest, ids: seq<string>) {
    exists p: Bytes :: ChallengeWitness(env, p, run, sha, ids)
  }

  ghost predicate ChallengeWitness(env: Env, p: Bytes, run: string, sha: Digest, ids: seq<string>) {
    && env.payloadHash(p) == sha && env.challengeOf(p, run).Some?
    && ChallengeOk(env.challengeOf(p, run).value) && IdsOf(env.challengeOf(p, run).value.findings) == ids
  }

  /** Some payload with this digest carries an acceptable verification of these findings. */
  ghost predicate VerificationBound(env: Env, run: string, sha: Digest, ids: seq<string>, verified: bool) {
    exists p: Bytes :: VerificationWitness(env, p, run, sha, ids, verified)
  }

  ghost predicate VerificationWitness(
      env: Env, p: Bytes, run: string, sha: Digest, ids: seq<string>, verified: bool)
  {
    && env.payloadHash(p) == sha && env.verificationOf(p, run).Some?
    && VerificationOk(env.verificationOf(p, run).value, ids)
    && (SaysVerified(env.verificationOf(p, run).value) <==> verified)
  }

  /** What each status promises about the rest of the snapshot. */
  ghost predicate Consistent(s: Snapshot) {
    match s.status
    case AwaitingChallengeRun =>
      && s.challengeMessage.None? && s.verificationMessage.None? && s.findings == []
      && s.expected.Some? && var e := s.expected.value;
      e.Run? && e.stage.ChallengeStage? && e.instance.ChallengeInstance? && e.phase.ChallengePhase?
      && e.prompt.leaf == CHALLENGE_PROMPT
    case AwaitingChallengeMessage =>
      && s.challengeMessage.None? && s.verificationMessage.None? && s.findings == []
      && s.expected.Some? && var e := s.expected.value;
      e.Message? && e.stage.ChallengeStage? && e.recipient.VerifyInstance? && e.source.ChallengeInstance?
    case AwaitingPhaseAdvance =>
      s.challengeMessage.Some? && s.verificationMessage.None? && s.expected == Some(PhaseAdvance)
    case AwaitingVerificationRun =>
      && s.challengeMessage.Some? && s.verificationMessage.None?
      && s.expected.Some? && var e := s.expected.value;
      e.Run? && e.stage.VerificationStage? && e.instance.VerifyInstance? && e.phase.VerifyPhase?
      && e.prompt.leaf == VERIFICATION_PROMPT
    case AwaitingVerificationMessage =>
      && s.challengeMessage.Some? && s.verificationMessage.None?
      && s.expected.Some? && var e := s.expected.value;
      e.Message? && e.stage.VerificationStage? && e.recipient.LeadInstance? && e.source.VerifyInstance?
    case _ => s.expected.None?
  }

  predicate GaveUp(s: Status) { s.Failed? || s.Blocked? || s.Abandoned? || s.Indeterminate? }

  /** One move of the protocol: give up, or take the one step the status allows. */
  ghost predicate Moves(env: Env, s: Snapshot, t: Snapshot) {
    if GaveUp(t.status) then t == s.(status := t.status, expected := None, reason := t.reason)
    else
      match s.status
      case AwaitingChallengeRun =>
        && t == s.(status := AwaitingChallengeMessage, expected := t.expected)
        && t.expected.Some? && t.expected.value.Message?
        && exists ids :: ChallengeBound(env, t.expected.value.runId, t.expected.value.payload, ids)
      case AwaitingChallengeMessage =>
        && t == s.(status := AwaitingPhaseAdvance, challengeMessage := t.challengeMessage, findings := t.findings,
                   expected := Some(PhaseAdvance))
        && s.expected.Some? && s.expected.value.Message?
        && ChallengeBound(env, s.expected.value.runId, s.expected.value.payload, t.findings)
      case AwaitingPhaseAdvance => t == s.(status := AwaitingVerificationRun, expected := t.expected)
      case AwaitingVerificationRun =>
        && t == s.(status := AwaitingVerificationMessage, expected := t.expected)
        && t.expected.Some? && t.expected.value.Message?
        && exists verdict ::
             VerificationBound(env, t.expected.value.runId, t.expected.value.payload, s.findings, verdict)
      case AwaitingVerificationMessage =>
        && (t.status.Verified? || t.status.Rejected?)
        && t == s.(status := t.status, verificationMessage := t.verificationMessage, expected := None, reason := t.reason)
        && t.verificationMessage.Some?
        && s.expected.Some? && s.expected.value.Message?
        && VerificationBound(env, s.expected.value.runId, s.expected.value.payload, s.findings, t.status.Verified?)
      case _ => false
  }

  ghost predicate FirstOk(e: Event) {
    && e.kind.Started? && e.snapshot.status.AwaitingChallengeRun?
    && e.time == e.snapshot.fixed.createdAt && e.snapshot.fixed.deadlineAt == e.time + DEADLINE
  }

  ghost predicate FromCaller(env: Env, request: Digest) {
    exists c: Command :: !c.Show? && request == env.requestHash(RequestOf(env, c))
  }

  ghost predicate Linked(env: Env, a: Event, b: Event) {
    && Active(a.snapshot.status) && b.assuranceId == a.assuranceId && b.snapshot.fixed == a.snapshot.fixed
    && if b.kind.DeadlineExpired? then
         && b.time >= a.snapshot.fixed.deadlineAt && b.snapshot.status.Indeterminate?
         && b.snapshot == a.snapshot.(status := Indeterminate, expected := None, reason := b.snapshot.reason)
       else b.time < a.snapshot.fixed.deadlineAt && FromCaller(env, b.request) && Moves(env, a.snapshot, b.snapshot)
  }

  ghost predicate Trail(env: Env, events: seq<Event>) {
    && (events != [] ==> FirstOk(events[0]) && FromCaller(env, events[0].request))
    && (forall i :: 0 <= i < |events| ==> Consistent(events[i].snapshot))
    && forall i {:trigger events[i]} :: 0 < i < |events| ==> Linked(env, events[i - 1], events[i])
  }

  // ---- Every command keeps the ledger loadable and on the trail -----------

  lemma AppendKeepsLoads(env: Env, events: seq<Event>, assuranceId: string, kind: EventKind, key: string,
                         request: Request, snapshot: Snapshot, now: int, id: string)
    requires Loads(env, events)
    ensures Loads(env, Append(env, events, assuranceId, kind, key, request, snapshot, now, id).events)
  {
    hide SnapshotOk;
    var o := Append(env, events, assuranceId, kind, key, request, snapshot, now, id);
    if o.events != events {
      var e := NewEvent(env, events, assuranceId, kind, key, request, snapshot, now, id);
      forall i | 0 <= i < |o.events| ensures EventOk(env, o.events, i) {
        if i < |events| {
          assert EventOk(env, events, i);
        }
      }
      assert forall i :: 0 <= i < |events| ==> events[i].key != key;
    }
  }

  lemma PerformKeepsLoads(env: Env, events: seq<Event>, c: Command, call: Call)
    requires Loads(env, events) && !c.Show?
    ensures Loads(env, Perform(env, events, c, call).events)
  {
    hide Loads, Append, Ingest, FirstSnapshot, WithKey;
    if c.Start? {
      if c.accepted.Some? {
        AppendKeepsLoads(env, events, c.accepted.value.assuranceId, Started, call.key, RequestOf(env, c),
                         FirstSnapshot(c.accepted.value, call.now), call.now, call.eventId);
      }
    } else if IsActive(events) {
      if c.Abandon? {
        AppendKeepsLoads(env, events, Last(events).assuranceId, AssuranceAbandoned, call.key, RequestOf(env, c),
                         Terminal(Last(events).snapshot, Status.Abandoned, "operator_abandoned:" + c.reason),
                         call.now, call.eventId);
      } else if Ingest(env, events, c).Some? {
        var (snapshot, kind) := Ingest(env, events, c).value;
        AppendKeepsLoads(env, events, Last(events).assuranceId, kind, call.key, RequestOf(env, c), snapshot,
                         call.now, call.eventId);
      }
    }
  }

  lemma ExpireKeepsLoads(env: Env, events: seq<Event>, call: Call)
    requires Loads(env, events)
    ensures Loads(env, Expire(env, events, call).events)
  {
    hide Loads, Append;
    if Due(events, call.now) {
      var e := Last(events);
      AppendKeepsLoads(env, events, e.assuranceId, DeadlineExpired, env.deadlineKey(e.assuranceId),
                       DeadlineRequest(e.assuranceId), Terminal(e.snapshot, Indeterminate, "assurance_deadline_exceeded"),
                       call.now, call.expiryId);
    }
  }

  lemma RunMoves(env: Env, events: seq<Event>, run: string, w: World, m: Manifest)
    requires events != [] && Active(Last(events).snapshot.status) && Consistent(Last(events).snapshot)
    requires IngestRun(env, events, run, w, m).Some?
    ensures var (t, kind) := IngestRun(env, events, run, w, m).value;
      Moves(env, Last(events).snapshot, t) && Consistent(t) && t.fixed == Last(events).snapshot.fixed
      && !kind.DeadlineExpired? && !kind.Started?
  {
    hide RunEnd, BoundRuns, BoundMessages, ChallengeOk, VerificationOk, RefsOk, AdjudicationRefsOk, FindingRefsOk, IdsOf;
    var s := Last(events).snapshot;
    var e := s.expected.value;
    if w.payload(e.instance, run).Some? {
      var p := w.payload(e.instance, run).value;
      AfterRunMoves(env, s, e, run, p, m.target, BoundMessages(events));
    }
  }

  lemma AfterRunMoves(env: Env, s: Snapshot, e: Expected, run: string, p: Bytes, target: string, messages: set<string>)
    requires Active(s.status) && Consistent(s) && s.expected == Some(e) && e.Run?
    ensures var (t, kind) := AfterRun(env, s, e, run, p, target, messages);
      Moves(env, s, t) && Consistent(t) && t.fixed == s.fixed && !kind.DeadlineExpired? && !kind.Started?
  {
    hide ChallengeOk, VerificationOk, RefsOk, AdjudicationRefsOk, FindingRefsOk, IdsOf;
    var sha := env.payloadHash(p);
    if e.stage.ChallengeStage? {
      var c := AcceptedChallenge(env, p, run, s.fixed, target, messages);
      if c.Some? {
        assert ChallengeWitness(env, p, run, sha, IdsOf(c.value.findings));
        assert ChallengeBound(env, run, sha, IdsOf(c.value.findings));
      }
    } else {
      var v := AcceptedVerification(env, p, run, s.findings, s.fixed, target, messages);
      if v.Some? {
        assert VerificationWitness(env, p, run, sha, s.findings, SaysVerified(v.value));
        assert VerificationBound(env, run, sha, s.findings, SaysVerified(v.value));
      }
    }
  }

  lemma MessageMoves(env: Env, events: seq<Event>, id: string, w: World, m: Manifest)
    requires events != [] && Active(Last(events).snapshot.status) && Consistent(Last(events).snapshot)
    requires IngestMessage(env, events, id, w, m).Some?
    ensures var (t, kind) := IngestMessage(env, events, id, w, m).value;
      Moves(env, Last(events).snapshot, t) && Consistent(t) && t.fixed == Last(events).snapshot.fixed
      && !kind.DeadlineExpired? && !kind.Started?
  {
    hide ChallengeOk, VerificationOk, RefsOk, AdjudicationRefsOk, FindingRefsOk, IdsOf, BoundMessages, SaysVerified;
    var s := Last(events).snapshot;
    var e, p := s.expected.value, w.published(id).value.payload;
    if e.stage.ChallengeStage? {
      var c := AcceptedChallenge(env, p, e.runId, s.fixed, m.target, BoundMessages(events));
      if c.Some? {
        assert ChallengeWitness(env, p, e.runId, e.payload, IdsOf(c.value.findings));
      }
    } else {
      var v := AcceptedVerification(env, p, e.runId, s.findings, s.fixed, m.target, BoundMessages(events));
      if v.Some? {
        assert VerificationWitness(env, p, e.runId, e.payload, s.findings, SaysVerified(v.value));
      }
    }
  }

  lemma PhaseMoves(env: Env, events: seq<Event>, w: World)
    requires events != [] && Active(Last(events).snapshot.status) && Consistent(Last(events).snapshot)
    requires IngestPhase(env, events, w).Some?
    ensures var (t, kind) := IngestPhase(env, events, w).value;
      Moves(env, Last(events).snapshot, t) && Consistent(t) && t.fixed == Last(events).snapshot.fixed
      && !kind.DeadlineExpired? && !kind.Started?
  {
    hide ChallengeOk, IdsOf;
  }

  lemma IngestMoves(env: Env, events: seq<Event>, c: Command)
    requires events != [] && Active(Last(events).snapshot.status) && Consistent(Last(events).snapshot)
    requires (c.StepRun? || c.StepMessage? || c.StepPhase?) && Ingest(env, events, c).Some?
    ensures var (t, kind) := Ingest(env, events, c).value;
      Moves(env, Last(events).snapshot, t) && Consistent(t) && t.fixed == Last(events).snapshot.fixed
      && !kind.DeadlineExpired? && !kind.Started?
  {
    hide IngestRun, IngestMessage, IngestPhase, Moves, Consistent, Active;
    match c
    case StepRun(run, w) => RunMoves(env, events, run, w, w.manifest.value);
    case StepMessage(id, w) => MessageMoves(env, events, id, w, w.manifest.value);
    case StepPhase(w) => PhaseMoves(env, events, w);
  }

  lemma TrailGrows(env: Env, events: seq<Event>, e: Event)
    requires Trail(env, events) && Consistent(e.snapshot)
    requires if events == [] then FirstOk(e) && FromCaller(env, e.request) else Linked(env, Last(events), e)
    ensures Trail(env, events + [e])
  {
    hide Consistent, Linked, FirstOk, FromCaller;
    var longer := events + [e];
    forall i {:trigger longer[i]} | 0 < i < |longer| ensures Linked(env, longer[i - 1], longer[i]) {
      if i < |events| {
        assert longer[i] == events[i];
      }
    }
  }

  lemma PerformKeepsTrail(env: Env, events: seq<Event>, c: Command, call: Call)
    requires Trail(env, events) && !c.Show? && !Due(events, call.now)
    ensures Trail(env, Perform(env, events, c, call).events)
  {
    hide Trail, Ingest, Consistent, Moves, SnapshotOk, WithKey, IngestRun, IngestMessage, IngestPhase;
    var o := Perform(env, events, c, call);
    if o.events != events {
      var e := o.events[|events|];
      assert o.events == events + [e];
      assert FromCaller(env, e.request);
      if c.Start? {
        FirstIsConsistent(c.accepted.value, call.now);
      } else {
        LastIsConsistent(env, events);
        if c.Abandon? {
          AbandonMoves(env, Last(events).snapshot, e.snapshot.reason.value);
        } else {
          IngestMoves(env, events, c);
        }
      }
      TrailGrows(env, events, e);
    }
  }

  lemma FirstIsConsistent(a: Accepted, now: int)
    ensures Consistent(FirstSnapshot(a, now))
  {
  }

  lemma LastIsConsistent(env: Env, events: seq<Event>)
    requires Trail(env, events) && events != []
    ensures Consistent(Last(events).snapshot)
  {
  }

  lemma AbandonMoves(env: Env, s: Snapshot, reason: string)
    ensures var t := Terminal(s, Status.Abandoned, reason);
      Moves(env, s, t) && Consistent(t)
  {
  }

  lemma ExpireKeepsTrail(env: Env, events: seq<Event>, call: Call)
    requires Trail(env, events)
    ensures Trail(env, Expire(env, events, call).events)
    ensures !Expire(env, events, call).reply.Raised? && !Expire(env, events, call).reply.Replayed? ==>
      !Due(Expire(env, events, call).events, call.now)
  {
    hide Trail, SnapshotOk, WithKey, Moves;
    var o := Expire(env, events, call);
    if o.events != events {
      TrailGrows(env, events, o.events[|events|]);
      assert o.events == events + [o.events[|events|]];
    }
  }

  lemma CallersDoNotAskForExpiry(env: Env, events: seq<Event>, i: nat, assuranceId: string)
    requires Trail(env, events) && Injective(env.requestHash) && IsActive(events) && i < |events|
    ensures events[i].request != env.requestHash(DeadlineRequest(assuranceId))
  {
    hide Moves, Consistent;
    if i + 1 < |events| {
      assert Linked(env, events[i], events[i + 1]);
    }
    if i > 0 {
      assert Linked(env, events[i - 1], events[i]);
    }
    assert FromCaller(env, events[i].request);
    var c: Command :| !c.Show? && events[i].request == env.requestHash(RequestOf(env, c));
  }

  /** After an expiry check that did not raise, nothing is overdue. */
  lemma ExpirySettles(env: Env, events: seq<Event>, call: Call)
    requires Trail(env, events) && Injective(env.requestHash) && !Expire(env, events, call).reply.Raised?
    ensures !Due(Expire(env, events, call).events, call.now)
  {
    hide Trail, SnapshotOk, Consistent;
    if Due(events, call.now) {
      var e := Last(events);
      var found := WithKey(events, env.deadlineKey(e.assuranceId));
      if found.Some? {
        var i :| 0 <= i < |events| && events[i] == found.value;
        CallersDoNotAskForExpiry(env, events, i, e.assuranceId);
      }
    }
  }

  /** Every command, whatever it finds, leaves a ledger that loads and is on the trail. */
  lemma ApplyKeeps(env: Env, events: seq<Event>, c: Command, call: Call)
    requires Loads(env, events) && Trail(env, events) && Injective(env.requestHash)
    ensures Loads(env, Apply(env, events, c, call).events) && Trail(env, Apply(env, events, c, call).events)
  {
    hide Loads, Trail, Expire, Perform, Due, NonBlank;
    var o := Expire(env, events, call);
    ExpireKeepsLoads(env, events, call);
    ExpireKeepsTrail(env, events, call);
    if !o.reply.Raised? && !c.Show? {
      ExpirySettles(env, events, call);
      PerformKeepsLoads(env, o.events, c, call);
      PerformKeepsTrail(env, o.events, c, call);
    }
  }

  function Execute(env: Env, script: seq<(Command, Call)>): seq<Event> {
    if script == [] then []
    else Apply(env, Execute(env, script[..|script| - 1]), script[|script| - 1].0, script[|script| - 1].1).events
  }

  /** Every ledger any script of commands produces loads again and follows the protocol. */
  lemma {:induction false} ReachableLedgers(env: Env, script: seq<(Command, Call)>)
    requires Injective(env.requestHash)
    ensures Loads(env, Execute(env, script)) && Trail(env, Execute(env, script))
  {
    hide Apply, Consistent, Linked, EventOk;
    if script != [] {
      ReachableLedgers(env, script[..|script| - 1]);
      ApplyKeeps(env, Execute(env, script[..|script| - 1]), script[|script| - 1].0, script[|script| - 1].1);
    }
  }

  // ---- What the trail implies ---------------------------------------------

  function ActiveStatus(i: nat): Status
    requires i < 5
  {
    if i == 0 then AwaitingChallengeRun
    else if i == 1 then AwaitingChallengeMessage
    else if i == 2 then AwaitingPhaseAdvance
    else if i == 3 then AwaitingVerificationRun
    else AwaitingVerificationMessage
  }

  /** The i-th event stands in the i-th active status or ends the ledger; only the sixth can
      carry a verdict. */
  lemma {:induction false} TrailShape(env: Env, events: seq<Event>, i: nat)
    requires Trail(env, events) && i < |events|
    ensures i <= 5
    ensures Active(events[i].snapshot.status) ==> i < 5 && events[i].snapshot.status == ActiveStatus(i)
    ensures !Active(events[i].snapshot.status) ==> i == |events| - 1
    ensures events[i].snapshot.status.Verified? || events[i].snapshot.status.Rejected? ==> i == 5
    ensures events[i].snapshot.fixed == events[0].snapshot.fixed && events[i].assuranceId == events[0].assuranceId
    ensures events[i].kind.DeadlineExpired? || events[i].time < events[0].snapshot.fixed.deadlineAt
  {
    hide Consistent, FromCaller, ChallengeBound, VerificationBound;
    if i + 1 < |events| {
      assert Linked(env, events[i], events[i + 1]);
    }
    if i > 0 {
      TrailShape(env, events, i - 1);
      assert Linked(env, events[i - 1], events[i]);
    }
  }

  /** No ledger has more than six events, and none after a terminal one; no event but an expiry
      is timed at or after the deadline, two hours after the first event. */
  lemma LedgersAreShort(env: Env, script: seq<(Command, Call)>, i: nat)
    requires Injective(env.requestHash) && i < |Execute(env, script)|
    ensures var events := Execute(env, script);
      && |events| <= 6
      && (!Active(events[i].snapshot.status) ==> i == |events| - 1)
      && (events[i].kind.DeadlineExpired? <==> events[i].time >= events[0].time + DEADLINE)
  {
    hide Apply, Loads, Consistent, FromCaller, Moves;
    ReachableLedgers(env, script);
    var events := Execute(env, script);
    TrailShape(env, events, i);
    TrailShape(env, events, |events| - 1);
    if i > 0 {
      TrailShape(env, events, i - 1);
      assert Linked(env, events[i - 1], events[i]);
    }
  }

  /** The verification of these findings dismisses each exactly once and finds nothing new. */
  ghost predicate Clears(v: Verification, ids: seq<string>) {
    AdjudicatesExactly(v.adjudications, ids) && AllDismissed(v.adjudications) && v.newFindings == []
  }

  /** A verified ledger went through all five active stages in order; the payload bound by the
      verification run clears every finding of the payload bound by the challenge run. */
  lemma VerifiedIsEarned(env: Env, script: seq<(Command, Call)>)
    requires Injective(env.requestHash) && Execute(env, script) != []
    requires Last(Execute(env, script)).snapshot.status.Verified?
    ensures var events := Execute(env, script);
      && |events| == 6
      && (forall i :: 0 <= i < 5 ==> events[i].snapshot.status == ActiveStatus(i))
      && events[1].snapshot.expected.Some? && events[1].snapshot.expected.value.Message?
      && events[4].snapshot.expected.Some? && events[4].snapshot.expected.value.Message?
      && var asked, answered := events[1].snapshot.expected.value, events[4].snapshot.expected.value;
         exists challenge: Bytes, payload: Bytes ::
           && env.payloadHash(challenge) == asked.payload && env.challengeOf(challenge, asked.runId).Some?
           && env.payloadHash(payload) == answered.payload && env.verificationOf(payload, answered.runId).Some?
           && Clears(env.verificationOf(payload, answered.runId).value,
                     IdsOf(env.challengeOf(challenge, asked.runId).value.findings))
  {
    ReachableLedgers(env, script);
    VerifiedTrail(env, Execute(env, script));
  }

  lemma VerifiedTrail(env: Env, events: seq<Event>)
    requires Trail(env, events) && events != [] && Last(events).snapshot.status.Verified?
    ensures
      && |events| == 6
      && (forall i :: 0 <= i < 5 ==> events[i].snapshot.status == ActiveStatus(i))
      && events[1].snapshot.expected.Some? && events[1].snapshot.expected.value.Message?
      && events[4].snapshot.expected.Some? && events[4].snapshot.expected.value.Message?
      && var asked, answered := events[1].snapshot.expected.value, events[4].snapshot.expected.value;
         exists challenge: Bytes, payload: Bytes ::
           && env.payloadHash(challenge) == asked.payload && env.challengeOf(challenge, asked.runId).Some?
           && env.payloadHash(payload) == answered.payload && env.verificationOf(payload, answered.runId).Some?
           && Clears(env.verificationOf(payload, answered.runId).value,
                     IdsOf(env.challengeOf(challenge, asked.runId).value.findings))
  {
    TrailShape(env, events, |events| - 1);
    forall i | 0 <= i < 5 ensures events[i].snapshot.status == ActiveStatus(i) {
      TrailShape(env, events, i);
    }
    BoundPayloads(env, events);
    var asked, answered := events[1].snapshot.expected.value, events[4].snapshot.expected.value;
    var ids := events[4].snapshot.findings;
    hide Trail;
    var challenge :| ChallengeWitness(env, challenge, asked.runId, asked.payload, ids);
    var payload :| VerificationWitness(env, payload, answered.runId, answered.payload, ids, true);
    assert Clears(env.verificationOf(payload, answered.runId).value, ids);
  }

  lemma BoundPayloads(env: Env, events: seq<Event>)
    requires Trail(env, events) && |events| == 6 && events[5].snapshot.status.Verified?
    requires forall i :: 0 <= i < 5 ==> events[i].snapshot.status == ActiveStatus(i)
    ensures events[1].snapshot.expected.Some? && events[1].snapshot.expected.value.Message?
    ensures events[4].snapshot.expected.Some? && events[4].snapshot.expected.value.Message?
    ensures var asked, answered, ids :=
        events[1].snapshot.expected.value, events[4].snapshot.expected.value, events[4].snapshot.findings;
      && ChallengeBound(env, asked.runId, asked.payload, ids)
      && VerificationBound(env, answered.runId, answered.payload, ids, true)
  {
    hide ChallengeBound, VerificationBound, FromCaller, Consistent;
    assert Linked(env, events[0], events[1]);
    assert Linked(env, events[1], events[2]);
    assert Linked(env, events[2], events[3]);
    assert Linked(env, events[3], events[4]);
    assert Linked(env, events[4], events[5]);
  }

  /** A terminal ledger is final. */
  lemma TerminalIsFinal(env: Env, events: seq<Event>, c: Command, call: Call)
    requires events != [] && !IsActive(events)
    ensures Apply(env, events, c, call).events == events
  {
    hide Ingest, Append, NonBlank;
  }

  /** Commands only append, and at most one event each: a command that expires the assurance
      does nothing else. */
  lemma ApplyAppendsAtMostOne(env: Env, events: seq<Event>, c: Command, call: Call)
    ensures events <= Apply(env, events, c, call).events
    ensures |Apply(env, events, c, call).events| <= |events| + 1
  {
    hide Ingest, SnapshotOk, NonBlank, WithKey, FirstSnapshot;
    var o := Expire(env, events, call);
    if |o.events| == |events| + 1 && !c.Show? && !o.reply.Raised? {
      TerminalStaysPut(env, o.events, c, call);
    }
  }

  lemma TerminalStaysPut(env: Env, events: seq<Event>, c: Command, call: Call)
    requires events != [] && !IsActive(events) && !c.Show?
    ensures Perform(env, events, c, call).events == events
  {
    hide Ingest, Append;
  }

  lemma KeyFindsItsEvent(env: Env, events: seq<Event>, i: nat)
    requires Loads(env, events) && i < |events|
    ensures WithKey(events, events[i].key) == Some(events[i])
  {
    hide EventOk, WithKey;
    var found := WithKey(events, events[i].key);
    assert found.Some?;
    var j :| 0 <= j < |events| && events[j] == found.value;
  }

  /** Repeating a recorded command under its key, at any later time and over any grown ledger,
      returns the same event and appends nothing (beyond an expiry that has fallen due). */
  lemma RepeatsAreIdempotent(env: Env, events: seq<Event>, i: nat, c: Command, call: Call)
    requires Loads(env, events) && i < |events| && call.key == events[i].key && !c.Show?
    requires c.Abandon? ==> NonBlank(c.reason)
    requires events[i].request == env.requestHash(RequestOf(env, c))
    requires !Expire(env, events, call).reply.Raised?
    ensures Apply(env, events, c, call) == Outcome(Expire(env, events, call).events, Replayed(events[i]))
  {
    hide Loads, Ingest, NonBlank, Append;
    ExpireKeepsLoads(env, events, call);
    ExpireAppends(env, events, call);
    KeyFindsItsEvent(env, Expire(env, events, call).events, i);
  }

  lemma ExpireAppends(env: Env, events: seq<Event>, call: Call)
    ensures events <= Expire(env, events, call).events
  {
    hide SnapshotOk, WithKey;
  }

  // ---- Expiry and its key -------------------------------------------------

  predicate KeyUsed(events: seq<Event>, key: string) { exists i :: 0 <= i < |events| && events[i].key == key }

  lemma TerminalSnapshotOk(env: Env, s: Snapshot, status: Status, reason: string)
    requires SnapshotOk(env, s) && !Active(status) && reason != ""
    ensures SnapshotOk(env, Terminal(s, status, reason))
    ensures Terminal(s, status, reason).status == status
  {
  }

  /** The expiry event needs its key. An overdue assurance expires unless an earlier event took
      that key; a caller may have chosen it. */
  lemma ExpiryDecides(env: Env, events: seq<Event>, call: Call)
    requires Loads(env, events) && Trail(env, events) && Injective(env.requestHash) && Due(events, call.now)
    requires env.keyOk(env.deadlineKey(Last(events).assuranceId))
    requires env.uuidOk(call.expiryId) && forall i :: 0 <= i < |events| ==> events[i].id != call.expiryId
    ensures Expire(env, events, call).reply.Raised? <==> KeyUsed(events, env.deadlineKey(Last(events).assuranceId))
    ensures !Expire(env, events, call).reply.Raised? ==>
      Last(Expire(env, events, call).events).snapshot.status.Indeterminate?
  {
    var e := Last(events);
    assert EventOk(env, events, |events| - 1);
    var found := WithKey(events, env.deadlineKey(e.assuranceId));
    TerminalSnapshotOk(env, e.snapshot, Indeterminate, "assurance_deadline_exceeded");
    hide Loads, Trail, WithKey, SnapshotOk, Terminal;
    if found.Some? {
      var i :| 0 <= i < |events| && events[i] == found.value;
      CallersDoNotAskForExpiry(env, events, i, e.assuranceId);
    } else {
      assert !KeyUsed(events, env.deadlineKey(e.assuranceId));
    }
  }

  /** Once a caller holds the key of the expiry, every command after the deadline raises and
      the assurance stays active for ever. */
  lemma TakenKeyBlocksEverything(env: Env, events: seq<Event>, c: Command, call: Call)
    requires Loads(env, events) && Trail(env, events) && Injective(env.requestHash) && Due(events, call.now)
    requires KeyUsed(events, env.deadlineKey(Last(events).assuranceId))
    ensures Apply(env, events, c, call) == Outcome(events, Raised)
  {
    hide Loads, Trail, WithKey, NonBlank, SnapshotOk;
    var e := Last(events);
    var found := WithKey(events, env.deadlineKey(e.assuranceId));
    assert found.Some?;
    var i :| 0 <= i < |events| && events[i] == found.value;
    CallersDoNotAskForExpiry(env, events, i, e.assuranceId);
  }

  /** The smallest such history: an assurance started under its own expiry key. */
  lemma ExpiryKeyCanBeTaken()
    ensures
      var env := Env(
        "feature", e => 0, (r: Request) => if r.DeadlineRequest? then 0 else 1, p => 0, k => true, u => true, r => true,
        id => "system:deadline:" + id, (p, r) => None, (p, r) => None, (t, h, r) => true);
      var fixed := Fixed(0, 0, 0, "head", "conversation", 1, "context", 2, "snapshots", 3, "c", "v", [], [], []);
      var start := Start(Some(Accepted("id", fixed, "prompts", 4, "reply")));
      var started := Apply(env, [], start, Call("system:deadline:id", 0, "first", "unused"));
      && started.reply.Recorded? && |started.events| == 1
      && forall later: int :: later >= DEADLINE ==>
           Apply(env, started.events, Show, Call("show", later, "second", "third")) == Outcome(started.events, Raised)
  {
  }

  // ---- Publication repeats ingestion --------------------------------------

  lemma SameMessagesBound(events: seq<Event>, e: Event)
    requires events != [] && e.snapshot.challengeMessage == Last(events).snapshot.challengeMessage
    requires e.snapshot.verificationMessage == Last(events).snapshot.verificationMessage
    ensures BoundMessages(events + [e]) == BoundMessages(events)
  {
    var longer := events + [e];
    forall m ensures m in BoundMessages(longer) <==> m in BoundMessages(events) {
      if m in BoundMessages(longer) {
        BoundMessagesGrow(events, e, m);
      } else if m in BoundMessages(events) {
        MessageStaysBound(events, e, m);
      }
    }
  }

  lemma BoundMessagesGrow(events: seq<Event>, e: Event, m: string)
    requires events != [] && e.snapshot.challengeMessage == Last(events).snapshot.challengeMessage
    requires e.snapshot.verificationMessage == Last(events).snapshot.verificationMessage
    requires m in BoundMessages(events + [e])
    ensures m in BoundMessages(events)
  {
    var longer := events + [e];
    var i :| 0 <= i < |longer| && (longer[i].snapshot.challengeMessage == Some(m)
                                   || longer[i].snapshot.verificationMessage == Some(m));
    var j := if i < |events| then i else |events| - 1;
    assert events[j].snapshot.challengeMessage == longer[i].snapshot.challengeMessage;
    assert events[j].snapshot.verificationMessage == longer[i].snapshot.verificationMessage;
  }

  lemma MessageStaysBound(events: seq<Event>, e: Event, m: string)
    requires m in BoundMessages(events)
    ensures m in BoundMessages(events + [e])
  {
    var longer := events + [e];
    var i :| 0 <= i < |events| && (events[i].snapshot.challengeMessage == Some(m)
                                   || events[i].snapshot.verificationMessage == Some(m));
    assert longer[i] == events[i];
  }

  lemma IngestedPayloadIsAccepted(env: Env, events: seq<Event>, run: string, w: World, m: Manifest)
    returns (p: Bytes)
    requires events != [] && IngestRun(env, events, run, w, m).Some?
    requires IngestRun(env, events, run, w, m).value.1.RunIngested?
    ensures var t, s := IngestRun(env, events, run, w, m).value.0, Last(events).snapshot;
      && t.expected.Some? && t.expected.value.Message? && t.expected.value.runId == run
      && t.expected.value.payload == env.payloadHash(p)
      && t == s.(status := t.status, expected := t.expected)
      && (if t.expected.value.stage.ChallengeStage?
          then AcceptedChallenge(env, p, run, s.fixed, m.target, BoundMessages(events)).Some?
          else AcceptedVerification(env, p, run, s.findings, s.fixed, m.target, BoundMessages(events)).Some?)
  {
    hide RunEnd, BoundRuns, BoundMessages, AcceptedChallenge, AcceptedVerification;
    var e := Last(events).snapshot.expected.value;
    p := w.payload(e.instance, run).value;
  }

  /** Under one manifest, whatever the run step accepted the publication step accepts: the
      branch that rejects a matching publication is never taken. */
  lemma PublicationIsNeverRejected(
      env: Env, events: seq<Event>, run: string, w: World, m: Manifest, e: Event, id: string, later: World)
    requires Injective(env.payloadHash)
    requires events != [] && IngestRun(env, events, run, w, m) == Some((e.snapshot, RunIngested))
    requires IngestMessage(env, events + [e], id, later, m).Some?
    ensures !IngestMessage(env, events + [e], id, later, m).value.1.ContractRejected?
  {
    hide IngestRun, BoundMessages, AcceptedChallenge, AcceptedVerification, SaysVerified;
    var p := IngestedPayloadIsAccepted(env, events, run, w, m);
    SameMessagesBound(events, e);
    assert later.published(id).value.payload == p;
  }

  /** The same between any run step and the message step after it. */
  lemma PublicationFollowsIngestion(
      env: Env, events: seq<Event>, run: string, w: World, call: Call, id: string, later: World, next: Call)
    requires Injective(env.payloadHash) && later.manifest == w.manifest
    requires Apply(env, events, StepRun(run, w), call).reply.Recorded?
    requires Apply(env, events, StepRun(run, w), call).reply.event.kind.RunIngested?
    ensures var o := Apply(env, Apply(env, events, StepRun(run, w), call).events, StepMessage(id, later), next);
      o.reply.Recorded? ==> !o.reply.event.kind.ContractRejected?
  {
    hide IngestRun, IngestMessage, Injective, Apply;
    var o := Apply(env, events, StepRun(run, w), call);
    var e := o.reply.event;
    RecordedStep(env, events, StepRun(run, w), call);
    var n := Apply(env, o.events, StepMessage(id, later), next);
    if n.reply.Recorded? {
      RecordedStep(env, o.events, StepMessage(id, later), next);
      PublicationIsNeverRejected(env, events, run, w, w.manifest.value, e, id, later);
    }
  }

  lemma RecordedStep(env: Env, events: seq<Event>, c: Command, call: Call)
    requires (c.StepRun? || c.StepMessage? || c.StepPhase?) && Apply(env, events, c, call).reply.Recorded?
    ensures var o := Apply(env, events, c, call);
      && o.events == events + [o.reply.event] && events != []
      && Ingest(env, events, c) == Some((o.reply.event.snapshot, o.reply.event.kind))
  {
    hide Ingest, SnapshotOk, WithKey;
  }

  // ---- One run, one role --------------------------------------------------

  predicate ExpectsMessage(e: Event) { e.snapshot.expected.Some? && e.snapshot.expected.value.Message? }

  predicate DistinctRuns(events: seq<Event>) {
    forall i, j :: 0 <= i < j < |events| && ExpectsMessage(events[i]) && ExpectsMessage(events[j]) ==>
      events[i].snapshot.expected.value.runId != events[j].snapshot.expected.value.runId
  }

  lemma IngestBindsFreshRun(env: Env, events: seq<Event>, c: Command)
    requires events != [] && (c.StepRun? || c.StepMessage? || c.StepPhase?) && Ingest(env, events, c).Some?
    ensures var t := Ingest(env, events, c).value.0;
      t.expected.Some? && t.expected.value.Message? ==> t.expected.value.runId !in BoundRuns(events)
  {
    hide RunEnd, BoundRuns, BoundMessages, AcceptedChallenge, AcceptedVerification, Fulfils;
  }

  lemma ApplyKeepsDistinctRuns(env: Env, events: seq<Event>, c: Command, call: Call)
    requires DistinctRuns(events)
    ensures DistinctRuns(Apply(env, events, c, call).events)
  {
    hide Apply;
    var o := Apply(env, events, c, call);
    ApplyAppendsAtMostOne(env, events, c, call);
    if |o.events| == |events| + 1 {
      var e := o.events[|events|];
      assert o.events == events + [e];
      AppendedRunIsFresh(env, events, c, call);
      forall i | 0 <= i < |events| && ExpectsMessage(events[i]) && ExpectsMessage(e)
        ensures events[i].snapshot.expected.value.runId != e.snapshot.expected.value.runId
      {
      }
    }
  }

  lemma AppendedRunIsFresh(env: Env, events: seq<Event>, c: Command, call: Call)
    requires |Apply(env, events, c, call).events| == |events| + 1
    ensures var e := Apply(env, events, c, call).events[|events|];
      ExpectsMessage(e) ==> e.snapshot.expected.value.runId !in BoundRuns(events)
  {
    hide Ingest, SnapshotOk, WithKey, NonBlank, BoundRuns;
    var o := Expire(env, events, call);
    if o.events == events && !c.Start? && !c.Abandon? && !c.Show? && IsActive(events)
       && Ingest(env, events, c).Some? {
      IngestBindsFreshRun(env, events, c);
    } else if |o.events| == |events| + 1 && !c.Show? && !o.reply.Raised? {
      TerminalStaysPut(env, o.events, c, call);
    }
  }

  /** No run serves as both the challenge and the verification. */
  lemma {:induction false} RunsAreDistinct(env: Env, script: seq<(Command, Call)>)
    ensures DistinctRuns(Execute(env, script))
  {
    hide Apply, DistinctRuns;
    if script != [] {
      var before := Execute(env, script[..|script| - 1]);
      RunsAreDistinct(env, script[..|script| - 1]);
      ApplyKeepsDistinctRuns(env, before, script[|script| - 1].0, script[|script| - 1].1);
    } else {
      assert DistinctRuns([]) by { NoRuns(); }
    }
  }

  lemma NoRuns()
    ensures DistinctRuns([])
  {
  }

  // ---- Artifacts ----------------------------------------------------------

  predicate ExpectsRun(e: Event) { e.snapshot.expected.Some? && e.snapshot.expected.value.Run? }

  function PromptOf(e: Event): Prompt
    requires ExpectsRun(e)
  {
    e.snapshot.expected.value.prompt
  }

  predicate PromptNamed(e: Event)
    requires ExpectsRun(e)
  {
    PromptOf(e).leaf == if e.snapshot.expected.value.stage.ChallengeStage? then CHALLENGE_PROMPT else VERIFICATION_PROMPT
  }

  function StageOf(e: Event): Stage
    requires ExpectsRun(e)
  {
    e.snapshot.expected.value.stage
  }

  predicate SamePrompt(a: Event, b: Event)
    requires ExpectsRun(a) && ExpectsRun(b)
  {
    StageOf(a) == StageOf(b) ==> PromptOf(a).sha == PromptOf(b).sha
  }

  predicate SameContext(a: Event, b: Event) {
    a.assuranceId == b.assuranceId && Context(a.snapshot.fixed) == Context(b.snapshot.fixed)
  }

  /** One context throughout, prompts under their durable names, one digest per prompt. */
  predicate ArtifactsUpTo(events: seq<Event>, n: nat)
    requires n <= |events|
  {
    && (forall i :: 0 <= i < n ==> SameContext(events[i], events[0]))
    && (forall i :: 0 <= i < n && ExpectsRun(events[i]) ==> PromptNamed(events[i]))
    && (forall i, j :: 0 <= i < j < n && ExpectsRun(events[i]) && ExpectsRun(events[j]) ==>
          SamePrompt(events[i], events[j]))
  }

  predicate ArtifactsOk(events: seq<Event>) { ArtifactsUpTo(events, |events|) }

  /** The immutable tuple the artifact check compares. */
  function Context(f: Fixed): Fixed {
    f.(createdAt := 0, deadlineAt := 0, runTimeout := 0, challengePath := "", verifyPath := "", verifications := [])
  }

  /** `prompts` holds exactly the digests the first `n` events bind; `origin` says where. */
  ghost predicate Collected(events: seq<Event>, n: nat, prompts: map<Stage, Digest>, origin: map<Stage, nat>)
    requires n <= |events|
  {
    && prompts.Keys == origin.Keys
    && (forall st :: st in prompts ==> Binds(events, n, st, prompts[st], origin[st]))
    && (forall i :: 0 <= i < n && ExpectsRun(events[i]) ==>
          StageOf(events[i]) in prompts && prompts[StageOf(events[i])] == PromptOf(events[i]).sha)
  }

  ghost predicate Binds(events: seq<Event>, n: nat, st: Stage, sha: Digest, i: nat)
    requires n <= |events|
  {
    i < n && ExpectsRun(events[i]) && StageOf(events[i]) == st && PromptOf(events[i]).sha == sha
  }

  predicate Fits(events: seq<Event>, n: nat, prompts: map<Stage, Digest>)
    requires n < |events|
  {
    && SameContext(events[n], events[0])
    && (ExpectsRun(events[n]) ==>
          PromptNamed(events[n])
          && (StageOf(events[n]) in prompts ==> prompts[StageOf(events[n])] == PromptOf(events[n]).sha))
  }

  lemma FitExtends(events: seq<Event>, n: nat, prompts: map<Stage, Digest>, origin: map<Stage, nat>)
    requires n < |events| && ArtifactsUpTo(events, n) && Collected(events, n, prompts, origin)
    ensures ArtifactsUpTo(events, n + 1) <==> Fits(events, n, prompts)
  {
    hide PromptNamed, SameContext, ExpectsRun, PromptOf, StageOf;
    if ExpectsRun(events[n]) && StageOf(events[n]) in prompts {
      var i := origin[StageOf(events[n])];
      assert Binds(events, n, StageOf(events[n]), prompts[StageOf(events[n])], i);
      assert ArtifactsUpTo(events, n + 1) ==> SamePrompt(events[i], events[n]);
    }
  }

  lemma CollectOne(events: seq<Event>, n: nat, prompts: map<Stage, Digest>, origin: map<Stage, nat>)
    requires n < |events| && Collected(events, n, prompts, origin) && Fits(events, n, prompts)
    ensures var e := events[n];
      if ExpectsRun(e) then
        Collected(events, n + 1, prompts[StageOf(e) := PromptOf(e).sha],
                  if StageOf(e) in prompts then origin else origin[StageOf(e) := n])
      else Collected(events, n + 1, prompts, origin)
  {
    hide PromptNamed, SameContext, ExpectsRun, PromptOf, StageOf;
  }

  /** The archived artifacts a ledger binds: one context, and a digest per prompt. */
  method ArtifactExpectations(events: seq<Event>) returns (ok: bool, prompts: map<Stage, Digest>)
    ensures ok <==> ArtifactsOk(events)
    ensures ok ==> forall i :: 0 <= i < |events| && ExpectsRun(events[i]) ==>
      StageOf(events[i]) in prompts && prompts[StageOf(events[i])] == PromptOf(events[i]).sha
  {
    hide PromptNamed, SameContext, ExpectsRun, PromptOf, StageOf, ArtifactsUpTo, SamePrompt;
    prompts := map[];
    ghost var origin: map<Stage, nat> := map[];
    ok := true;
    var n := 0;
    assert ArtifactsUpTo(events, 0) by { NothingToCheck(events); }
    while n < |events| && ok
      invariant n <= |events|
      invariant ok ==> ArtifactsUpTo(events, n) && Collected(events, n, prompts, origin)
      invariant !ok ==> !ArtifactsOk(events)
    {
      ok := Fits(events, n, prompts);
      FitExtends(events, n, prompts, origin);
      if ok {
        CollectOne(events, n, prompts, origin);
        if ExpectsRun(events[n]) {
          var stage := StageOf(events[n]);
          origin := if stage in prompts then origin else origin[stage := n];
          prompts := prompts[stage := PromptOf(events[n]).sha];
        }
      } else {
        ChecksAreMonotone(events, n + 1);
      }
      n := n + 1;
    }
  }

  lemma NothingToCheck(events: seq<Event>)
    ensures ArtifactsUpTo(events, 0)
  {
  }

  lemma ChecksAreMonotone(events: seq<Event>, n: nat)
    requires n <= |events| && !ArtifactsUpTo(events, n)
    ensures !ArtifactsOk(events)
  {
  }

  /** Every reachable ledger satisfies its artifact expectations. */
  lemma ReachableArtifacts(env: Env, script: seq<(Command, Call)>)
    requires Injective(env.requestHash)
    ensures ArtifactsOk(Execute(env, script))
  {
    ReachableLedgers(env, script);
    TrailArtifacts(env, Execute(env, script));
  }

  lemma RunPosition(env: Env, events: seq<Event>, i: nat)
    requires Trail(env, events) && i < |events| && ExpectsRun(events[i])
    ensures PromptNamed(events[i]) && i == if StageOf(events[i]).ChallengeStage? then 0 else 3
  {
    TrailShape(env, events, i);
    hide Linked, FirstOk, FromCaller;
    assert Consistent(events[i].snapshot);
  }

  lemma TrailArtifacts(env: Env, events: seq<Event>)
    requires Trail(env, events)
    ensures ArtifactsOk(events)
  {
    hide Trail, ExpectsRun, PromptNamed, PromptOf, StageOf;
    forall i | 0 <= i < |events| ensures SameContext(events[i], events[0]) {
      TrailShape(env, events, i);
    }
    forall i | 0 <= i < |events| && ExpectsRun(events[i]) ensures PromptNamed(events[i]) {
      RunPosition(env, events, i);
    }
    forall i, j | 0 <= i < j < |events| && ExpectsRun(events[i]) && ExpectsRun(events[j])
      ensures SamePrompt(events[i], events[j])
    {
      RunPosition(env, events, i);
      RunPosition(env, events, j);
    }
  }

  // ---- The controller the program runs ------------------------------------

  class Controller {
    const env: Env
    var events: seq<Event>

    constructor (env: Env)
      ensures this.env == env && events == []
    {
      this.env, this.events := env, [];
    }

    method AppendEvent(assuranceId: string, kind: EventKind, key: string, request: Request, snapshot: Snapshot,
                       now: int, id: string) returns (reply: Reply)
      modifies this
      ensures Outcome(events, reply) == Append(env, old(events), assuranceId, kind, key, request, snapshot, now, id)
    {
      hide SnapshotOk;
      if !env.keyOk(key) {
        return Raised;
      }
      var existing := WithKey(events, key);
      if existing.Some? {
        return if existing.value.request == env.requestHash(request) then Replayed(existing.value) else Raised;
      }
      if !SnapshotOk(env, snapshot) || !env.uuidOk(id) || !env.uuidOk(assuranceId) {
        return Raised;
      }
      var e := Event(
        |events| + 1, now, id, env.feature, assuranceId, kind, key, env.requestHash(request),
        if events == [] then None else Some(events[|events| - 1].sha), snapshot, 0);
      e := e.(sha := env.eventHash(e));
      if exists i :: 0 <= i < |events| && events[i].id == id {
        return Raised;
      }
      events := events + [e];
      reply := Recorded(e);
    }

    method ExpireLocked(call: Call) returns (reply: Reply)
      modifies this
      ensures Outcome(events, reply) == Expire(env, old(events), call)
    {
      hide Append;
      if events == [] {
        return Current(None);
      }
      var latest := events[|events| - 1];
      if !Active(latest.snapshot.status) || call.now < latest.snapshot.fixed.deadlineAt {
        return Current(Some(latest));
      }
      reply := AppendEvent(
        latest.assuranceId, DeadlineExpired, env.deadlineKey(latest.assuranceId), DeadlineRequest(latest.assuranceId),
        Terminal(latest.snapshot, Indeterminate, "assurance_deadline_exceeded"), call.now, call.expiryId);
    }

    method Handle(c: Command, call: Call) returns (reply: Reply)
      modifies this
      ensures Outcome(events, reply) == Apply(env, old(events), c, call)
    {
      hide Expire, Append, Ingest, FirstSnapshot, WithKey, NonBlank;
      if c.Abandon? && !NonBlank(c.reason) {
        return Raised;
      }
      reply := ExpireLocked(call);
      if reply.Raised? {
        return;
      }
      if c.Show? {
        return if events == [] then Raised else Current(Some(events[|events| - 1]));
      }
      var existing := WithKey(events, call.key);
      if existing.Some? {
        return if existing.value.request == env.requestHash(RequestOf(env, c)) then Replayed(existing.value) else Raised;
      }
      if c.Start? {
        if events != [] || c.accepted.None? {
          return Raised;
        }
        var a := c.accepted.value;
        reply := AppendEvent(a.assuranceId, Started, call.key, RequestOf(env, c), FirstSnapshot(a, call.now),
                             call.now, call.eventId);
        return;
      }
      if events == [] || !Active(events[|events| - 1].snapshot.status) {
        return Raised;
      }
      var latest := events[|events| - 1];
      if c.Abandon? {
        reply := AppendEvent(
          latest.assuranceId, AssuranceAbandoned, call.key, RequestOf(env, c),
          Terminal(latest.snapshot, Status.Abandoned, "operator_abandoned:" + c.reason), call.now, call.eventId);
        return;
      }
      var next := Ingest(env, events, c);
      if next.None? {
        return Raised;
      }
      reply := AppendEvent(latest.assuranceId, next.value.1, call.key, RequestOf(env, c), next.value.0,
                           call.now, call.eventId);
    }
  }
}
