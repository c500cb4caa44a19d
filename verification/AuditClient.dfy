/** Offline verification of an audit store, and the verification receipt kept beside it. */
module AuditClient {
  import opened Common
  import opened AuditLedger

  const LOCAL_TRUST: string := "local-development"
  const EXTERNAL_TRUST: string := "external-compliance"
  const LINE_FEED: Byte := 10

  /** The stored verification receipt. */
  datatype Verdict = Verdict(
    mission: string, records: int, head: string, ledgerSha: string, worm: bool, backend: string, trust: string,
    keySha: string, anchorsSha: string, verifiedAt: int, signature: Bytes)

  type Envelope = seq<(string, Option<Receipt>)>

  /** Canonical UUIDs, digests' format, the envelope digest, and the receipt key pair. */
  datatype Keys = Keys(
    uuidOk: string -> bool, hexOk: string -> bool, envelopeSha: Envelope -> string,
    publicKey: Bytes, sign: Verdict -> Bytes, accepts: (Verdict, Bytes) -> bool)

  /** What the workflow demands. */
  datatype Policy = Policy(worm: bool, trust: string)

  function Unsigned(v: Verdict): Verdict { v.(signature := []) }

  /** Signatures made with the private key are accepted, digests are hexadecimal, and no
      CONTROL signature is empty. */
  ghost predicate KeysOk(env: Env, keys: Keys) {
    && (forall v: Verdict :: keys.accepts(Unsigned(v), keys.sign(Unsigned(v))))
    && (forall b :: keys.hexOk(env.sha(b))) && (forall b :: env.mac(b) != "")
  }

  /** Sinks the program can construct. */
  predicate SinkOk(s: Sink) {
    s.backend != "" && (s.trust == LOCAL_TRUST || (s.kind.ObjectLock? && s.trust == EXTERNAL_TRUST))
  }

  function Lines(env: Env, events: seq<Event>): Bytes {
    if events == [] then []
    else Lines(env, events[..|events| - 1]) + env.encode(events[|events| - 1]) + [LINE_FEED]
  }

  // ---- Reading the public evidence ----------------------------------------

  predicate ChainOk(env: Env, events: seq<Event>) {
    && events != []
    && forall i :: 0 <= i < |events| ==>
         !Falsy(Get(events[i], Signature)) && DigestOk(env, events[i], PreviousOf(env, events[..i]))
  }

  method ReadChain(env: Env, records: seq<Event>) returns (ok: bool)
    ensures ok <==> ChainOk(env, records)
  {
    hide DigestOk, Falsy;
    var previous := GENESIS;
    var n := 0;
    while n < |records|
      invariant n <= |records|
      invariant previous == PreviousOf(env, records[..n])
      invariant forall i :: 0 <= i < n ==>
        !Falsy(Get(records[i], Signature)) && DigestOk(env, records[i], PreviousOf(env, records[..i]))
    {
      if Falsy(Get(records[n], Signature)) || !DigestOk(env, records[n], previous) {
        return false;
      }
      previous := StoredSha(env, records[n]);
      n := n + 1;
    }
    ok := records != [];
  }

  function Ids(events: seq<Event>): set<string> { set i | 0 <= i < |events| :: TextAt(events[i], EventId) }

  function ReceiptOf(s: Store, e: Event): Option<Receipt> {
    if TextAt(e, EventId) in s.receipts then Some(s.receipts[TextAt(e, EventId)]) else None
  }

  function EnvelopeOf(s: Store, events: seq<Event>): (e: Envelope)
    ensures |e| == |events|
  {
    seq(|events|, i requires 0 <= i < |events| => (TextAt(events[i], EventId), ReceiptOf(s, events[i])))
  }

  predicate IdsOk(keys: Keys, events: seq<Event>) {
    forall i :: 0 <= i < |events| ==> Get(events[i], EventId).Text? && keys.uuidOk(TextAt(events[i], EventId))
  }

  /** The receipt directory holds one receipt per event and nothing else, pending marks included. */
  predicate EnvelopeOk(keys: Keys, s: Store) {
    IdsOk(keys, s.ledger) && s.receipts.Keys == Ids(s.ledger) && s.pending == map[]
  }

  predicate AllCompliant(events: seq<Event>) {
    forall i :: 0 <= i < |events| ==> Get(events[i], Compliance) == Flag(true)
  }

  predicate AnchorOk(keys: Keys, e: Event, r: Receipt, compliant: bool) {
    && r.version.Some? == compliant && r.retainedUntil.Some? == compliant && r.mode.Some? == compliant
    && Get(e, EventSha) == Text(r.sha) && Get(e, Backend) == Text(r.backend) && Get(e, Trust) == Text(r.trust)
    && Get(e, ObjectKey) == Text(r.objectKey) && Get(e, Compliance) == Flag(r.worm) && r.worm == compliant
    && keys.hexOk(r.sha)
    && (compliant ==>
          && Get(e, Retention) == Text(r.mode.value) && r.mode.value == COMPLIANCE_MODE
          && Usable(r.version.value) && r.objectKey != "")
  }

  predicate AnchorsOk(keys: Keys, s: Store, compliant: bool) {
    forall i :: 0 <= i < |s.ledger| ==>
      ReceiptOf(s, s.ledger[i]).Some? && AnchorOk(keys, s.ledger[i], ReceiptOf(s, s.ledger[i]).value, compliant)
  }

  predicate Uniform(events: seq<Event>, k: Key, v: Value) { forall i :: 0 <= i < |events| ==> Get(events[i], k) == v }

  predicate SignatureOk(keys: Keys, v: Verdict) { keys.accepts(Unsigned(v), v.signature) }

  predicate SummaryOk(env: Env, keys: Keys, s: Store, v: Verdict)
    requires s.ledger != []
  {
    && v.records == |s.ledger| && Get(s.ledger[|s.ledger| - 1], EventSha) == Text(v.head)
    && Uniform(s.ledger, RunId, Text(v.mission))
    && v.ledgerSha == env.sha(Lines(env, s.ledger)) && v.keySha == env.sha(keys.publicKey)
    && v.anchorsSha == keys.envelopeSha(EnvelopeOf(s, s.ledger))
  }

  predicate VerifyOffline(env: Env, keys: Keys, s: Store, v: Verdict, policy: Policy) {
    var compliant := AllCompliant(s.ledger);
    && ChainOk(env, s.ledger) && SummaryOk(env, keys, s, v) && EnvelopeOk(keys, s) && SignatureOk(keys, v)
    && Uniform(s.ledger, Compliance, Flag(compliant))
    && Uniform(s.ledger, Backend, Text(v.backend)) && v.backend != ""
    && Uniform(s.ledger, Trust, Text(v.trust)) && (v.trust == LOCAL_TRUST || v.trust == EXTERNAL_TRUST)
    && v.worm == compliant && (policy.worm ==> compliant) && policy.trust == v.trust
    && (v.trust == EXTERNAL_TRUST ==> compliant)
    && AnchorsOk(keys, s, compliant)
  }

  // ---- Minting and re-validating the receipt ------------------------------

  function Mint(env: Env, keys: Keys, s: Store, mission: string, now: int): Verdict
    requires s.ledger != []
  {
    var last := s.ledger[|s.ledger| - 1];
    var v := Verdict(
      mission, |s.ledger|, TextAt(last, EventSha), env.sha(Lines(env, s.ledger)), AllCompliant(s.ledger),
      TextAt(last, Backend), TextAt(last, Trust), env.sha(keys.publicKey),
      keys.envelopeSha(EnvelopeOf(s, s.ledger)), now, []);
    v.(signature := keys.sign(v))
  }

  /** A stored receipt still describes a prefix of the ledger. */
  predicate PriorOk(env: Env, keys: Keys, s: Store, v: Verdict, mission: string) {
    && 1 <= v.records <= |s.ledger|
    && v.mission == mission && Get(s.ledger[v.records - 1], EventSha) == Text(v.head)
    && v.worm == AllCompliant(s.ledger)
    && v.backend == TextAt(s.ledger[|s.ledger| - 1], Backend) && v.trust == TextAt(s.ledger[|s.ledger| - 1], Trust)
    && v.keySha == env.sha(keys.publicKey)
    && v.ledgerSha == env.sha(Lines(env, s.ledger[..v.records]))
    && v.anchorsSha == keys.envelopeSha(EnvelopeOf(s, s.ledger)[..v.records])
    && SignatureOk(keys, v)
  }

  function Stable(v: Verdict): Verdict { v.(verifiedAt := 0, signature := []) }

  /** One verification: the receipt afterwards, and whether it succeeded. */
  function Verify(env: Env, keys: Keys, s: Store, prior: Option<Verdict>, mission: string, policy: Policy, now: int)
    : (Option<Verdict>, bool)
  {
    if !ChainOk(env, s.ledger) || !EnvelopeOk(keys, s) || !LedgerOk(env, s.ledger)
       || policy.worm != AllCompliant(s.ledger)
    then (prior, false)
    else if prior.Some? && !PriorOk(env, keys, s, prior.value, mission) then (prior, false)
    else
      var minted := Mint(env, keys, s, mission, now);
      var kept := if prior.Some? && Stable(prior.value) == Stable(minted) then prior.value else minted;
      (Some(kept), VerifyOffline(env, keys, s, kept, policy))
  }

  // ---- What the writer produces, the verifier accepts ---------------------

  lemma SoundEvent(env: Env, keys: Keys, run: string, s: Store, i: nat)
    requires Sound(env, run, s) && KeysOk(env, keys) && i < |s.ledger|
    ensures var e := s.ledger[i];
      && Controlled(env, run, e, i) && TextAt(e, EventId) in s.receipts
      && ReceiptMatches(env, e, s.receipts[TextAt(e, EventId)])
      && !Falsy(Get(e, Signature)) && DigestOk(env, e, PreviousOf(env, s.ledger[..i]))
      && keys.hexOk(TextAt(e, EventSha))
  {
    hide DistinctIds, InLedger, ReceiptMatches, PreviousOf;
    assert Recorded(env, run, s, i);
    assert RecordOk(env, s.ledger[i], PreviousOf(env, s.ledger[..i]));
  }

  lemma SoundChain(env: Env, keys: Keys, run: string, s: Store)
    requires Sound(env, run, s) && KeysOk(env, keys) && s.ledger != []
    ensures ChainOk(env, s.ledger)
  {
    hide Sound, DigestOk, KeysOk, Controlled, ReceiptMatches, Falsy;
    forall i | 0 <= i < |s.ledger|
      ensures !Falsy(Get(s.ledger[i], Signature)) && DigestOk(env, s.ledger[i], PreviousOf(env, s.ledger[..i]))
    {
      SoundEvent(env, keys, run, s, i);
    }
  }

  lemma SoundFields(env: Env, keys: Keys, run: string, s: Store)
    requires Sound(env, run, s) && KeysOk(env, keys) && s.ledger != []
    ensures Uniform(s.ledger, RunId, Text(run)) && Uniform(s.ledger, Backend, Text(env.sink.backend))
    ensures Uniform(s.ledger, Trust, Text(env.sink.trust)) && Uniform(s.ledger, Compliance, Flag(Compliant(env.sink)))
    ensures AllCompliant(s.ledger) == Compliant(env.sink)
  {
    hide Sound, DigestOk, KeysOk, ReceiptMatches, Falsy;
    forall i | 0 <= i < |s.ledger|
      ensures Get(s.ledger[i], RunId) == Text(run) && Get(s.ledger[i], Backend) == Text(env.sink.backend)
      ensures Get(s.ledger[i], Trust) == Text(env.sink.trust)
      ensures Get(s.ledger[i], Compliance) == Flag(Compliant(env.sink))
    {
      SoundEvent(env, keys, run, s, i);
    }
    assert Get(s.ledger[0], Compliance) == Flag(Compliant(env.sink));
  }

  lemma SoundEnvelope(env: Env, keys: Keys, run: string, s: Store)
    requires Sound(env, run, s) && KeysOk(env, keys) && s.pending == map[]
    ensures s.receipts.Keys == Ids(s.ledger)
  {
    hide LedgerOk, DistinctIds, KeysOk, DigestOk, Controlled, ReceiptMatches;
    forall id ensures id in s.receipts <==> id in Ids(s.ledger) {
      if id in s.receipts {
        assert InLedger(s.ledger, id);
      }
      if id in Ids(s.ledger) {
        var i :| 0 <= i < |s.ledger| && TextAt(s.ledger[i], EventId) == id;
        SoundEvent(env, keys, run, s, i);
      }
    }
  }

  /** An anchor that offline verification can accept: under an object lock, a named object with
      a usable version. */
  predicate AnchorNamed(env: Env, s: Store, e: Event) {
    Compliant(env.sink) ==>
      ReceiptOf(s, e).Some? && TextAt(e, ObjectKey) != ""
      && ReceiptOf(s, e).value.version.Some? && Usable(ReceiptOf(s, e).value.version.value)
  }

  lemma SoundAnchor(env: Env, keys: Keys, run: string, s: Store, i: nat)
    requires Sound(env, run, s) && KeysOk(env, keys) && i < |s.ledger|
    ensures ReceiptOf(s, s.ledger[i]).Some?
    ensures AnchorOk(keys, s.ledger[i], ReceiptOf(s, s.ledger[i]).value, Compliant(env.sink)) <==>
      AnchorNamed(env, s, s.ledger[i])
  {
    SoundEvent(env, keys, run, s, i);
    hide Sound, KeysOk, DigestOk, Falsy;
  }

  predicate AllNamed(env: Env, s: Store) { forall i :: 0 <= i < |s.ledger| ==> AnchorNamed(env, s, s.ledger[i]) }

  /** The verification receipt minted over a reachable store passes offline verification
      exactly when the store is quiescent, its event ids are canonical UUIDs, and its object
      lock anchors, if any, have usable versions. */
  lemma QuiescentStoreVerifies(env: Env, keys: Keys, run: string, s: Store, now: int)
    requires Sound(env, run, s) && KeysOk(env, keys) && SinkOk(env.sink) && s.ledger != []
    ensures VerifyOffline(env, keys, s, Mint(env, keys, s, run, now), Policy(Compliant(env.sink), env.sink.trust))
      <==> s.pending == map[] && IdsOk(keys, s.ledger) && AllNamed(env, s)
  {
    hide Sound, KeysOk, ChainOk, AnchorsOk, IdsOk, Uniform, AllCompliant, SummaryOk, SignatureOk, Ids, Mint, AllNamed;
    SoundChain(env, keys, run, s);
    SoundFields(env, keys, run, s);
    MintFields(env, keys, run, s, now);
    SoundAnchors(env, keys, run, s);
    if s.pending == map[] {
      SoundEnvelope(env, keys, run, s);
    }
  }

  lemma SoundAnchors(env: Env, keys: Keys, run: string, s: Store)
    requires Sound(env, run, s) && KeysOk(env, keys)
    ensures AnchorsOk(keys, s, Compliant(env.sink)) <==> AllNamed(env, s)
  {
    hide Sound, KeysOk, AnchorOk, AnchorNamed, ReceiptOf;
    forall i | 0 <= i < |s.ledger|
      ensures ReceiptOf(s, s.ledger[i]).Some?
      ensures AnchorOk(keys, s.ledger[i], ReceiptOf(s, s.ledger[i]).value, Compliant(env.sink)) <==>
        AnchorNamed(env, s, s.ledger[i])
    {
      SoundAnchor(env, keys, run, s, i);
    }
  }

  lemma LastFields(env: Env, keys: Keys, run: string, s: Store)
    requires Sound(env, run, s) && KeysOk(env, keys) && s.ledger != []
    ensures TextAt(s.ledger[|s.ledger| - 1], Backend) == env.sink.backend
    ensures TextAt(s.ledger[|s.ledger| - 1], Trust) == env.sink.trust
    ensures AllCompliant(s.ledger) == Compliant(env.sink)
  {
    hide Sound, KeysOk, AllCompliant;
    SoundFields(env, keys, run, s);
  }

  lemma MintFields(env: Env, keys: Keys, run: string, s: Store, now: int)
    requires Sound(env, run, s) && KeysOk(env, keys) && s.ledger != []
    ensures var v := Mint(env, keys, s, run, now);
      && SummaryOk(env, keys, s, v) && SignatureOk(keys, v)
      && v.backend == env.sink.backend && v.trust == env.sink.trust && v.worm == Compliant(env.sink)
      && v.records == |s.ledger| && v.mission == run
  {
    SoundFields(env, keys, run, s);
    SoundEvent(env, keys, run, s, |s.ledger| - 1);
    hide Sound, DigestOk, ReceiptMatches, Falsy, AllCompliant, Lines, EnvelopeOf;
    var v := Mint(env, keys, s, run, now);
    assert Unsigned(v) == v.(signature := []);
  }

  lemma MintedIsPrior(env: Env, keys: Keys, run: string, s: Store, now: int)
    requires Sound(env, run, s) && KeysOk(env, keys) && s.ledger != []
    ensures PriorOk(env, keys, s, Mint(env, keys, s, run, now), run)
  {
    hide Sound, KeysOk, SignatureOk, AllCompliant, EnvelopeOf, Lines, Mint, Uniform, Get, TextAt;
    MintFields(env, keys, run, s, now);
    LastFields(env, keys, run, s);
    assert s.ledger[..|s.ledger|] == s.ledger;
    assert EnvelopeOf(s, s.ledger)[..|s.ledger|] == EnvelopeOf(s, s.ledger);
  }

  /** A stored receipt stays valid as a prefix of every later ledger. */
  lemma PriorSurvives(env: Env, keys: Keys, run: string, s: Store, t: Store, v: Verdict)
    requires Sound(env, run, s) && Sound(env, run, t) && KeysOk(env, keys)
    requires s.ledger <= t.ledger && ReceiptsKept(s, t) && PriorOk(env, keys, s, v, run)
    ensures PriorOk(env, keys, t, v, run)
  {
    hide Sound, KeysOk, SignatureOk, AllCompliant, EnvelopeOf, Lines, ReceiptsKept, Get, TextAt;
    LastFields(env, keys, run, s);
    LastFields(env, keys, run, t);
    EnvelopeSurvives(env, keys, run, s, t, v.records);
    assert t.ledger[..v.records] == s.ledger[..v.records];
    assert t.ledger[v.records - 1] == s.ledger[v.records - 1];
  }

  lemma EnvelopeSurvives(env: Env, keys: Keys, run: string, s: Store, t: Store, n: nat)
    requires Sound(env, run, s) && KeysOk(env, keys) && s.ledger <= t.ledger && ReceiptsKept(s, t) && n <= |s.ledger|
    ensures EnvelopeOf(t, t.ledger)[..n] == EnvelopeOf(s, s.ledger)[..n]
  {
    hide Sound, KeysOk, DigestOk, Controlled, ReceiptMatches, Falsy;
    forall i | 0 <= i < n ensures EnvelopeOf(t, t.ledger)[i] == EnvelopeOf(s, s.ledger)[i] {
      SoundEvent(env, keys, run, s, i);
    }
  }

  // ---- Any history of appends and verifications ---------------------------

  datatype Step = Add(call: Call, budget: nat) | Check(now: int)

  datatype Audit = Audit(store: Store, verdict: Option<Verdict>)

  function After(env: Env, keys: Keys, run: string, policy: Policy, a: Audit, step: Step): Audit {
    match step
    case Add(c, budget) => a.(store := Append(env, a.store, c, budget).store)
    case Check(now) => a.(verdict := Verify(env, keys, a.store, a.verdict, run, policy, now).0)
  }

  function History(env: Env, keys: Keys, run: string, policy: Policy, a: Audit, steps: seq<Step>): Audit {
    if steps == [] then a
    else After(env, keys, run, policy, History(env, keys, run, policy, a, steps[..|steps| - 1]), steps[|steps| - 1])
  }

  ghost predicate ProperSteps(env: Env, keys: Keys, run: string, policy: Policy, a: Audit, steps: seq<Step>) {
    forall i :: 0 <= i < |steps| && steps[i].Add? ==>
      Proper(env, run, History(env, keys, run, policy, a, steps[..i]).store, steps[i].call)
  }

  ghost predicate Valid(env: Env, keys: Keys, run: string, a: Audit) {
    Sound(env, run, a.store) && (a.verdict.Some? ==> PriorOk(env, keys, a.store, a.verdict.value, run))
  }

  function Records(a: Audit): int { if a.verdict.Some? then a.verdict.value.records else 0 }

  lemma StepKeepsValid(env: Env, keys: Keys, run: string, policy: Policy, a: Audit, step: Step)
    requires Valid(env, keys, run, a) && KeysOk(env, keys)
    requires Injective(env.sha) && Injective(env.mac) && Injective(env.encode)
    requires step.Add? ==> Proper(env, run, a.store, step.call)
    ensures Valid(env, keys, run, After(env, keys, run, policy, a, step))
    ensures Records(a) <= Records(After(env, keys, run, policy, a, step))
    ensures step.Check? ==> var b := After(env, keys, run, policy, a, step);
      b == a || (b.verdict.Some? && b.verdict.value.records == |a.store.ledger|)
  {
    hide Sound, KeysOk, Injective, Append, PriorOk, VerifyOffline, ChainOk, EnvelopeOk, LedgerOk, AllCompliant, Proper;
    if step.Add? {
      AppendKeepsSound(env, run, a.store, step.call, step.budget);
      if a.verdict.Some? {
        PriorSurvives(env, keys, run, a.store, Append(env, a.store, step.call, step.budget).store, a.verdict.value);
      }
    } else {
      CheckKeepsValid(env, keys, run, policy, a, step.now);
    }
  }

  lemma CheckKeepsValid(env: Env, keys: Keys, run: string, policy: Policy, a: Audit, now: int)
    requires Valid(env, keys, run, a) && KeysOk(env, keys)
    ensures var v := Verify(env, keys, a.store, a.verdict, run, policy, now).0;
      && (v.Some? ==> PriorOk(env, keys, a.store, v.value, run))
      && (a.verdict.Some? ==> v.Some? && a.verdict.value.records <= v.value.records)
      && (v == a.verdict || (v.Some? && v.value.records == |a.store.ledger|))
  {
    hide Sound, KeysOk, VerifyOffline, EnvelopeOk, LedgerOk, AllCompliant, ChainOk, PriorOk, Mint;
    assert ChainOk(env, a.store.ledger) ==> a.store.ledger != [] by { ChainsAreNonEmpty(env, a.store.ledger); }
    if ChainOk(env, a.store.ledger) {
      MintedIsPrior(env, keys, run, a.store, now);
      MintFields(env, keys, run, a.store, now);
    }
    if a.verdict.Some? {
      PriorBounds(env, keys, a.store, a.verdict.value, run);
    }
  }

  lemma ChainsAreNonEmpty(env: Env, events: seq<Event>)
    ensures ChainOk(env, events) ==> events != []
  {
  }

  lemma PriorBounds(env: Env, keys: Keys, s: Store, v: Verdict, mission: string)
    requires PriorOk(env, keys, s, v, mission)
    ensures v.records <= |s.ledger|
  {
  }

  /** Over any interleaving of appends, crashed or not, and verifications: the store stays
      sound, the stored receipt always validates, and its record count never falls. */
  lemma {:induction false} HistoryKeepsValid(
      env: Env, keys: Keys, run: string, policy: Policy, a: Audit, steps: seq<Step>)
    requires Valid(env, keys, run, a) && KeysOk(env, keys)
    requires Injective(env.sha) && Injective(env.mac) && Injective(env.encode)
    requires ProperSteps(env, keys, run, policy, a, steps)
    ensures Valid(env, keys, run, History(env, keys, run, policy, a, steps))
    ensures Records(a) <= Records(History(env, keys, run, policy, a, steps))
  {
    hide Valid, KeysOk, Injective, After, Records, Proper;
    if steps != [] {
      var front := steps[..|steps| - 1];
      assert forall i :: 0 <= i < |front| ==> front[..i] == steps[..i];
      HistoryKeepsValid(env, keys, run, policy, a, front);
      StepKeepsValid(env, keys, run, policy, History(env, keys, run, policy, a, front), steps[|steps| - 1]);
    }
  }

  /** Verifying a quiescent reachable store with usable names succeeds, whatever receipt an
      earlier verification left. */
  lemma VerifySucceeds(env: Env, keys: Keys, run: string, a: Audit, now: int)
    requires Valid(env, keys, run, a) && KeysOk(env, keys) && SinkOk(env.sink) && a.store.ledger != []
    requires a.store.pending == map[] && IdsOk(keys, a.store.ledger) && AllNamed(env, a.store)
    ensures Verify(env, keys, a.store, a.verdict, run, Policy(Compliant(env.sink), env.sink.trust), now).1
  {
    var s, policy := a.store, Policy(Compliant(env.sink), env.sink.trust);
    QuiescentStoreVerifies(env, keys, run, s, now);
    SoundChain(env, keys, run, s);
    SoundFields(env, keys, run, s);
    SoundEnvelope(env, keys, run, s);
    SoundLedger(env, run, s);
    if a.verdict.Some? {
      KeptReceiptVerifies(env, keys, s, a.verdict.value, Mint(env, keys, s, run, now), policy, run);
    }
    hide Sound, KeysOk, VerifyOffline, LedgerOk, AllCompliant, ChainOk, Mint, PriorOk, IdsOk, AllNamed, Uniform;
  }

  lemma KeptReceiptVerifies(
      env: Env, keys: Keys, s: Store, kept: Verdict, minted: Verdict, policy: Policy, run: string)
    requires PriorOk(env, keys, s, kept, run) && VerifyOffline(env, keys, s, minted, policy)
    ensures Stable(kept) == Stable(minted) ==> VerifyOffline(env, keys, s, kept, policy)
  {
    hide ChainOk, AnchorsOk, EnvelopeOk, Uniform, AllCompliant, Lines, EnvelopeOf;
  }
}
