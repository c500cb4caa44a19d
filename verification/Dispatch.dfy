/** Assured dispatch as a state machine: one locked process per action, interleaved with the
    processes of other actions, crashes, approval renewals, finalizations and aborts. Every
    label is one durable step or one read. */
module Dispatch {
  import opened Common

  /** What an admission's deterministic identity is made of. */
  datatype Identity = Identity(action: string, approval: Digest, attempt: nat)

  /** A dispatch as its caller asks for it. `effect` is the digest of everything else the
      effect binds: provider, runner and output contract. */
  datatype Action = Action(
    key: string, instance: string, capability: string, task: Digest, effect: Digest, writer: bool)

  datatype Phase = Reserved | Committed | Authorized | Started | Finalized | Aborted

  /** `parent` is the started Lead admission found when the reservation was made. */
  datatype Admission = Admission(
    identity: Identity, run: string, instance: string, capability: string, task: Digest, effect: Digest, writer: bool,
    parent: Option<string>, phase: Phase)

  datatype Approval = Approval(sha: Digest, expires: int)

  datatype Completion = Completion(instance: string, task: Digest, run: string)

  /** A row of the fleet's lifecycle ledger. */
  datatype Row = Row(run: string, instance: string, task: Digest)

  /** A wrapper invocation: whether the run already had a lifecycle row, and whether the
      wrapper goes on after its caller is done with it or dead. */
  datatype Launch = Launch(action: string, run: string, known: bool, lingers: bool)

  datatype Mission = Mission(
    approval: Approval, approvals: set<Digest>, admissions: map<string, Admission>,
    completed: map<string, Completion>, rows: seq<Row>, launches: seq<Launch>, lingering: set<Row>)

  /** Where the process holding an action's lock stands. */
  datatype Point =
    | Chosen
    | Holding(id: string)
    | Noted(id: string)
    | Ready(id: string)
    | Checked(id: string)
    | Launching(id: string)
    | Starting(id: string)
    | Finishing(id: string)
    | Aborting(id: string)

  datatype Local = Local(action: Action, approval: Digest, point: Point)

  datatype Config = Config(mission: Mission, locals: map<string, Local>)

  /** Deterministic admission and run identifiers. */
  datatype Env = Env(idOf: Identity -> string, runOf: Identity -> string)

  predicate Active(a: Admission) { !a.phase.Finalized? && !a.phase.Aborted? }

  /** The launch was authorized at some time. */
  predicate EverAuthorized(a: Admission) { a.phase.Authorized? || a.phase.Started? || a.phase.Finalized? }

  predicate BoundTo(a: Admission, action: Action) {
    && a.instance == action.instance && a.capability == action.capability && a.task == action.task
    && a.effect == action.effect && a.writer == action.writer
  }

  /** A reservation is replayed only for an equal request, its parent included. */
  predicate SameRequest(a: Admission, action: Action, parent: Option<string>) {
    BoundTo(a, action) && a.parent == parent
  }

  /** The recipient has an active delegation, or a second writer is asked for. */
  predicate Busy(m: Mission, action: Action) {
    exists x :: x in m.admissions && Active(m.admissions[x]) && Excludes(m.admissions[x], action.instance, action.writer)
  }

  predicate Excludes(a: Admission, instance: string, writer: bool) { a.instance == instance || (a.writer && writer) }

  predicate HasRow(m: Mission, run: string) { exists i :: 0 <= i < |m.rows| && m.rows[i].run == run }

  predicate RowsMatch(m: Mission, a: Admission) {
    forall i :: 0 <= i < |m.rows| && m.rows[i].run == a.run ==> m.rows[i].instance == a.instance && m.rows[i].task == a.task
  }

  // ---- Choosing the attempt -----------------------------------------------

  predicate Spent(env: Env, m: Mission, i: Identity) {
    env.idOf(i) in m.admissions && m.admissions[env.idOf(i)].phase.Aborted?
  }

  /** The least attempt whose admission is not aborted. */
  predicate Least(env: Env, m: Mission, i: Identity) {
    !Spent(env, m, i) && forall k :: 0 <= k < i.attempt ==> Spent(env, m, Identity(i.action, i.approval, k))
  }

  /** The ids of the first `n` attempts are distinct admissions. */
  lemma {:induction false} AttemptIds(env: Env, m: Mission, action: string, approval: Digest, n: nat)
    returns (ids: set<string>)
    requires Injective(env.idOf)
    requires forall k :: 0 <= k < n ==> Spent(env, m, Identity(action, approval, k))
    ensures |ids| == n && ids <= m.admissions.Keys
    ensures forall k {:trigger Identity(action, approval, k)} :: k >= n ==> env.idOf(Identity(action, approval, k)) !in ids
  {
    if n == 0 {
      ids := {};
    } else {
      var front := AttemptIds(env, m, action, approval, n - 1);
      assert Spent(env, m, Identity(action, approval, n - 1));
      ids := front + {env.idOf(Identity(action, approval, n - 1))};
    }
  }

  lemma {:induction false} SubsetIsSmaller(a: set<string>, b: set<string>)
    requires a <= b
    ensures |a| <= |b|
  {
    if a != {} {
      var x :| x in a;
      SubsetIsSmaller(a - {x}, b - {x});
    }
  }

  /** The attempt loop terminates: each round meets another aborted admission. */
  method SelectAttempt(env: Env, m: Mission, action: string, approval: Digest) returns (attempt: nat)
    requires Injective(env.idOf)
    ensures Least(env, m, Identity(action, approval, attempt))
  {
    hide Spent;
    attempt := 0;
    while Spent(env, m, Identity(action, approval, attempt))
      invariant forall k :: 0 <= k < attempt ==> Spent(env, m, Identity(action, approval, k))
      decreases |m.admissions.Keys| - attempt
    {
      ghost var ids := AttemptIds(env, m, action, approval, attempt + 1);
      SubsetIsSmaller(ids, m.admissions.Keys);
      attempt := attempt + 1;
    }
  }

  // ---- Steps --------------------------------------------------------------

  datatype Label =
    | Begin(action: Action)
    | Reserve(key: string, attempt: nat, parent: Option<string>, admitted: bool, now: int)
    | Note(key: string, ok: bool)
    | Commit(key: string, ok: bool, now: int)
    | Reconcile(key: string)
    | Authorize(key: string, ok: bool, now: int)
    | Invoke(key: string, wrote: bool, lingers: bool, reported: Option<string>)
    | Late(row: Row)
    | Start(key: string, ok: bool)
    | Complete(key: string)
    | Abort(key: string)
    | Crash(key: string)
    | Renew(now: int, sha: Digest, expires: int)
    | Finalize(key: string, id: string)
    | Withdraw(id: string)

  function SetPhase(m: Mission, id: string, phase: Phase): Mission
    requires id in m.admissions
  {
    m.(admissions := m.admissions[id := m.admissions[id].(phase := phase)])
  }

  function Move(c: Config, key: string, point: Point): Config
    requires key in c.locals
  {
    c.(locals := c.locals[key := c.locals[key].(point := point)])
  }

  function Leave(c: Config, key: string): Config { c.(locals := c.locals - {key}) }

  /** A completed dispatch is recognized only with its exact binding. */
  predicate CompletedFor(m: Mission, a: Action) {
    a.key in m.completed && m.completed[a.key].instance == a.instance && m.completed[a.key].task == a.task
  }

  function DoBegin(c: Config, a: Action): Config {
    if a.key in c.locals || a.key in c.mission.completed then c
    else c.(locals := c.locals[a.key := Local(a, c.mission.approval.sha, Chosen)])
  }

  function DoReserve(
      env: Env, c: Config, l: Local, attempt: nat, parent: Option<string>, admitted: bool, now: int): Config
    requires l.action.key in c.locals
  {
    var m, key := c.mission, l.action.key;
    var i := Identity(key, l.approval, attempt);
    var id := env.idOf(i);
    if !Least(env, m, i) then c
    else if id in m.admissions then
      if SameRequest(m.admissions[id], l.action, parent) then Move(c, key, Holding(id)) else Leave(c, key)
    else if !admitted || now >= m.approval.expires || Busy(m, l.action) then Leave(c, key)
    else Move(c.(mission := m.(admissions := m.admissions[id := NewAdmission(env, i, l.action, parent)])), key, Holding(id))
  }

  function NewAdmission(env: Env, i: Identity, a: Action, parent: Option<string>): Admission {
    Admission(i, env.runOf(i), a.instance, a.capability, a.task, a.effect, a.writer, parent, Reserved)
  }

  function DoCommit(c: Config, l: Local, id: string, ok: bool, now: int): Config
    requires l.action.key in c.locals && id in c.mission.admissions
  {
    var m, key := c.mission, l.action.key;
    match m.admissions[id].phase
    case Reserved =>
      if ok && now < m.approval.expires then Move(c.(mission := SetPhase(m, id, Committed)), key, Ready(id))
      else Move(c, key, Aborting(id))
    case Aborted => Leave(c, key)
    case _ => Move(c, key, Ready(id))
  }

  function DoReconcile(c: Config, l: Local, id: string): Config
    requires l.action.key in c.locals && id in c.mission.admissions
  {
    var m, key := c.mission, l.action.key;
    var a := m.admissions[id];
    if HasRow(m, a.run) then
      if RowsMatch(m, a) && EverAuthorized(a) then Move(c, key, Starting(id)) else Leave(c, key)
    else
      match a.phase
      case Started => Leave(c, key)
      case Finalized => Leave(c, key)
      case Authorized => Move(c, key, Launching(id))
      case _ => Move(c, key, Checked(id))
  }

  function DoAuthorize(c: Config, l: Local, id: string, ok: bool, now: int): Config
    requires l.action.key in c.locals && id in c.mission.admissions
  {
    var m, key := c.mission, l.action.key;
    if ok && now < m.approval.expires && m.approval.sha == l.approval && m.admissions[id].phase.Committed?
    then Move(c.(mission := SetPhase(m, id, Authorized)), key, Launching(id))
    else Move(c, key, Aborting(id))
  }

  /** The wrapper either writes its row before the call is done with it, or may write it at any
      time later, or both, or neither. */
  function DoInvoke(c: Config, l: Local, id: string, wrote: bool, lingers: bool, reported: Option<string>): Config
    requires l.action.key in c.locals && id in c.mission.admissions
  {
    var m, key := c.mission, l.action.key;
    var a := m.admissions[id];
    var row := Row(a.run, l.action.instance, l.action.task);
    var after := m.(
      launches := m.launches + [Launch(key, a.run, HasRow(m, a.run), lingers)],
      rows := if wrote then m.rows + [row] else m.rows,
      lingering := if lingers then m.lingering + {row} else m.lingering);
    if reported == Some(a.run) then Move(c.(mission := after), key, Starting(id)) else Leave(c.(mission := after), key)
  }

  function DoStart(c: Config, l: Local, id: string, ok: bool): Config
    requires l.action.key in c.locals && id in c.mission.admissions
  {
    var m, key := c.mission, l.action.key;
    match m.admissions[id].phase
    case Started => Move(c, key, Finishing(id))
    case Authorized => if ok then Move(c.(mission := SetPhase(m, id, Started)), key, Finishing(id)) else Leave(c, key)
    case _ => Leave(c, key)
  }

  function DoComplete(c: Config, l: Local, id: string): Config
    requires l.action.key in c.locals && id in c.mission.admissions
  {
    var m, key := c.mission, l.action.key;
    var done := Completion(l.action.instance, l.action.task, m.admissions[id].run);
    Leave(if key in m.completed then c else c.(mission := m.(completed := m.completed[key := done])), key)
  }

  function DoAbort(c: Config, l: Local, id: string): Config
    requires l.action.key in c.locals && id in c.mission.admissions
  {
    var m, key := c.mission, l.action.key;
    var phase := m.admissions[id].phase;
    Leave(if phase.Reserved? || phase.Committed? then c.(mission := SetPhase(m, id, Aborted)) else c, key)
  }

  predicate AnyActive(m: Mission) { exists id :: id in m.admissions && Active(m.admissions[id]) }

  /** A renewal waits for the prior expiry and for every admission to be inactive. */
  function DoRenew(m: Mission, now: int, sha: Digest, expires: int): Mission {
    if now < m.approval.expires || AnyActive(m) || expires <= now || sha in m.approvals then m
    else m.(approval := Approval(sha, expires), approvals := m.approvals + {sha})
  }

  /** Finalization follows the wait that follows a completed dispatch. */
  function DoFinalize(m: Mission, key: string, id: string): Mission {
    if key in m.completed && id in m.admissions && m.admissions[id].run == m.completed[key].run
       && Active(m.admissions[id]) && !m.admissions[id].phase.Reserved?
    then SetPhase(m, id, Finalized) else m
  }

  function DoWithdraw(m: Mission, id: string): Mission {
    if id in m.admissions && (m.admissions[id].phase.Reserved? || m.admissions[id].phase.Committed?)
    then SetPhase(m, id, Aborted) else m
  }

  /** A wrapper that was left behind writes its row. */
  function DoLate(m: Mission, row: Row): Mission { if row in m.lingering then m.(rows := m.rows + [row]) else m }

  /** The admission a point is about. */
  function IdAt(p: Point): Option<string> {
    match p
    case Chosen => None
    case Holding(id) => Some(id)
    case Noted(id) => Some(id)
    case Ready(id) => Some(id)
    case Checked(id) => Some(id)
    case Launching(id) => Some(id)
    case Starting(id) => Some(id)
    case Finishing(id) => Some(id)
    case Aborting(id) => Some(id)
  }

  function KeyOf(s: Label): Option<string> {
    match s
    case Begin(_) => None
    case Renew(_, _, _) => None
    case Finalize(_, _) => None
    case Withdraw(_) => None
    case Late(_) => None
    case _ => Some(s.key)
  }

  /** The step of the process that holds `l`; nothing happens if the process stands elsewhere. */
  function Own(env: Env, c: Config, l: Local, s: Label): Config
    requires l.action.key in c.locals
    requires IdAt(l.point).Some? ==> IdAt(l.point).value in c.mission.admissions
  {
    if s.Crash? then Leave(c, l.action.key)
    else
      match l.point
      case Chosen => if s.Reserve? then DoReserve(env, c, l, s.attempt, s.parent, s.admitted, s.now) else c
      case Holding(id) => if s.Note? then Move(c, l.action.key, if s.ok then Noted(id) else Aborting(id)) else c
      case Noted(id) => if s.Commit? then DoCommit(c, l, id, s.ok, s.now) else c
      case Ready(id) => if s.Reconcile? then DoReconcile(c, l, id) else c
      case Checked(id) => if s.Authorize? then DoAuthorize(c, l, id, s.ok, s.now) else c
      case Launching(id) => if s.Invoke? then DoInvoke(c, l, id, s.wrote, s.lingers, s.reported) else c
      case Starting(id) => if s.Start? then DoStart(c, l, id, s.ok) else c
      case Finishing(id) => if s.Complete? then DoComplete(c, l, id) else c
      case Aborting(id) => if s.Abort? then DoAbort(c, l, id) else c
  }

  function Next(env: Env, c: Config, s: Label): Config {
    match s
    case Begin(a) => DoBegin(c, a)
    case Renew(now, sha, expires) => c.(mission := DoRenew(c.mission, now, sha, expires))
    case Finalize(key, id) => c.(mission := DoFinalize(c.mission, key, id))
    case Withdraw(id) => c.(mission := DoWithdraw(c.mission, id))
    case Late(row) => c.(mission := DoLate(c.mission, row))
    case _ =>
      var key := KeyOf(s).value;
      if key in c.locals && c.locals[key].action.key == key
         && (IdAt(c.locals[key].point).Some? ==> IdAt(c.locals[key].point).value in c.mission.admissions)
      then Own(env, c, c.locals[key], s) else c
  }

  function Execute(env: Env, c: Config, script: seq<Label>): Config
    decreases script
  {
    if script == [] then c else Execute(env, Next(env, c, script[0]), script[1..])
  }

  // ---- The invariant ------------------------------------------------------

  predicate Named(env: Env, id: string, a: Admission) { id == env.idOf(a.identity) && a.run == env.runOf(a.identity) }

  /** Every earlier attempt under the same approval was aborted. */
  predicate Earlier(env: Env, m: Mission, i: Identity) {
    forall k :: 0 <= k < i.attempt ==> Spent(env, m, Identity(i.action, i.approval, k))
  }

  predicate AdmissionOk(env: Env, m: Mission, id: string)
    requires id in m.admissions
  {
    var a := m.admissions[id];
    && Named(env, id, a) && Earlier(env, m, a.identity)
    && (EverAuthorized(a) && Active(a) ==> a.identity.approval == m.approval.sha)
    && (a.phase.Finalized? ==> a.identity.action in m.completed)
  }

  predicate SameActionSameId(m: Mission, x: string, y: string)
    requires x in m.admissions && y in m.admissions
  {
    x == y || !EverAuthorized(m.admissions[x]) || !EverAuthorized(m.admissions[y])
    || m.admissions[x].identity.action != m.admissions[y].identity.action
  }

  /** Some authorized admission of this action has this run. */
  ghost predicate Owned(m: Mission, key: string, run: string) {
    exists id :: OwnedBy(m, key, run, id)
  }

  predicate OwnedBy(m: Mission, key: string, run: string, id: string) {
    && id in m.admissions && EverAuthorized(m.admissions[id])
    && m.admissions[id].identity.action == key && m.admissions[id].run == run
  }

  /** Among the first `n` invocations is one of this run whose wrapper lingers. */
  predicate LeftBehind(launches: seq<Launch>, n: nat, run: string)
    requires n <= |launches|
  {
    exists j :: 0 <= j < n && launches[j].run == run && launches[j].lingers
  }

  /** Only a wrapper left behind can have written a row for this run. */
  predicate Unheard(m: Mission, run: string) { HasRow(m, run) ==> LeftBehind(m.launches, |m.launches|, run) }

  predicate LocalOk(m: Mission, key: string, l: Local) {
    && l.action.key == key && key !in m.completed
    && (IdAt(l.point).Some? ==>
          var id := IdAt(l.point).value;
          && id in m.admissions && m.admissions[id].identity.action == key
          && m.admissions[id].identity.approval == l.approval && BoundTo(m.admissions[id], l.action)
          && (l.point.Checked? || l.point.Launching? ==> Unheard(m, m.admissions[id].run))
          && (l.point.Launching? || l.point.Starting? || l.point.Finishing? ==> EverAuthorized(m.admissions[id])))
  }

  /** `l` is the standing of the process that holds its action's lock. */
  predicate Holder(c: Config, l: Local) {
    l.action.key in c.locals && c.locals[l.action.key] == l && LocalOk(c.mission, l.action.key, l)
  }

  ghost predicate HasOwner(m: Mission, run: string) { exists key :: Owned(m, key, run) }

  predicate AdmissionsOk(env: Env, m: Mission) { forall id :: id in m.admissions ==> AdmissionOk(env, m, id) }

  predicate OneAuthorized(m: Mission) {
    forall x, y :: x in m.admissions && y in m.admissions ==> SameActionSameId(m, x, y)
  }

  ghost predicate CompletedOk(m: Mission) {
    forall key :: key in m.completed ==> Owned(m, key, m.completed[key].run)
  }

  ghost predicate LaunchOk(m: Mission, i: nat)
    requires i < |m.launches|
  {
    var l := m.launches[i];
    Owned(m, l.action, l.run) && (l.known ==> LeftBehind(m.launches, i, l.run))
  }

  ghost predicate LaunchesOk(m: Mission) { forall i :: 0 <= i < |m.launches| ==> LaunchOk(m, i) }

  /** A wrapper left behind may still write a row for this run. */
  predicate Lingers(m: Mission, run: string) { exists row :: row in m.lingering && row.run == run }

  ghost predicate LateOk(m: Mission) { forall run :: Lingers(m, run) <==> LeftBehind(m.launches, |m.launches|, run) }

  ghost predicate RowsOk(m: Mission) { forall i :: 0 <= i < |m.rows| ==> HasOwner(m, m.rows[i].run) }

  predicate LocalsOk(c: Config) { forall key :: key in c.locals ==> LocalOk(c.mission, key, c.locals[key]) }

  ghost predicate MissionOk(env: Env, m: Mission) {
    AdmissionsOk(env, m) && OneAuthorized(m) && CompletedOk(m) && LaunchesOk(m) && RowsOk(m) && LateOk(m)
  }

  ghost predicate Sound(env: Env, c: Config) { MissionOk(env, c.mission) && LocalsOk(c) }

  // ---- Changes of the mission that keep it --------------------------------

  predicate Allowed(a: Phase, b: Phase) {
    || (a.Reserved? && (b.Committed? || b.Aborted?))
    || (a.Committed? && (b.Authorized? || b.Aborted? || b.Finalized?))
    || (a.Authorized? && (b.Started? || b.Finalized?))
    || (a.Started? && b.Finalized?)
  }

  /** Nothing but phases moved, and only forward. */
  ghost predicate Forward(m: Mission, n: Mission) {
    && m.admissions.Keys == n.admissions.Keys && m.rows == n.rows && m.launches == n.launches
    && forall id :: id in m.admissions ==>
         var a, b := m.admissions[id], n.admissions[id];
         b == a.(phase := b.phase) && (a.phase == b.phase || Allowed(a.phase, b.phase))
  }

  lemma SetPhaseIsForward(m: Mission, id: string, phase: Phase)
    requires id in m.admissions && Allowed(m.admissions[id].phase, phase)
    ensures Forward(m, SetPhase(m, id, phase))
  {
  }

  lemma ForwardKeepsOwned(m: Mission, n: Mission, key: string, run: string)
    requires Forward(m, n) && Owned(m, key, run)
    ensures Owned(n, key, run)
  {
    var id :| OwnedBy(m, key, run, id);
    assert OwnedBy(n, key, run, id);
  }

  lemma ForwardKeepsEarlier(env: Env, m: Mission, n: Mission, i: Identity)
    requires Forward(m, n) && Earlier(env, m, i)
    ensures Earlier(env, n, i)
  {
    forall k | 0 <= k < i.attempt ensures Spent(env, n, Identity(i.action, i.approval, k)) {
      assert Spent(env, m, Identity(i.action, i.approval, k));
    }
  }

  lemma ForwardKeepsLocal(m: Mission, n: Mission, key: string, l: Local)
    requires Forward(m, n) && m.completed == n.completed && LocalOk(m, key, l)
    ensures LocalOk(n, key, l)
  {
  }

  ghost predicate OwnedKept(m: Mission, n: Mission) { forall key, run :: Owned(m, key, run) ==> Owned(n, key, run) }

  lemma OwnersStay(m: Mission, n: Mission)
    requires OwnedKept(m, n) && CompletedOk(m) && LaunchesOk(m) && RowsOk(m)
    requires m.completed == n.completed && m.launches == n.launches && m.rows == n.rows
    ensures CompletedOk(n) && LaunchesOk(n) && RowsOk(n)
  {
    hide Owned;
    forall i | 0 <= i < |n.rows| ensures HasOwner(n, n.rows[i].run) {
      OwnerStays(m, n, n.rows[i].run);
    }
    forall i | 0 <= i < |n.launches| ensures LaunchOk(n, i) {
      assert LaunchOk(m, i);
    }
  }

  lemma OwnerStays(m: Mission, n: Mission, run: string)
    requires OwnedKept(m, n) && HasOwner(m, run)
    ensures HasOwner(n, run)
  {
    var key :| Owned(m, key, run);
    assert Owned(n, key, run);
  }

  lemma SetPhaseKeepsSound(env: Env, c: Config, id: string, phase: Phase)
    requires Sound(env, c) && id in c.mission.admissions && Allowed(c.mission.admissions[id].phase, phase)
    requires phase.Finalized? ==> c.mission.admissions[id].identity.action in c.mission.completed
    requires phase.Finalized? ==> EverAuthorized(c.mission.admissions[id])
    requires phase.Authorized? ==>
      && c.mission.admissions[id].identity.approval == c.mission.approval.sha
      && forall x :: x in c.mission.admissions && x != id && EverAuthorized(c.mission.admissions[x]) ==>
           c.mission.admissions[x].identity.action != c.mission.admissions[id].identity.action
    ensures Sound(env, c.(mission := SetPhase(c.mission, id, phase)))
  {
    hide Forward, Owned, LocalOk, Earlier, CompletedOk, LaunchesOk, RowsOk, OwnedKept;
    var m, n := c.mission, SetPhase(c.mission, id, phase);
    SetPhaseIsForward(m, id, phase);
    forall x | x in n.admissions ensures AdmissionOk(env, n, x) {
      assert AdmissionOk(env, m, x);
      ForwardKeepsEarlier(env, m, n, m.admissions[x].identity);
    }
    SetPhaseKeepsUnique(env, m, id, phase);
    ForwardKeepsOwners(m, n);
    OwnersStay(m, n);
    forall key | key in c.locals ensures LocalOk(n, key, c.locals[key]) {
      ForwardKeepsLocal(m, n, key, c.locals[key]);
    }
  }

  lemma SetPhaseKeepsUnique(env: Env, m: Mission, id: string, phase: Phase)
    requires OneAuthorized(m) && id in m.admissions && Allowed(m.admissions[id].phase, phase)
    requires phase.Finalized? ==> EverAuthorized(m.admissions[id])
    requires phase.Authorized? ==> forall x :: x in m.admissions && x != id && EverAuthorized(m.admissions[x]) ==>
      m.admissions[x].identity.action != m.admissions[id].identity.action
    ensures OneAuthorized(SetPhase(m, id, phase))
  {
    var n := SetPhase(m, id, phase);
    forall x, y | x in n.admissions && y in n.admissions ensures SameActionSameId(n, x, y) {
      assert SameActionSameId(m, x, y);
    }
  }

  lemma ForwardKeepsOwners(m: Mission, n: Mission)
    requires Forward(m, n)
    ensures OwnedKept(m, n)
  {
    hide Owned, Forward;
    forall key, run | Owned(m, key, run) ensures Owned(n, key, run) {
      ForwardKeepsOwned(m, n, key, run);
    }
  }

  /** Moving or dropping one process's point. */
  lemma PointKeepsSound(env: Env, c: Config, key: string, l: Local)
    requires Sound(env, c) && LocalOk(c.mission, key, l)
    ensures Sound(env, c.(locals := c.locals[key := l]))
  {
    hide LocalOk, MissionOk;
  }

  lemma LeaveKeepsSound(env: Env, c: Config, key: string)
    requires Sound(env, c)
    ensures Sound(env, Leave(c, key))
  {
    hide LocalOk, MissionOk;
  }

  // ---- Each step keeps it -------------------------------------------------

  lemma AdmittingKeepsSound(env: Env, c: Config, id: string, a: Admission)
    requires Sound(env, c) && id !in c.mission.admissions && a.phase.Reserved?
    requires Named(env, id, a) && Earlier(env, c.mission, a.identity)
    ensures Sound(env, c.(mission := c.mission.(admissions := c.mission.admissions[id := a])))
  {
    hide Earlier, Owned, LocalOk, CompletedOk, LaunchesOk, RowsOk, OwnedKept;
    var m := c.mission;
    var n := m.(admissions := m.admissions[id := a]);
    forall x | x in n.admissions ensures AdmissionOk(env, n, x) {
      if x != id {
        assert AdmissionOk(env, m, x);
      }
      AdmittingKeepsEarlier(env, m, id, a, n.admissions[x].identity);
    }
    forall x, y | x in n.admissions && y in n.admissions ensures SameActionSameId(n, x, y) {
      if x != id && y != id {
        assert SameActionSameId(m, x, y);
      }
    }
    AdmittingKeepsOwners(m, id, a);
    OwnersStay(m, n);
    forall key | key in c.locals ensures LocalOk(n, key, c.locals[key]) {
      AdmittingKeepsLocal(m, id, a, key, c.locals[key]);
    }
  }

  lemma AdmittingKeepsOwners(m: Mission, id: string, a: Admission)
    requires id !in m.admissions
    ensures OwnedKept(m, m.(admissions := m.admissions[id := a]))
  {
    hide Owned;
    forall key, run | Owned(m, key, run) ensures Owned(m.(admissions := m.admissions[id := a]), key, run) {
      AdmittingKeepsOwned(m, id, a, key, run);
    }
  }

  lemma AdmittingKeepsEarlier(env: Env, m: Mission, id: string, a: Admission, i: Identity)
    requires id !in m.admissions && Earlier(env, m, i)
    ensures Earlier(env, m.(admissions := m.admissions[id := a]), i)
  {
    var n := m.(admissions := m.admissions[id := a]);
    forall k | 0 <= k < i.attempt ensures Spent(env, n, Identity(i.action, i.approval, k)) {
      assert Spent(env, m, Identity(i.action, i.approval, k));
    }
  }

  lemma AdmittingKeepsOwned(m: Mission, id: string, a: Admission, key: string, run: string)
    requires id !in m.admissions && Owned(m, key, run)
    ensures Owned(m.(admissions := m.admissions[id := a]), key, run)
  {
    var x :| OwnedBy(m, key, run, x);
    assert OwnedBy(m.(admissions := m.admissions[id := a]), key, run, x);
  }

  lemma AdmittingKeepsLocal(m: Mission, id: string, a: Admission, key: string, l: Local)
    requires id !in m.admissions && LocalOk(m, key, l)
    ensures LocalOk(m.(admissions := m.admissions[id := a]), key, l)
  {
  }

  lemma ReserveKeepsSound(
      env: Env, c: Config, l: Local, attempt: nat, parent: Option<string>, admitted: bool, now: int)
    requires Sound(env, c) && Holder(c, l) && l.point.Chosen?
    requires Injective(env.idOf)
    ensures Sound(env, DoReserve(env, c, l, attempt, parent, admitted, now))
  {
    hide Sound, Earlier, Busy;
    var m, key := c.mission, l.action.key;
    var i := Identity(key, l.approval, attempt);
    var id := env.idOf(i);
    LeaveKeepsSound(env, c, key);
    SoundLocal(env, c, key);
    if Least(env, m, i) {
      if id in m.admissions {
        SoundAdmission(env, c, id);
        if SameRequest(m.admissions[id], l.action, parent) {
          PointKeepsSound(env, c, key, l.(point := Holding(id)));
        }
      } else if admitted && now < m.approval.expires && !Busy(m, l.action) {
        var a := NewAdmission(env, i, l.action, parent);
        LeastMeansEarlier(env, m, i);
        AdmittingKeepsSound(env, c, id, a);
        var to := c.(mission := m.(admissions := m.admissions[id := a]));
        PointKeepsSound(env, to, key, l.(point := Holding(id)));
      }
    }
  }

  lemma LeastMeansEarlier(env: Env, m: Mission, i: Identity)
    requires Least(env, m, i)
    ensures Earlier(env, m, i)
  {
  }

  lemma SoundLocal(env: Env, c: Config, key: string)
    requires Sound(env, c) && key in c.locals
    ensures LocalOk(c.mission, key, c.locals[key])
  {
  }

  lemma SoundAdmission(env: Env, c: Config, id: string)
    requires Sound(env, c) && id in c.mission.admissions
    ensures AdmissionOk(env, c.mission, id)
  {
  }

  /** While a process holds a committed admission under the current approval, no admission of
      its action has ever been authorized. */
  lemma NoRival(env: Env, c: Config, l: Local, id: string)
    requires Sound(env, c) && Holder(c, l) && IdAt(l.point) == Some(id)
    requires c.mission.admissions[id].phase.Committed? && c.mission.approval.sha == l.approval
    ensures forall x :: x in c.mission.admissions && EverAuthorized(c.mission.admissions[x]) ==>
      c.mission.admissions[x].identity.action != l.action.key
  {
    var m := c.mission;
    SoundLocal(env, c, l.action.key);
    SoundAdmission(env, c, id);
    forall x | x in m.admissions && EverAuthorized(m.admissions[x])
      ensures m.admissions[x].identity.action != l.action.key
    {
      SoundAdmission(env, c, x);
      hide Sound;
      var mine, other := m.admissions[id].identity, m.admissions[x].identity;
      if other.action == l.action.key {
        if other.attempt < mine.attempt {
          EarlierIsSpent(env, m, mine, other);
        } else if mine.attempt < other.attempt {
          EarlierIsSpent(env, m, other, mine);
        }
      }
    }
  }

  lemma EarlierIsSpent(env: Env, m: Mission, i: Identity, j: Identity)
    requires Earlier(env, m, i) && j.action == i.action && j.approval == i.approval && j.attempt < i.attempt
    ensures Spent(env, m, j)
  {
    assert Spent(env, m, Identity(i.action, i.approval, j.attempt));
    assert Identity(i.action, i.approval, j.attempt) == j;
  }

  lemma PhaseThenPoint(env: Env, c: Config, l: Local, id: string, phase: Phase, point: Point)
    requires id in c.mission.admissions && Sound(env, c.(mission := SetPhase(c.mission, id, phase)))
    requires Holder(c, l) && IdAt(l.point) == Some(id)
    requires IdAt(point) == Some(id)
    requires point.Checked? || point.Launching? ==> l.point.Checked? || l.point.Launching?
    requires point.Launching? || point.Starting? || point.Finishing? ==>
      EverAuthorized(c.mission.admissions[id].(phase := phase))
    ensures Sound(env, Move(c.(mission := SetPhase(c.mission, id, phase)), l.action.key, point))
  {
    hide Sound;
    PointKeepsSound(env, c.(mission := SetPhase(c.mission, id, phase)), l.action.key, l.(point := point));
  }

  lemma CommitKeepsSound(env: Env, c: Config, l: Local, id: string, ok: bool, now: int)
    requires Sound(env, c) && Holder(c, l) && l.point == Noted(id)
    ensures Sound(env, DoCommit(c, l, id, ok, now))
  {
    SoundLocal(env, c, l.action.key);
    hide Sound;
    var key := l.action.key;
    LeaveKeepsSound(env, c, key);
    PointKeepsSound(env, c, key, l.(point := Ready(id)));
    PointKeepsSound(env, c, key, l.(point := Aborting(id)));
    if c.mission.admissions[id].phase.Reserved? {
      SetPhaseKeepsSound(env, c, id, Committed);
      PhaseThenPoint(env, c, l, id, Committed, Ready(id));
    }
  }

  lemma ReconcileKeepsSound(env: Env, c: Config, l: Local, id: string)
    requires Sound(env, c) && Holder(c, l) && l.point == Ready(id)
    ensures Sound(env, DoReconcile(c, l, id))
  {
    SoundLocal(env, c, l.action.key);
    hide Sound;
    var key, a := l.action.key, c.mission.admissions[id];
    LeaveKeepsSound(env, c, key);
    if HasRow(c.mission, a.run) {
      if EverAuthorized(a) {
        PointKeepsSound(env, c, key, l.(point := Starting(id)));
      }
    } else if a.phase.Authorized? {
      PointKeepsSound(env, c, key, l.(point := Launching(id)));
    } else {
      PointKeepsSound(env, c, key, l.(point := Checked(id)));
    }
  }

  lemma AuthorizeKeepsSound(env: Env, c: Config, l: Local, id: string, ok: bool, now: int)
    requires Sound(env, c) && Holder(c, l) && l.point == Checked(id)
    ensures Sound(env, DoAuthorize(c, l, id, ok, now))
  {
    SoundLocal(env, c, l.action.key);
    hide Sound;
    var key, m := l.action.key, c.mission;
    PointKeepsSound(env, c, key, l.(point := Aborting(id)));
    if ok && now < m.approval.expires && m.approval.sha == l.approval && m.admissions[id].phase.Committed? {
      NoRival(env, c, l, id);
      SetPhaseKeepsSound(env, c, id, Authorized);
      PhaseThenPoint(env, c, l, id, Authorized, Launching(id));
    }
  }

  lemma StartKeepsSound(env: Env, c: Config, l: Local, id: string, ok: bool)
    requires Sound(env, c) && Holder(c, l) && l.point == Starting(id)
    ensures Sound(env, DoStart(c, l, id, ok))
  {
    SoundLocal(env, c, l.action.key);
    hide Sound;
    var key := l.action.key;
    LeaveKeepsSound(env, c, key);
    PointKeepsSound(env, c, key, l.(point := Finishing(id)));
    if c.mission.admissions[id].phase.Authorized? {
      SetPhaseKeepsSound(env, c, id, Started);
      PhaseThenPoint(env, c, l, id, Started, Finishing(id));
    }
  }

  lemma AbortKeepsSound(env: Env, c: Config, l: Local, id: string)
    requires Sound(env, c) && Holder(c, l) && l.point == Aborting(id)
    ensures Sound(env, DoAbort(c, l, id))
  {
    SoundLocal(env, c, l.action.key);
    hide Sound;
    LeaveKeepsSound(env, c, l.action.key);
    if Allowed(c.mission.admissions[id].phase, Aborted) {
      SetPhaseKeepsSound(env, c, id, Aborted);
      LeaveKeepsSound(env, c.(mission := SetPhase(c.mission, id, Aborted)), l.action.key);
    }
  }

  lemma CompleteKeepsSound(env: Env, c: Config, l: Local, id: string)
    requires Sound(env, c) && Holder(c, l) && l.point == Finishing(id)
    ensures Sound(env, DoComplete(c, l, id))
  {
    hide LocalOk, AdmissionsOk, OneAuthorized, CompletedOk, LaunchesOk, RowsOk, Owned;
    FinishingOwns(c, l, id);
    var key, m := l.action.key, c.mission;
    var n := DoComplete(c, l, id).mission;
    CompletionKeepsMission(env, m, n, key);
    forall k | k in c.locals && k != key ensures LocalOk(n, k, c.locals[k]) {
      CompletionKeepsLocal(m, n, key, k, c.locals[k]);
    }
  }

  lemma FinishingOwns(c: Config, l: Local, id: string)
    requires Holder(c, l) && l.point == Finishing(id)
    ensures id in c.mission.admissions && l.action.key !in c.mission.completed
    ensures Owned(c.mission, l.action.key, c.mission.admissions[id].run)
  {
    assert OwnedBy(c.mission, l.action.key, c.mission.admissions[id].run, id);
  }

  lemma CompletionKeepsLocal(m: Mission, n: Mission, key: string, k: string, l: Local)
    requires LocalOk(m, k, l) && k != key && n == m.(completed := n.completed)
    requires n.completed.Keys == m.completed.Keys + {key}
    ensures LocalOk(n, k, l)
  {
  }

  lemma CompletionKeepsMission(env: Env, m: Mission, n: Mission, key: string)
    requires MissionOk(env, m) && key !in m.completed && n == m.(completed := n.completed)
    requires key in n.completed && n.completed == m.completed[key := n.completed[key]]
    requires Owned(m, key, n.completed[key].run)
    ensures MissionOk(env, n)
  {
    hide Owned;
    forall id | id in n.admissions ensures AdmissionOk(env, n, id) {
      assert AdmissionOk(env, m, id);
      SameAdmissionsSameEarlier(env, m, n, n.admissions[id].identity);
    }
    forall x, y | x in n.admissions && y in n.admissions ensures SameActionSameId(n, x, y) {
      assert SameActionSameId(m, x, y);
    }
    SameAdmissionsSameOwners(m, n);
    forall i | 0 <= i < |n.launches| ensures LaunchOk(n, i) {
      assert LaunchOk(m, i);
    }
    forall i | 0 <= i < |n.rows| ensures HasOwner(n, n.rows[i].run) {
      assert HasOwner(m, m.rows[i].run);
      OwnerStays(m, n, n.rows[i].run);
    }
  }

  lemma SameAdmissionsSameEarlier(env: Env, m: Mission, n: Mission, i: Identity)
    requires m.admissions == n.admissions && Earlier(env, m, i)
    ensures Earlier(env, n, i)
  {
    forall k | 0 <= k < i.attempt ensures Spent(env, n, Identity(i.action, i.approval, k)) {
      assert Spent(env, m, Identity(i.action, i.approval, k));
    }
  }

  lemma SameAdmissionsSameOwners(m: Mission, n: Mission)
    requires m.admissions == n.admissions
    ensures OwnedKept(m, n)
  {
    forall key, run | Owned(m, key, run) ensures Owned(n, key, run) {
      var x :| OwnedBy(m, key, run, x);
      assert OwnedBy(n, key, run, x);
    }
  }

  // ---- Wrapper, renewal, finalization -------------------------------------

  lemma InvokeKeepsSound(
      env: Env, c: Config, l: Local, id: string, wrote: bool, lingers: bool, reported: Option<string>)
    requires Sound(env, c) && Holder(c, l) && l.point == Launching(id) && Injective(env.runOf)
    ensures Sound(env, DoInvoke(c, l, id, wrote, lingers, reported))
  {
    var key, m := l.action.key, c.mission;
    var a := m.admissions[id];
    var n := DoInvoke(c, l, id, wrote, lingers, reported).mission;
    assert OwnedBy(m, key, a.run, id);
    hide AdmissionsOk, OneAuthorized, CompletedOk, LaunchesOk, RowsOk, LateOk, Owned, HasRow, LeftBehind;
    InvokeLingers(c, l, id, wrote, lingers, reported);
    LaunchKeepsMission(env, m, n, Launch(key, a.run, HasRow(m, a.run), lingers));
    var to := c.(mission := n, locals := c.locals - {key});
    forall k | k in to.locals ensures LocalOk(n, k, c.locals[k]) {
      OtherRunsStayUnheard(env, c, l, id, n, k);
    }
    if reported == Some(a.run) {
      PointKeepsSound(env, to, key, l.(point := Starting(id)));
      assert to.locals[key := l.(point := Starting(id))] == c.locals[key := l.(point := Starting(id))];
    }
  }

  lemma InvokeLingers(c: Config, l: Local, id: string, wrote: bool, lingers: bool, reported: Option<string>)
    requires l.action.key in c.locals && id in c.mission.admissions
    ensures
      var m, n := c.mission, DoInvoke(c, l, id, wrote, lingers, reported).mission;
      forall run :: Lingers(n, run) <==> Lingers(m, run) || (lingers && run == m.admissions[id].run)
  {
    hide HasRow;
    var m, n := c.mission, DoInvoke(c, l, id, wrote, lingers, reported).mission;
    var row := Row(m.admissions[id].run, l.action.instance, l.action.task);
    assert n.lingering == if lingers then m.lingering + {row} else m.lingering;
    assert lingers ==> row in n.lingering;
  }

  /** The rows a wrapper writes are about its own action's run, which no other process holds. */
  lemma OtherRunsStayUnheard(env: Env, c: Config, l: Local, id: string, n: Mission, k: string)
    requires Sound(env, c) && Holder(c, l) && l.point == Launching(id) && Injective(env.runOf)
    requires k in c.locals && k != l.action.key
    requires n == c.mission.(rows := n.rows, launches := n.launches, lingering := n.lingering)
    requires c.mission.rows <= n.rows && c.mission.launches <= n.launches
    requires forall i :: |c.mission.rows| <= i < |n.rows| ==> n.rows[i].run == c.mission.admissions[id].run
    ensures LocalOk(n, k, c.locals[k])
  {
    var m, other := c.mission, c.locals[k];
    assert LocalOk(m, k, other);
    if IdAt(other.point).Some? {
      var x := IdAt(other.point).value;
      assert AdmissionOk(env, m, x) && AdmissionOk(env, m, id);
      assert m.admissions[x].run != m.admissions[id].run;
      assert HasRow(n, m.admissions[x].run) ==> HasRow(m, m.admissions[x].run);
      LeftBehindStays(m, n, m.admissions[x].run);
    }
  }

  lemma LeftBehindStays(m: Mission, n: Mission, run: string)
    requires m.launches <= n.launches
    ensures LeftBehind(m.launches, |m.launches|, run) ==> LeftBehind(n.launches, |n.launches|, run)
  {
    LeftBehindPrefix(m.launches, n.launches, |m.launches|, run);
  }

  lemma OneMoreLaunch(launches: seq<Launch>, l: Launch, run: string)
    ensures LeftBehind(launches + [l], |launches| + 1, run) <==>
      LeftBehind(launches, |launches|, run) || (l.lingers && l.run == run)
  {
    LeftBehindPrefix(launches, launches + [l], |launches|, run);
    assert (launches + [l])[|launches|] == l;
  }

  lemma LeftBehindPrefix(a: seq<Launch>, b: seq<Launch>, k: nat, run: string)
    requires a <= b && k <= |a|
    ensures LeftBehind(a, k, run) <==> LeftBehind(b, k, run)
  {
    assert forall j :: 0 <= j < |a| ==> a[j] == b[j];
  }

  lemma LaunchKeepsMission(env: Env, m: Mission, n: Mission, l: Launch)
    requires MissionOk(env, m) && Owned(m, l.action, l.run)
    requires l.known ==> LeftBehind(m.launches, |m.launches|, l.run)
    requires n == m.(rows := n.rows, launches := m.launches + [l], lingering := n.lingering)
    requires n.rows == m.rows || (|n.rows| == |m.rows| + 1 && m.rows <= n.rows && n.rows[|m.rows|].run == l.run)
    requires forall run :: Lingers(n, run) <==> Lingers(m, run) || (l.lingers && run == l.run)
    ensures MissionOk(env, n)
  {
    hide Owned;
    forall id | id in n.admissions ensures AdmissionOk(env, n, id) {
      assert AdmissionOk(env, m, id);
      SameAdmissionsSameEarlier(env, m, n, n.admissions[id].identity);
    }
    forall x, y | x in n.admissions && y in n.admissions ensures SameActionSameId(n, x, y) {
      assert SameActionSameId(m, x, y);
    }
    SameAdmissionsSameOwners(m, n);
    forall i | 0 <= i < |n.launches| ensures LaunchOk(n, i) {
      LeftBehindPrefix(m.launches, n.launches, i, n.launches[i].run);
      if i < |m.launches| {
        assert LaunchOk(m, i);
        assert n.launches[i] == m.launches[i];
      }
    }
    forall i | 0 <= i < |n.rows| ensures HasOwner(n, n.rows[i].run) {
      assert i < |m.rows| ==> n.rows[i] == m.rows[i] && HasOwner(m, m.rows[i].run);
      assert HasOwner(m, l.run);
      OwnerStays(m, n, n.rows[i].run);
    }
    forall run ensures Lingers(n, run) <==> LeftBehind(n.launches, |n.launches|, run) {
      assert Lingers(m, run) <==> LeftBehind(m.launches, |m.launches|, run);
      OneMoreLaunch(m.launches, l, run);
    }
  }

  lemma LateKeepsSound(env: Env, c: Config, row: Row)
    requires Sound(env, c)
    ensures Sound(env, c.(mission := DoLate(c.mission, row)))
  {
    var m, n := c.mission, DoLate(c.mission, row);
    if row in m.lingering {
      assert Lingers(m, row.run);
      var j :| 0 <= j < |m.launches| && m.launches[j].run == row.run && m.launches[j].lingers;
      assert LaunchOk(m, j);
      hide Owned;
      forall id | id in n.admissions ensures AdmissionOk(env, n, id) {
        assert AdmissionOk(env, m, id);
        SameAdmissionsSameEarlier(env, m, n, n.admissions[id].identity);
      }
      forall x, y | x in n.admissions && y in n.admissions ensures SameActionSameId(n, x, y) {
        assert SameActionSameId(m, x, y);
      }
      SameAdmissionsSameOwners(m, n);
      forall i | 0 <= i < |n.launches| ensures LaunchOk(n, i) {
        assert LaunchOk(m, i);
      }
      forall i | 0 <= i < |n.rows| ensures HasOwner(n, n.rows[i].run) {
        assert i < |m.rows| ==> HasOwner(m, m.rows[i].run);
        assert HasOwner(m, row.run);
        OwnerStays(m, n, n.rows[i].run);
      }
      forall k | k in c.locals ensures LocalOk(n, k, c.locals[k]) {
        assert LocalOk(m, k, c.locals[k]);
      }
    }
  }

  lemma RenewKeepsSound(env: Env, c: Config, now: int, sha: Digest, expires: int)
    requires Sound(env, c)
    ensures Sound(env, c.(mission := DoRenew(c.mission, now, sha, expires)))
  {
    hide Owned, CompletedOk, LaunchesOk, RowsOk;
    var m, n := c.mission, DoRenew(c.mission, now, sha, expires);
    forall id | id in n.admissions ensures AdmissionOk(env, n, id) {
      assert AdmissionOk(env, m, id);
      SameAdmissionsSameEarlier(env, m, n, n.admissions[id].identity);
      assert n != m ==> !Active(m.admissions[id]);
    }
    forall x, y | x in n.admissions && y in n.admissions ensures SameActionSameId(n, x, y) {
      assert SameActionSameId(m, x, y);
    }
    SameAdmissionsSameOwners(m, n);
    OwnersStay(m, n);
    forall k | k in c.locals ensures LocalOk(n, k, c.locals[k]) {
      assert LocalOk(m, k, c.locals[k]);
    }
  }

  lemma FinalizeKeepsSound(env: Env, c: Config, key: string, id: string)
    requires Sound(env, c) && Injective(env.runOf)
    ensures Sound(env, c.(mission := DoFinalize(c.mission, key, id)))
  {
    var m := c.mission;
    if key in m.completed && id in m.admissions && m.admissions[id].run == m.completed[key].run
       && Active(m.admissions[id]) && !m.admissions[id].phase.Reserved? {
      assert Owned(m, key, m.completed[key].run);
      var x :| OwnedBy(m, key, m.completed[key].run, x);
      assert AdmissionOk(env, m, x) && AdmissionOk(env, m, id);
      assert x == id;
      SetPhaseKeepsSound(env, c, id, Finalized);
    }
  }

  lemma WithdrawKeepsSound(env: Env, c: Config, id: string)
    requires Sound(env, c)
    ensures Sound(env, c.(mission := DoWithdraw(c.mission, id)))
  {
    hide Sound;
    if id in c.mission.admissions && Allowed(c.mission.admissions[id].phase, Aborted) {
      SetPhaseKeepsSound(env, c, id, Aborted);
    }
  }

  lemma BeginKeepsSound(env: Env, c: Config, a: Action)
    requires Sound(env, c)
    ensures Sound(env, DoBegin(c, a))
  {
    hide MissionOk;
    if a.key !in c.locals && a.key !in c.mission.completed {
      PointKeepsSound(env, c, a.key, Local(a, c.mission.approval.sha, Chosen));
    }
  }

  lemma OwnKeepsSound(env: Env, c: Config, l: Local, s: Label)
    requires Sound(env, c) && Holder(c, l) && Injective(env.idOf) && Injective(env.runOf)
    ensures Sound(env, Own(env, c, l, s))
  {
    hide Sound, DoReserve, DoCommit, DoReconcile, DoAuthorize, DoInvoke, DoStart, DoComplete, DoAbort, Injective;
    if s.Crash? {
      LeaveKeepsSound(env, c, l.action.key);
    } else {
      match l.point
      case Chosen => if s.Reserve? { ReserveKeepsSound(env, c, l, s.attempt, s.parent, s.admitted, s.now); }
      case Holding(id) =>
        if s.Note? { PointKeepsSound(env, c, l.action.key, l.(point := if s.ok then Noted(id) else Aborting(id))); }
      case Noted(id) => if s.Commit? { CommitKeepsSound(env, c, l, id, s.ok, s.now); }
      case Ready(id) => if s.Reconcile? { ReconcileKeepsSound(env, c, l, id); }
      case Checked(id) => if s.Authorize? { AuthorizeKeepsSound(env, c, l, id, s.ok, s.now); }
      case Launching(id) => if s.Invoke? { InvokeKeepsSound(env, c, l, id, s.wrote, s.lingers, s.reported); }
      case Starting(id) => if s.Start? { StartKeepsSound(env, c, l, id, s.ok); }
      case Finishing(id) => if s.Complete? { CompleteKeepsSound(env, c, l, id); }
      case Aborting(id) => if s.Abort? { AbortKeepsSound(env, c, l, id); }
    }
  }

  lemma NextKeepsSound(env: Env, c: Config, s: Label)
    requires Sound(env, c) && Injective(env.idOf) && Injective(env.runOf)
    ensures Sound(env, Next(env, c, s))
  {
    hide Sound, Own, DoBegin, DoRenew, DoFinalize, DoWithdraw, DoLate, Injective;
    match s
    case Begin(a) => BeginKeepsSound(env, c, a);
    case Renew(now, sha, expires) => RenewKeepsSound(env, c, now, sha, expires);
    case Finalize(key, id) => FinalizeKeepsSound(env, c, key, id);
    case Withdraw(id) => WithdrawKeepsSound(env, c, id);
    case Late(row) => LateKeepsSound(env, c, row);
    case _ =>
      var key := KeyOf(s).value;
      if key in c.locals && c.locals[key].action.key == key {
        SoundLocal(env, c, key);
        OwnKeepsSound(env, c, c.locals[key], s);
      }
  }

  /** A mission in which no assured action has been tried. */
  predicate Fresh(c: Config) {
    && c.mission.admissions == map[] && c.mission.completed == map[] && c.mission.rows == []
    && c.mission.launches == [] && c.mission.lingering == {} && c.locals == map[]
  }

  lemma FreshIsSound(env: Env, c: Config)
    requires Fresh(c)
    ensures Sound(env, c)
  {
  }

  lemma {:induction false} ExecutionsStaySound(env: Env, c: Config, script: seq<Label>)
    requires Sound(env, c) && Injective(env.idOf) && Injective(env.runOf)
    ensures Sound(env, Execute(env, c, script))
    decreases script
  {
    hide Next, Injective, Sound;
    if script != [] {
      NextKeepsSound(env, c, script[0]);
      ExecutionsStaySound(env, Next(env, c, script[0]), script[1..]);
    }
  }

  function RunAt(m: Mission, id: string): string { if id in m.admissions then m.admissions[id].run else "" }

  /** Over every interleaving of processes, crashes, retries and renewals: at most one admission
      of an action is ever authorized; every wrapper invocation for the action is for its run,
      and one that happens once that run has a lifecycle row follows one whose wrapper was left
      behind; the recorded completion names that run. */
  lemma OneLaunchIdentity(env: Env, c: Config, script: seq<Label>, key: string, x: string, y: string, i: nat, j: nat)
    requires Fresh(c) && Injective(env.idOf) && Injective(env.runOf)
    ensures var m := Execute(env, c, script).mission;
      && (OwnedBy(m, key, RunAt(m, x), x) && OwnedBy(m, key, RunAt(m, y), y) ==> x == y)
      && (i < |m.launches| && j < |m.launches| && m.launches[i].action == m.launches[j].action ==>
            m.launches[i].run == m.launches[j].run)
      && (i < |m.launches| && m.launches[i].known ==> LeftBehind(m.launches, i, m.launches[i].run))
      && (i < |m.launches| && m.launches[i].action in m.completed ==>
            m.completed[m.launches[i].action].run == m.launches[i].run)
  {
    hide Execute;
    FreshIsSound(env, c);
    ExecutionsStaySound(env, c, script);
    var m := Execute(env, c, script).mission;
    if x in m.admissions && y in m.admissions {
      assert SameActionSameId(m, x, y);
    }
    if i < |m.launches| {
      assert LaunchOk(m, i);
      if j < |m.launches| && m.launches[i].action == m.launches[j].action {
        assert LaunchOk(m, j);
        OneRun(m, m.launches[i].action, m.launches[i].run, m.launches[j].run);
      }
      if m.launches[i].action in m.completed {
        OneRun(m, m.launches[i].action, m.launches[i].run, m.completed[m.launches[i].action].run);
      }
    }
  }

  lemma OneRun(m: Mission, key: string, a: string, b: string)
    requires OneAuthorized(m) && Owned(m, key, a) && Owned(m, key, b)
    ensures a == b
  {
    var x :| OwnedBy(m, key, a, x);
    var y :| OwnedBy(m, key, b, y);
    assert SameActionSameId(m, x, y);
  }

  /** A recorded completion never changes: every later call for the action returns its run. */
  lemma CompletionsStay(env: Env, c: Config, s: Label, key: string)
    requires key in c.mission.completed
    ensures key in Next(env, c, s).mission.completed
    ensures Next(env, c, s).mission.completed[key] == c.mission.completed[key]
  {
    hide Own;
    if KeyOf(s).Some? && KeyOf(s).value in c.locals
       && c.locals[KeyOf(s).value].action.key == KeyOf(s).value
       && (IdAt(c.locals[KeyOf(s).value].point).Some? ==>
             IdAt(c.locals[KeyOf(s).value].point).value in c.mission.admissions) {
      OwnKeepsCompletions(env, c, c.locals[KeyOf(s).value], s, key);
    }
  }

  lemma OwnKeepsCompletions(env: Env, c: Config, l: Local, s: Label, key: string)
    requires l.action.key in c.locals && (IdAt(l.point).Some? ==> IdAt(l.point).value in c.mission.admissions)
    requires key in c.mission.completed
    ensures key in Own(env, c, l, s).mission.completed
    ensures Own(env, c, l, s).mission.completed[key] == c.mission.completed[key]
  {
    hide Least, HasRow, RowsMatch, BoundTo, EverAuthorized;
  }

  /** The steps one process takes when every answer is favourable and the effect is already there. */
  function RecoveryScript(a: Action, attempt: nat, parent: Option<string>, now: int): seq<Label> {
    [Begin(a), Reserve(a.key, attempt, parent, true, now), Note(a.key, true), Commit(a.key, true, now), Reconcile(a.key),
     Start(a.key, true), Complete(a.key)]
  }

  /** A crash after the wrapper took effect is recovered by one more call, at any time and
      under an expired approval too: the same admission is started and completed, with its run
      and without another launch. */
  lemma EffectIsRecovered(env: Env, c: Config, a: Action, id: string, parent: Option<string>, now: int)
    requires Sound(env, c) && a.key !in c.locals && a.key !in c.mission.completed
    requires id in c.mission.admissions && EverAuthorized(c.mission.admissions[id])
    requires c.mission.admissions[id].identity.action == a.key && SameRequest(c.mission.admissions[id], a, parent)
    requires HasRow(c.mission, c.mission.admissions[id].run) && RowsMatch(c.mission, c.mission.admissions[id])
    ensures
      var r := Execute(env, c, RecoveryScript(a, c.mission.admissions[id].identity.attempt, parent, now));
      && a.key in r.mission.completed && r.mission.completed[a.key].run == c.mission.admissions[id].run
      && r.mission.launches == c.mission.launches && r.mission.admissions[id := c.mission.admissions[id]] == c.mission.admissions
  {
    SoundAdmission(env, c, id);
    AuthorizedIsLeast(env, c.mission, id, a.key);
    hide Sound, Least, HasRow, RowsMatch, Next, AdmissionOk, SameRequest;
    var attempt := c.mission.admissions[id].identity.attempt;
    StandingReserves(env, c, a, id, parent, now);
    StandingCommits(env, c, a, id, now);
    StandingReconciles(env, c, a, id);
    var c6, c7 := StandingFinishes(env, c, a, id);
    BeginStands(env, c, a);
    SevenSteps(env, c, RecoveryScript(a, attempt, parent, now), Standing(c, a, Chosen), Standing(c, a, Holding(id)),
               Standing(c, a, Noted(id)), Standing(c, a, Ready(id)), Standing(c, a, Starting(id)), c6, c7);
  }

  lemma AuthorizedIsLeast(env: Env, m: Mission, id: string, key: string)
    requires id in m.admissions && AdmissionOk(env, m, id) && EverAuthorized(m.admissions[id])
    requires m.admissions[id].identity.action == key && key !in m.completed
    ensures m.admissions[id].identity == Identity(key, m.approval.sha, m.admissions[id].identity.attempt)
    ensures Least(env, m, m.admissions[id].identity) && env.idOf(m.admissions[id].identity) == id
  {
  }

  /** The configuration with a process for `a` at this point. */
  function Standing(c: Config, a: Action, point: Point): Config {
    c.(locals := c.locals[a.key := Local(a, c.mission.approval.sha, point)])
  }

  lemma NextIsOwn(env: Env, c: Config, s: Label)
    requires KeyOf(s).Some? && KeyOf(s).value in c.locals && c.locals[KeyOf(s).value].action.key == KeyOf(s).value
    requires IdAt(c.locals[KeyOf(s).value].point).Some? ==> IdAt(c.locals[KeyOf(s).value].point).value in c.mission.admissions
    ensures Next(env, c, s) == Own(env, c, c.locals[KeyOf(s).value], s)
  {
    hide Own;
  }

  lemma StandingNext(env: Env, c: Config, a: Action, point: Point, s: Label)
    requires KeyOf(s) == Some(a.key) && (IdAt(point).Some? ==> IdAt(point).value in c.mission.admissions)
    ensures Next(env, Standing(c, a, point), s) ==
      Own(env, Standing(c, a, point), Local(a, c.mission.approval.sha, point), s)
  {
    hide Own;
  }

  lemma BeginStands(env: Env, c: Config, a: Action)
    requires a.key !in c.locals && a.key !in c.mission.completed
    ensures Next(env, c, Begin(a)) == Standing(c, a, Chosen)
  {
  }

  lemma StandingReserves(env: Env, c: Config, a: Action, id: string, parent: Option<string>, now: int)
    requires id in c.mission.admissions && SameRequest(c.mission.admissions[id], a, parent)
    requires c.mission.admissions[id].identity == Identity(a.key, c.mission.approval.sha, c.mission.admissions[id].identity.attempt)
    requires Least(env, c.mission, c.mission.admissions[id].identity) && env.idOf(c.mission.admissions[id].identity) == id
    ensures Next(env, Standing(c, a, Chosen), Reserve(a.key, c.mission.admissions[id].identity.attempt, parent, true, now))
      == Standing(c, a, Holding(id))
  {
    StandingNext(env, c, a, Chosen, Reserve(a.key, c.mission.admissions[id].identity.attempt, parent, true, now));
    hide Next, Least, SameRequest;
  }

  lemma StandingCommits(env: Env, c: Config, a: Action, id: string, now: int)
    requires id in c.mission.admissions && EverAuthorized(c.mission.admissions[id])
    ensures Next(env, Standing(c, a, Holding(id)), Note(a.key, true)) == Standing(c, a, Noted(id))
    ensures Next(env, Standing(c, a, Noted(id)), Commit(a.key, true, now)) == Standing(c, a, Ready(id))
  {
    StandingNext(env, c, a, Holding(id), Note(a.key, true));
    StandingNext(env, c, a, Noted(id), Commit(a.key, true, now));
    hide Next;
  }

  lemma StandingReconciles(env: Env, c: Config, a: Action, id: string)
    requires id in c.mission.admissions && EverAuthorized(c.mission.admissions[id])
    requires HasRow(c.mission, c.mission.admissions[id].run) && RowsMatch(c.mission, c.mission.admissions[id])
    ensures Next(env, Standing(c, a, Ready(id)), Reconcile(a.key)) == Standing(c, a, Starting(id))
  {
    StandingNext(env, c, a, Ready(id), Reconcile(a.key));
    hide Next, HasRow, RowsMatch;
  }

  lemma StandingFinishes(env: Env, c: Config, a: Action, id: string) returns (started: Config, done: Config)
    requires id in c.mission.admissions && a.key !in c.mission.completed
    requires c.mission.admissions[id].phase.Authorized? || c.mission.admissions[id].phase.Started?
    ensures started == Next(env, Standing(c, a, Starting(id)), Start(a.key, true))
    ensures done == Next(env, started, Complete(a.key))
    ensures a.key in done.mission.completed && done.mission.completed[a.key].run == c.mission.admissions[id].run
    ensures done.mission.launches == c.mission.launches
    ensures done.mission.admissions[id := c.mission.admissions[id]] == c.mission.admissions
  {
    StandingNext(env, c, a, Starting(id), Start(a.key, true));
    var n := if c.mission.admissions[id].phase.Authorized? then SetPhase(c.mission, id, Started) else c.mission;
    var to := c.(mission := n);
    StandingNext(env, to, a, Finishing(id), Complete(a.key));
    started := Next(env, Standing(c, a, Starting(id)), Start(a.key, true));
    done := Next(env, started, Complete(a.key));
    hide Next;
    assert started == Standing(to, a, Finishing(id));
  }

  lemma SevenSteps(env: Env, c: Config, s: seq<Label>, c1: Config, c2: Config, c3: Config, c4: Config, c5: Config,
                   c6: Config, c7: Config)
    requires |s| == 7 && Next(env, c, s[0]) == c1 && Next(env, c1, s[1]) == c2 && Next(env, c2, s[2]) == c3
    requires Next(env, c3, s[3]) == c4 && Next(env, c4, s[4]) == c5 && Next(env, c5, s[5]) == c6
    requires Next(env, c6, s[6]) == c7
    ensures Execute(env, c, s) == c7
  {
    hide Next;
    assert Execute(env, c7, s[7..]) == c7;
    assert s[6..][1..] == s[7..] && Execute(env, c6, s[6..]) == c7;
    assert s[5..][1..] == s[6..] && Execute(env, c5, s[5..]) == c7;
    assert s[4..][1..] == s[5..] && Execute(env, c4, s[4..]) == c7;
    assert s[3..][1..] == s[4..] && Execute(env, c3, s[3..]) == c7;
    assert s[2..][1..] == s[3..] && Execute(env, c2, s[2..]) == c7;
    assert s[1..][1..] == s[2..] && Execute(env, c1, s[1..]) == c7;
  }

  // ---- A wrapper that outlives its caller ---------------------------------

  /** The first call launches and is killed; its wrapper goes on. */
  function LeaveBehindScript(a: Action, parent: Option<string>, now: int): seq<Label> {
    [Begin(a), Reserve(a.key, 0, parent, true, now), Note(a.key, true), Commit(a.key, true, now), Reconcile(a.key),
     Authorize(a.key, true, now), Invoke(a.key, false, true, None)]
  }

  /** The retry finds no row, and the wrapper left behind writes one before the next launch. */
  function RelaunchScript(a: Action, attempt: nat, parent: Option<string>, now: int, row: Row): seq<Label> {
    [Begin(a), Reserve(a.key, attempt, parent, true, now), Note(a.key, true), Commit(a.key, true, now),
     Reconcile(a.key), Late(row), Invoke(a.key, false, false, None)]
  }

  /** While the wrapper of an authorized admission is left behind and has not written its row,
      a retry can launch the run again after the row. */
  lemma RelaunchIsKnown(env: Env, c: Config, a: Action, id: string, parent: Option<string>, now: int, row: Row)
    requires Sound(env, c) && a.key !in c.locals && a.key !in c.mission.completed
    requires id in c.mission.admissions && c.mission.admissions[id].phase.Authorized?
    requires c.mission.admissions[id].identity.action == a.key && SameRequest(c.mission.admissions[id], a, parent)
    requires !HasRow(c.mission, c.mission.admissions[id].run)
    requires row in c.mission.lingering && row.run == c.mission.admissions[id].run
    ensures Execute(env, c, RelaunchScript(a, c.mission.admissions[id].identity.attempt, parent, now, row)).mission.launches
      == c.mission.launches + [Launch(a.key, row.run, true, false)]
  {
    SoundAdmission(env, c, id);
    AuthorizedIsLeast(env, c.mission, id, a.key);
    hide Sound, Least, Next, AdmissionOk, SameRequest;
    var attempt := c.mission.admissions[id].identity.attempt;
    BeginStands(env, c, a);
    StandingReserves(env, c, a, id, parent, now);
    StandingCommits(env, c, a, id, now);
    StandingRelaunches(env, c, a, id);
    var heard := c.(mission := c.mission.(rows := c.mission.rows + [row]));
    LateStands(env, c, a, Launching(id), row);
    StandingInvokes(env, heard, a, id);
    hide Standing;
    SevenSteps(env, c, RelaunchScript(a, attempt, parent, now, row), Standing(c, a, Chosen), Standing(c, a, Holding(id)),
               Standing(c, a, Noted(id)), Standing(c, a, Ready(id)), Standing(c, a, Launching(id)),
               Standing(heard, a, Launching(id)), Next(env, Standing(heard, a, Launching(id)), Invoke(a.key, false, false, None)));
  }

  lemma StandingRelaunches(env: Env, c: Config, a: Action, id: string)
    requires id in c.mission.admissions && c.mission.admissions[id].phase.Authorized?
    requires !HasRow(c.mission, c.mission.admissions[id].run)
    ensures Next(env, Standing(c, a, Ready(id)), Reconcile(a.key)) == Standing(c, a, Launching(id))
  {
    StandingNext(env, c, a, Ready(id), Reconcile(a.key));
    hide Next, HasRow, RowsMatch;
  }

  /** A script with no further wrapper left behind, in which the run is launched although it
      has a row. */
  ghost predicate Relaunches(env: Env, c: Config, run: string, script: seq<Label>) {
    && (forall s :: s in script ==> Quiet(s))
    && var launches := Execute(env, c, script).mission.launches;
       exists i :: |c.mission.launches| <= i < |launches| && launches[i].run == run && launches[i].known
  }

  predicate Quiet(s: Label) { !s.Invoke? || !s.lingers }

  /** Whether an authorized run without a row can be launched again after its row is settled by
      whether a wrapper of it was left behind. */
  lemma RelaunchDecides(env: Env, c: Config, a: Action, id: string, parent: Option<string>)
    requires Sound(env, c) && a.key !in c.locals && a.key !in c.mission.completed
    requires Injective(env.idOf) && Injective(env.runOf)
    requires id in c.mission.admissions && c.mission.admissions[id].phase.Authorized?
    requires c.mission.admissions[id].identity.action == a.key && SameRequest(c.mission.admissions[id], a, parent)
    requires !HasRow(c.mission, c.mission.admissions[id].run)
    ensures (exists script :: Relaunches(env, c, c.mission.admissions[id].run, script))
      <==> Lingers(c.mission, c.mission.admissions[id].run)
  {
    var h := c.mission.admissions[id];
    hide Sound, Injective, HasRow, SameRequest, Execute;
    if Lingers(c.mission, h.run) {
      var row :| row in c.mission.lingering && row.run == h.run;
      var script := RelaunchScript(a, h.identity.attempt, parent, 0, row);
      RelaunchIsKnown(env, c, a, id, parent, 0, row);
      assert Execute(env, c, script).mission.launches[|c.mission.launches|].known;
      assert Relaunches(env, c, h.run, script);
    } else {
      forall script ensures !Relaunches(env, c, h.run, script) {
        QuietRunsAreNotRelaunched(env, c, h.run, script);
      }
    }
  }

  lemma QuietRunsAreNotRelaunched(env: Env, c: Config, run: string, script: seq<Label>)
    requires Sound(env, c) && !Lingers(c.mission, run) && Injective(env.idOf) && Injective(env.runOf)
    ensures !Relaunches(env, c, run, script)
  {
    hide Execute, Injective;
    if forall s :: s in script ==> Quiet(s) {
      QuietStays(env, c, run, script);
      ExecutionsStaySound(env, c, script);
      hide Sound;
      var m := Execute(env, c, script).mission;
      forall i | 0 <= i < |m.launches| && m.launches[i].run == run ensures !m.launches[i].known {
        LaunchIsKnownOnlyLate(env, Execute(env, c, script), i);
      }
    }
  }

  lemma LaunchIsKnownOnlyLate(env: Env, c: Config, i: nat)
    requires Sound(env, c) && i < |c.mission.launches|
    ensures c.mission.launches[i].known ==> Lingers(c.mission, c.mission.launches[i].run)
  {
    assert LaunchOk(c.mission, i);
  }

  lemma {:induction false} QuietStays(env: Env, c: Config, run: string, script: seq<Label>)
    requires !Lingers(c.mission, run) && forall s :: s in script ==> Quiet(s)
    ensures !Lingers(Execute(env, c, script).mission, run)
    decreases script
  {
    hide Next, Lingers;
    if script != [] {
      assert script[0] in script;
      QuietStepStays(env, c, run, script[0]);
      QuietStays(env, Next(env, c, script[0]), run, script[1..]);
    }
  }

  lemma QuietStepStays(env: Env, c: Config, run: string, s: Label)
    requires !Lingers(c.mission, run) && Quiet(s)
    ensures !Lingers(Next(env, c, s).mission, run)
  {
    hide HasRow, RowsMatch, Least, SameRequest, Busy;
    assert Next(env, c, s).mission.lingering == c.mission.lingering;
  }

  lemma LateStands(env: Env, c: Config, a: Action, point: Point, row: Row)
    requires row in c.mission.lingering
    ensures Next(env, Standing(c, a, point), Late(row)) ==
      Standing(c.(mission := c.mission.(rows := c.mission.rows + [row])), a, point)
  {
  }

  lemma StandingInvokes(env: Env, c: Config, a: Action, id: string)
    requires id in c.mission.admissions
    requires |c.mission.rows| > 0 && c.mission.rows[|c.mission.rows| - 1].run == c.mission.admissions[id].run
    ensures Next(env, Standing(c, a, Launching(id)), Invoke(a.key, false, false, None)).mission.launches
      == c.mission.launches + [Launch(a.key, c.mission.admissions[id].run, true, false)]
  {
    StandingNext(env, c, a, Launching(id), Invoke(a.key, false, false, None));
    hide Next;
    assert HasRow(c.mission, c.mission.admissions[id].run);
  }

  function Admitted(env: Env, c: Config, a: Action, parent: Option<string>): Config {
    var i := Identity(a.key, c.mission.approval.sha, 0);
    c.(mission := c.mission.(admissions := c.mission.admissions[env.idOf(i) := NewAdmission(env, i, a, parent)]))
  }

  function Phased(c: Config, id: string, phase: Phase): Config
    requires id in c.mission.admissions
  {
    c.(mission := SetPhase(c.mission, id, phase))
  }

  function LeftAlone(c: Config, a: Action, run: string): Config {
    c.(mission := c.mission.(launches := c.mission.launches + [Launch(a.key, run, false, true)],
                             lingering := c.mission.lingering + {Row(run, a.instance, a.task)}))
  }

  /** What the killed first call leaves. */
  function LeftBehindBy(env: Env, c: Config, a: Action, parent: Option<string>): Config {
    var i := Identity(a.key, c.mission.approval.sha, 0);
    LeftAlone(Phased(Phased(Admitted(env, c, a, parent), env.idOf(i), Committed), env.idOf(i), Authorized), a, env.runOf(i))
  }

  lemma StandingAdmits(env: Env, c: Config, a: Action, parent: Option<string>, now: int)
    requires Fresh(c) && now < c.mission.approval.expires
    ensures Next(env, Standing(c, a, Chosen), Reserve(a.key, 0, parent, true, now)) ==
      Standing(Admitted(env, c, a, parent), a, Holding(env.idOf(Identity(a.key, c.mission.approval.sha, 0))))
  {
    StandingNext(env, c, a, Chosen, Reserve(a.key, 0, parent, true, now));
    hide Next;
    assert !Busy(c.mission, a) && Least(env, c.mission, Identity(a.key, c.mission.approval.sha, 0));
    hide Busy, Least;
  }

  lemma StandingCommitsReserved(env: Env, c: Config, a: Action, id: string, now: int)
    requires id in c.mission.admissions && c.mission.admissions[id].phase.Reserved? && now < c.mission.approval.expires
    ensures Next(env, Standing(c, a, Holding(id)), Note(a.key, true)) == Standing(c, a, Noted(id))
    ensures Next(env, Standing(c, a, Noted(id)), Commit(a.key, true, now)) == Standing(Phased(c, id, Committed), a, Ready(id))
  {
    StandingNext(env, c, a, Holding(id), Note(a.key, true));
    StandingNext(env, c, a, Noted(id), Commit(a.key, true, now));
    hide Next;
  }

  lemma StandingAuthorizes(env: Env, c: Config, a: Action, id: string, now: int)
    requires id in c.mission.admissions && c.mission.admissions[id].phase.Committed? && now < c.mission.approval.expires
    requires !HasRow(c.mission, c.mission.admissions[id].run)
    ensures Next(env, Standing(c, a, Ready(id)), Reconcile(a.key)) == Standing(c, a, Checked(id))
    ensures Next(env, Standing(c, a, Checked(id)), Authorize(a.key, true, now))
      == Standing(Phased(c, id, Authorized), a, Launching(id))
  {
    StandingNext(env, c, a, Ready(id), Reconcile(a.key));
    StandingNext(env, c, a, Checked(id), Authorize(a.key, true, now));
    hide Next, HasRow, RowsMatch;
  }

  lemma StandingLeavesBehind(env: Env, c: Config, a: Action, id: string)
    requires id in c.mission.admissions && a.key !in c.locals && !HasRow(c.mission, c.mission.admissions[id].run)
    ensures Next(env, Standing(c, a, Launching(id)), Invoke(a.key, false, true, None))
      == LeftAlone(c, a, c.mission.admissions[id].run)
  {
    StandingNext(env, c, a, Launching(id), Invoke(a.key, false, true, None));
    hide Next;
    assert c.locals[a.key := Local(a, c.mission.approval.sha, Launching(id))] - {a.key} == c.locals;
    hide HasRow;
  }

  lemma WrapperIsLeftBehind(env: Env, c: Config, a: Action, parent: Option<string>, now: int)
    requires Fresh(c) && now < c.mission.approval.expires
    ensures Execute(env, c, LeaveBehindScript(a, parent, now)) == LeftBehindBy(env, c, a, parent)
  {
    hide Next, Standing, Execute;
    var id := env.idOf(Identity(a.key, c.mission.approval.sha, 0));
    var reserved := Admitted(env, c, a, parent);
    var committed := Phased(reserved, id, Committed);
    var authorized := Phased(committed, id, Authorized);
    BeginStands(env, c, a);
    StandingAdmits(env, c, a, parent, now);
    StandingCommitsReserved(env, reserved, a, id, now);
    StandingAuthorizes(env, committed, a, id, now);
    StandingLeavesBehind(env, authorized, a, id);
    SevenSteps(env, c, LeaveBehindScript(a, parent, now), Standing(c, a, Chosen), Standing(reserved, a, Holding(id)),
               Standing(reserved, a, Noted(id)), Standing(committed, a, Ready(id)), Standing(committed, a, Checked(id)),
               Standing(authorized, a, Launching(id)), LeftBehindBy(env, c, a, parent));
  }

  /** So a second launch of a run that already has its row does happen, after a kill. */
  lemma RelaunchHappens(env: Env, c: Config, a: Action, parent: Option<string>, now: int)
    requires Fresh(c) && now < c.mission.approval.expires && Injective(env.idOf) && Injective(env.runOf)
    ensures
      var run := env.runOf(Identity(a.key, c.mission.approval.sha, 0));
      var script := LeaveBehindScript(a, parent, now) + RelaunchScript(a, 0, parent, now, Row(run, a.instance, a.task));
      Execute(env, c, script).mission.launches == [Launch(a.key, run, false, true), Launch(a.key, run, true, false)]
  {
    var i := Identity(a.key, c.mission.approval.sha, 0);
    var row := Row(env.runOf(i), a.instance, a.task);
    var left := LeftBehindBy(env, c, a, parent);
    WrapperIsLeftBehind(env, c, a, parent, now);
    FreshIsSound(env, c);
    ExecutionsStaySound(env, c, LeaveBehindScript(a, parent, now));
    ExecuteAppended(env, c, LeaveBehindScript(a, parent, now), RelaunchScript(a, 0, parent, now, row));
    hide Sound, Execute, RelaunchScript, LeaveBehindScript, Injective;
    RelaunchIsKnown(env, left, a, env.idOf(i), parent, now, row);
  }

  lemma {:induction false} ExecuteAppended(env: Env, c: Config, s: seq<Label>, t: seq<Label>)
    ensures Execute(env, c, s + t) == Execute(env, Execute(env, c, s), t)
    decreases s
  {
    hide Next;
    if s == [] {
      assert s + t == t;
    } else {
      assert (s + t)[1..] == s[1..] + t;
      ExecuteAppended(env, Next(env, c, s[0]), s[1..], t);
    }
  }

  // ---- Reservations, and when a retry can release them --------------------

  predicate Waiting(a: Admission) { a.phase.Reserved? || a.phase.Committed? }

  /** Who retries an action: anyone in any way, or callers that repeat this request and find
      this Lead. */
  datatype Caller = Anyone | Repeating(action: Action, parent: Option<string>)

  /** A step that leaves withdrawing `id` aside and, for the action, only repeats the request. */
  predicate Admits(w: Caller, id: string, s: Label) {
    && s != Withdraw(id)
    && (w.Repeating? && s.Begin? && s.action.key == w.action.key ==> s.action == w.action)
    && (w.Repeating? && s.Reserve? && s.key == w.action.key ==> s.parent == w.parent)
  }

  /** A waiting admission no such caller can take up again: its action is completed, or the
      request is another one, or the approval has changed and no process still reads the old
      one. */
  predicate Stranded(c: Config, id: string, w: Caller) {
    && id in c.mission.admissions
    && var a := c.mission.admissions[id];
       var key := a.identity.action;
       && Waiting(a) && (w.Repeating? ==> w.action.key == key)
       && (key in c.locals ==> IdAt(c.locals[key].point) != Some(id))
       && (key in c.locals && w.Repeating? ==> c.locals[key].action == w.action)
       && (|| key in c.mission.completed
           || (w.Repeating? && !SameRequest(a, w.action, w.parent))
           || (a.identity.approval != c.mission.approval.sha
               && (key in c.locals ==> c.locals[key].approval != a.identity.approval)))
  }

  /** Between two missions: the admission and the approval are the same, and nothing was
      admitted that the admission excludes. */
  predicate Blocks(m: Mission, n: Mission, id: string)
    requires id in m.admissions
  {
    && id in n.admissions && n.admissions[id] == m.admissions[id] && n.approval == m.approval
    && m.admissions.Keys <= n.admissions.Keys
    && (forall x :: x in m.admissions ==>
          n.admissions[x].instance == m.admissions[x].instance && n.admissions[x].writer == m.admissions[x].writer)
    && forall x :: x in n.admissions && x !in m.admissions ==>
         !Excludes(m.admissions[id], n.admissions[x].instance, n.admissions[x].writer)
  }

  lemma BlocksAdds(m: Mission, n: Mission, o: Mission, id: string)
    requires id in m.admissions && Blocks(m, n, id) && Blocks(n, o, id)
    ensures Blocks(m, o, id)
  {
    hide Excludes;
  }

  lemma StrandedStays(env: Env, c: Config, id: string, w: Caller, s: Label)
    requires Sound(env, c) && Stranded(c, id, w) && Admits(w, id, s)
    requires Injective(env.idOf) && Injective(env.runOf)
    ensures Stranded(Next(env, c, s), id, w) && Blocks(c.mission, Next(env, c, s).mission, id)
  {
    SoundAdmission(env, c, id);
    NamedAdmission(env, c.mission, id);
    StrandedItself(c, id, w);
    if KeyOf(s).None? {
      hide Sound, Stranded, Blocks, Next, Injective;
      EnvironmentLeavesStranded(env, c, id, w, s);
    } else if KeyOf(s).value in c.locals {
      var key := KeyOf(s).value;
      SoundLocal(env, c, key);
      NextIsOwn(env, c, s);
      hide Sound, Stranded, Blocks, Own, Next, Injective, AdmissionOk, Named, Admits;
      OwnLeavesStranded(env, c, c.locals[key], id, w, s);
    }
  }

  lemma StrandedItself(c: Config, id: string, w: Caller)
    requires Stranded(c, id, w)
    ensures Blocks(c.mission, c.mission, id)
  {
  }

  lemma NamedAdmission(env: Env, m: Mission, id: string)
    requires id in m.admissions && AdmissionOk(env, m, id)
    ensures Named(env, id, m.admissions[id])
  {
  }

  lemma EnvironmentLeavesStranded(env: Env, c: Config, id: string, w: Caller, s: Label)
    requires Sound(env, c) && Stranded(c, id, w) && Admits(w, id, s) && KeyOf(s).None? && Injective(env.runOf)
    ensures Stranded(Next(env, c, s), id, w) && Blocks(c.mission, Next(env, c, s).mission, id)
  {
    hide Sound, Injective, SameRequest;
    if s.Renew? {
      assert Active(c.mission.admissions[id]);
    } else if s.Finalize? && s.id == id && s.key in c.mission.completed {
      ReservedIsNotOwned(env, c, s.key, id);
    }
  }

  lemma ReservedIsNotOwned(env: Env, c: Config, key: string, id: string)
    requires Sound(env, c) && key in c.mission.completed && id in c.mission.admissions
    requires !EverAuthorized(c.mission.admissions[id]) && Injective(env.runOf)
    ensures c.mission.admissions[id].run != c.mission.completed[key].run
  {
    SoundAdmission(env, c, id);
    assert Owned(c.mission, key, c.mission.completed[key].run);
    var x :| OwnedBy(c.mission, key, c.mission.completed[key].run, x);
    SoundAdmission(env, c, x);
  }

  lemma OwnLeavesStranded(env: Env, c: Config, l: Local, id: string, w: Caller, s: Label)
    requires Holder(c, l) && Stranded(c, id, w) && Admits(w, id, s)
    requires Named(env, id, c.mission.admissions[id]) && Injective(env.idOf)
    requires KeyOf(s) == Some(l.action.key)
    ensures Stranded(Own(env, c, l, s), id, w) && Blocks(c.mission, Own(env, c, l, s).mission, id)
  {
    if IdAt(l.point).None? && s.Reserve? {
      ReserveLeavesStranded(env, c, l, id, w, s);
    } else {
      HolderIsElsewhere(c, l, id, w);
      hide Stranded, Blocks;
      OwnStaysElsewhere(env, c, l, id, s);
      ElsewhereLeavesStranded(c, Own(env, c, l, s), l, id, w);
    }
  }

  /** A step of one process that is not about `id`, nor a reservation. */
  predicate Elsewhere(c: Config, r: Config, l: Local, id: string) {
    var key := l.action.key;
    && r.mission.admissions.Keys == c.mission.admissions.Keys
    && (forall x :: x in c.mission.admissions ==>
          r.mission.admissions[x] == c.mission.admissions[x].(phase := r.mission.admissions[x].phase))
    && (id in c.mission.admissions ==> r.mission.admissions[id] == c.mission.admissions[id])
    && r.mission.approval == c.mission.approval && c.mission.completed.Keys <= r.mission.completed.Keys
    && r.locals - {key} == c.locals - {key}
    && (key in r.locals ==> r.locals[key] == l.(point := r.locals[key].point) && IdAt(r.locals[key].point) == IdAt(l.point))
  }

  lemma ElsewhereLeavesStranded(c: Config, r: Config, l: Local, id: string, w: Caller)
    requires Stranded(c, id, w) && Elsewhere(c, r, l, id) && Holder(c, l) && IdAt(l.point) != Some(id)
    ensures Stranded(r, id, w) && Blocks(c.mission, r.mission, id)
  {
    hide SameRequest, LocalOk, Excludes;
    var key := c.mission.admissions[id].identity.action;
    assert key != l.action.key ==> (key in r.locals <==> key in c.locals) by {
      assert key != l.action.key ==> (key in r.locals - {l.action.key} <==> key in c.locals - {l.action.key});
    }
    assert key != l.action.key && key in c.locals ==> r.locals[key] == c.locals[key] by {
      if key != l.action.key && key in c.locals {
        assert (r.locals - {l.action.key})[key] == (c.locals - {l.action.key})[key];
      }
    }
  }

  lemma HolderIsElsewhere(c: Config, l: Local, id: string, w: Caller)
    requires Holder(c, l) && Stranded(c, id, w)
    ensures IdAt(l.point) != Some(id)
  {
    hide SameRequest, Unheard;
  }

  predicate Stands(c: Config, l: Local) {
    l.action.key in c.locals && c.locals[l.action.key] == l
    && (IdAt(l.point).Some? ==> IdAt(l.point).value in c.mission.admissions)
  }

  lemma OwnStaysElsewhere(env: Env, c: Config, l: Local, id: string, s: Label)
    requires Stands(c, l) && IdAt(l.point) != Some(id) && KeyOf(s) == Some(l.action.key)
    requires IdAt(l.point).Some? || !s.Reserve?
    ensures Elsewhere(c, Own(env, c, l, s), l, id)
  {
    MovingStaysElsewhere(c, l, l.point, id);
    hide DoReserve, DoCommit, DoReconcile, DoAuthorize, DoInvoke, DoStart, DoComplete, DoAbort;
    hide Elsewhere, Move, Leave;
    match l.point
    case Chosen =>
    case Holding(x) =>
      if s.Note? { MovingStaysElsewhere(c, l, if s.ok then Noted(x) else Aborting(x), id); }
    case Noted(x) =>
      if s.Commit? { CommitStaysElsewhere(c, l, x, s.ok, s.now, id); }
    case Ready(x) =>
      if s.Reconcile? { ReconcileStaysElsewhere(c, l, x, id); }
    case Checked(x) =>
      if s.Authorize? { AuthorizeStaysElsewhere(c, l, x, s.ok, s.now, id); }
    case Launching(x) =>
      if s.Invoke? { InvokeStaysElsewhere(c, l, x, s.wrote, s.lingers, s.reported, id); }
    case Starting(x) =>
      if s.Start? { StartStaysElsewhere(c, l, x, s.ok, id); }
    case Finishing(x) =>
      if s.Complete? { CompleteStaysElsewhere(c, l, x, id); }
    case Aborting(x) =>
      if s.Abort? { AbortStaysElsewhere(c, l, x, id); }
  }

  lemma MovingStaysElsewhere(c: Config, l: Local, point: Point, id: string)
    requires Stands(c, l) && IdAt(point) == IdAt(l.point)
    ensures Elsewhere(c, c, l, id) && Elsewhere(c, Leave(c, l.action.key), l, id)
    ensures Elsewhere(c, Move(c, l.action.key, point), l, id)
  {
    var key := l.action.key;
    assert c.locals - {key} - {key} == c.locals - {key};
    assert c.locals[key := l.(point := point)] - {key} == c.locals - {key};
  }

  lemma PhaseStaysElsewhere(c: Config, l: Local, x: string, phase: Phase, point: Point, id: string)
    requires Stands(c, l) && IdAt(l.point) == Some(x) == IdAt(point) && x != id
    ensures Elsewhere(c, Leave(c.(mission := SetPhase(c.mission, x, phase)), l.action.key), l, id)
    ensures Elsewhere(c, Move(c.(mission := SetPhase(c.mission, x, phase)), l.action.key, point), l, id)
  {
    var key := l.action.key;
    assert c.locals - {key} - {key} == c.locals - {key};
    assert c.locals[key := l.(point := point)] - {key} == c.locals - {key};
  }

  lemma CommitStaysElsewhere(c: Config, l: Local, x: string, ok: bool, now: int, id: string)
    requires Stands(c, l) && IdAt(l.point) == Some(x) && x != id
    ensures Elsewhere(c, DoCommit(c, l, x, ok, now), l, id)
  {
    MovingStaysElsewhere(c, l, Ready(x), id);
    MovingStaysElsewhere(c, l, Aborting(x), id);
    PhaseStaysElsewhere(c, l, x, Committed, Ready(x), id);
    hide Elsewhere, Move, Leave, SetPhase;
  }

  lemma ReconcileStaysElsewhere(c: Config, l: Local, x: string, id: string)
    requires Stands(c, l) && IdAt(l.point) == Some(x)
    ensures Elsewhere(c, DoReconcile(c, l, x), l, id)
  {
    MovingStaysElsewhere(c, l, Starting(x), id);
    MovingStaysElsewhere(c, l, Launching(x), id);
    MovingStaysElsewhere(c, l, Checked(x), id);
    hide HasRow, RowsMatch, Elsewhere, Move, Leave;
  }

  lemma AuthorizeStaysElsewhere(c: Config, l: Local, x: string, ok: bool, now: int, id: string)
    requires Stands(c, l) && IdAt(l.point) == Some(x) && x != id
    ensures Elsewhere(c, DoAuthorize(c, l, x, ok, now), l, id)
  {
    MovingStaysElsewhere(c, l, Aborting(x), id);
    PhaseStaysElsewhere(c, l, x, Authorized, Launching(x), id);
    hide Elsewhere, Move, Leave, SetPhase;
  }

  lemma InvokeStaysElsewhere(
      c: Config, l: Local, x: string, wrote: bool, lingers: bool, reported: Option<string>, id: string)
    requires Stands(c, l) && IdAt(l.point) == Some(x)
    ensures Elsewhere(c, DoInvoke(c, l, x, wrote, lingers, reported), l, id)
  {
    hide HasRow;
  }

  lemma StartStaysElsewhere(c: Config, l: Local, x: string, ok: bool, id: string)
    requires Stands(c, l) && IdAt(l.point) == Some(x) && x != id
    ensures Elsewhere(c, DoStart(c, l, x, ok), l, id)
  {
    MovingStaysElsewhere(c, l, Finishing(x), id);
    PhaseStaysElsewhere(c, l, x, Started, Finishing(x), id);
    hide Elsewhere, Move, Leave, SetPhase;
  }

  lemma CompleteStaysElsewhere(c: Config, l: Local, x: string, id: string)
    requires Stands(c, l) && IdAt(l.point) == Some(x)
    ensures Elsewhere(c, DoComplete(c, l, x), l, id)
  {
  }

  lemma AbortStaysElsewhere(c: Config, l: Local, x: string, id: string)
    requires Stands(c, l) && IdAt(l.point) == Some(x) && x != id
    ensures Elsewhere(c, DoAbort(c, l, x), l, id)
  {
    MovingStaysElsewhere(c, l, l.point, id);
    PhaseStaysElsewhere(c, l, x, Aborted, l.point, id);
    hide Elsewhere, Leave, SetPhase;
  }

  lemma ReserveLeavesStranded(env: Env, c: Config, l: Local, id: string, w: Caller, s: Label)
    requires Holder(c, l) && Stranded(c, id, w) && Admits(w, id, s) && s.Reserve? && s.key == l.action.key
    requires Named(env, id, c.mission.admissions[id]) && Injective(env.idOf) && l.point.Chosen?
    ensures Stranded(Own(env, c, l, s), id, w) && Blocks(c.mission, Own(env, c, l, s).mission, id)
  {
    hide Least, SameRequest, Unheard, BoundTo, Excludes;
    assert Active(c.mission.admissions[id]);
  }

  /** A stranded admission stays as it is under every script of such callers. While it stands
      the approval is never renewed, and its recipient gets no further admission: the next
      attempt of its own action is refused with the rest. */
  lemma {:induction false} StrandedForever(env: Env, c: Config, id: string, w: Caller, script: seq<Label>)
    requires Sound(env, c) && Stranded(c, id, w) && Injective(env.idOf) && Injective(env.runOf)
    requires forall s :: s in script ==> Admits(w, id, s)
    ensures Stranded(Execute(env, c, script), id, w) && Blocks(c.mission, Execute(env, c, script).mission, id)
    decreases script
  {
    assert id in c.mission.admissions;
    hide Next, Injective, Sound, Stranded, Excludes, Admits;
    if script == [] {
      assert Stranded(c, id, w);
    } else {
      assert script[0] in script;
      var next := Next(env, c, script[0]);
      StrandedStays(env, c, id, w, script[0]);
      NextKeepsSound(env, c, script[0]);
      StrandedForever(env, next, id, w, script[1..]);
      BlocksAdds(c.mission, next.mission, Execute(env, next, script[1..]).mission, id);
    }
  }

  /** The call that takes a reservation up, fails to note its intent and aborts it. */
  function ReleaseScript(a: Action, attempt: nat, parent: Option<string>, now: int): seq<Label> {
    [Begin(a), Reserve(a.key, attempt, parent, true, now), Note(a.key, false), Abort(a.key)]
  }

  /** A retry of the same request under the same approval can release the reservation, and
      changes nothing else. */
  lemma RetryReleases(env: Env, c: Config, a: Action, id: string, parent: Option<string>, now: int)
    requires Sound(env, c) && a.key !in c.locals && a.key !in c.mission.completed
    requires id in c.mission.admissions && Waiting(c.mission.admissions[id])
    requires c.mission.admissions[id].identity.action == a.key && SameRequest(c.mission.admissions[id], a, parent)
    requires c.mission.admissions[id].identity.approval == c.mission.approval.sha
    ensures Execute(env, c, ReleaseScript(a, c.mission.admissions[id].identity.attempt, parent, now))
      == c.(mission := SetPhase(c.mission, id, Aborted))
  {
    SoundAdmission(env, c, id);
    WaitingIsLeast(env, c.mission, id);
    hide Sound, Least, Next, AdmissionOk, SameRequest;
    var attempt := c.mission.admissions[id].identity.attempt;
    BeginStands(env, c, a);
    StandingReserves(env, c, a, id, parent, now);
    StandingGivesUp(env, c, a, id);
    hide Standing, SetPhase;
    FourSteps(env, c, ReleaseScript(a, attempt, parent, now), Standing(c, a, Chosen), Standing(c, a, Holding(id)),
              Standing(c, a, Aborting(id)), c.(mission := SetPhase(c.mission, id, Aborted)));
  }

  lemma StandingGivesUp(env: Env, c: Config, a: Action, id: string)
    requires id in c.mission.admissions && Waiting(c.mission.admissions[id]) && a.key !in c.locals
    ensures Next(env, Standing(c, a, Holding(id)), Note(a.key, false)) == Standing(c, a, Aborting(id))
    ensures Next(env, Standing(c, a, Aborting(id)), Abort(a.key)) == c.(mission := SetPhase(c.mission, id, Aborted))
  {
    StandingNext(env, c, a, Holding(id), Note(a.key, false));
    StandingNext(env, c, a, Aborting(id), Abort(a.key));
    hide Next;
    assert c.locals[a.key := Local(a, c.mission.approval.sha, Aborting(id))] - {a.key} == c.locals;
  }

  lemma WaitingIsLeast(env: Env, m: Mission, id: string)
    requires id in m.admissions && AdmissionOk(env, m, id) && Waiting(m.admissions[id])
    ensures Least(env, m, m.admissions[id].identity) && env.idOf(m.admissions[id].identity) == id
  {
  }

  /** Steps of such callers after which the admission is inactive. */
  ghost predicate Releases(env: Env, c: Config, id: string, w: Caller, script: seq<Label>) {
    && (forall s :: s in script ==> Admits(w, id, s))
    && var n := Execute(env, c, script).mission;
       id in n.admissions && !Active(n.admissions[id])
  }

  /** A waiting admission no process holds can be released without being withdrawn exactly
      when its action is not completed, the approval it was reserved under is still the
      mission's and, if callers only repeat one request, that request is the reserved one. */
  lemma ReleaseDecides(env: Env, c: Config, id: string, w: Caller)
    requires Sound(env, c) && Injective(env.idOf) && Injective(env.runOf)
    requires id in c.mission.admissions && Waiting(c.mission.admissions[id])
    requires c.mission.admissions[id].identity.action !in c.locals
    requires w.Repeating? ==> w.action.key == c.mission.admissions[id].identity.action
    ensures (exists script :: Releases(env, c, id, w, script)) <==>
      && c.mission.admissions[id].identity.action !in c.mission.completed
      && c.mission.admissions[id].identity.approval == c.mission.approval.sha
      && (w.Repeating? ==> SameRequest(c.mission.admissions[id], w.action, w.parent))
  {
    if Stranded(c, id, w) {
      hide Sound, Injective, Stranded, Releases, SameRequest;
      forall script ensures !Releases(env, c, id, w, script) {
        StrandedIsNotReleased(env, c, id, w, script);
      }
    } else {
      hide Sound, Injective, Execute, Releases, SameRequest;
      var script := FreeIsReleased(env, c, id, w);
    }
  }

  lemma StrandedIsNotReleased(env: Env, c: Config, id: string, w: Caller, script: seq<Label>)
    requires Sound(env, c) && Stranded(c, id, w) && Injective(env.idOf) && Injective(env.runOf)
    ensures !Releases(env, c, id, w, script)
  {
    hide Sound, Injective, SameRequest, Execute;
    if forall s :: s in script ==> Admits(w, id, s) {
      StrandedForever(env, c, id, w, script);
      assert Active(Execute(env, c, script).mission.admissions[id]);
    }
  }

  lemma FreeIsReleased(env: Env, c: Config, id: string, w: Caller) returns (script: seq<Label>)
    requires Sound(env, c) && id in c.mission.admissions && Waiting(c.mission.admissions[id])
    requires c.mission.admissions[id].identity.action !in c.locals
    requires c.mission.admissions[id].identity.action !in c.mission.completed
    requires c.mission.admissions[id].identity.approval == c.mission.approval.sha
    requires w.Repeating? ==> w.action.key == c.mission.admissions[id].identity.action
    requires w.Repeating? ==> SameRequest(c.mission.admissions[id], w.action, w.parent)
    ensures Releases(env, c, id, w, script)
  {
    var h := c.mission.admissions[id];
    var a := if w.Repeating? then w.action
             else Action(h.identity.action, h.instance, h.capability, h.task, h.effect, h.writer);
    var parent := if w.Repeating? then w.parent else h.parent;
    script := ReleaseScript(a, h.identity.attempt, parent, 0);
    assert SameRequest(h, a, parent);
    hide Sound, Execute, SameRequest;
    RetryReleases(env, c, a, id, parent, 0);
  }

  // ---- What the reserving call could check --------------------------------

  /** Waiting under an approval that is not the mission's any more. */
  predicate Outdated(m: Mission, id: string) {
    id in m.admissions && Waiting(m.admissions[id]) && m.admissions[id].identity.approval != m.approval.sha
  }

  predicate UpToDate(m: Mission, id: string) {
    id in m.admissions && (Active(m.admissions[id]) ==> m.admissions[id].identity.approval == m.approval.sha)
  }

  /** Renewals wait for active admissions, so an admission under the current approval never
      outlives it. */
  lemma UpToDateStays(env: Env, c: Config, id: string, s: Label)
    requires UpToDate(c.mission, id)
    ensures UpToDate(Next(env, c, s).mission, id)
  {
    hide HasRow, RowsMatch, Least, SameRequest, Busy;
  }

  lemma {:induction false} UpToDateForever(env: Env, c: Config, id: string, script: seq<Label>)
    requires UpToDate(c.mission, id)
    ensures UpToDate(Execute(env, c, script).mission, id)
    decreases script
  {
    hide Next, UpToDate;
    if script != [] {
      UpToDateStays(env, c, id, script[0]);
      UpToDateForever(env, Next(env, c, script[0]), id, script[1..]);
    }
  }

  predicate Outdates(env: Env, c: Config, id: string, script: seq<Label>) {
    Outdated(Execute(env, c, script).mission, id)
  }

  /** Whether a reservation can ever be outdated is settled when it is made, by whether the
      approval the process read is still the mission's. If it is not, a crash right after
      strands it. */
  lemma ReservationDecides(
      env: Env, c: Config, l: Local, attempt: nat, parent: Option<string>, now: int, id: string)
    requires Sound(env, c) && Holder(c, l) && l.point.Chosen? && id !in c.mission.admissions
    requires id in DoReserve(env, c, l, attempt, parent, true, now).mission.admissions
    ensures
      var reserved := DoReserve(env, c, l, attempt, parent, true, now);
      && ((exists script :: Outdates(env, reserved, id, script)) <==> l.approval != c.mission.approval.sha)
      && (l.approval != c.mission.approval.sha ==>
            Stranded(Next(env, reserved, Crash(l.action.key)), id, Anyone))
  {
    var reserved := DoReserve(env, c, l, attempt, parent, true, now);
    assert reserved.mission.approval == c.mission.approval;
    assert reserved.mission.admissions[id] == NewAdmission(env, Identity(l.action.key, l.approval, attempt), l.action, parent);
    hide Sound, DoReserve, Least;
    if l.approval == c.mission.approval.sha {
      forall script ensures !Outdates(env, reserved, id, script) {
        UpToDateForever(env, reserved, id, script);
      }
    } else {
      NothingExecuted(env, reserved);
      assert Outdates(env, reserved, id, []);
    }
  }

  /** The race between a call and a renewal is four steps long. */
  lemma StrandingHappens(env: Env, c: Config, a: Action, parent: Option<string>, now: int, sha: Digest, expires: int)
    requires Fresh(c) && c.mission.approval.expires <= now < expires && sha !in c.mission.approvals
    requires c.mission.approval.sha in c.mission.approvals
    ensures Stranded(
      Execute(env, c, [Begin(a), Renew(now, sha, expires), Reserve(a.key, 0, parent, true, now), Crash(a.key)]),
      env.idOf(Identity(a.key, c.mission.approval.sha, 0)), Anyone)
  {
    var read := DoBegin(c, a);
    var renewed := read.(mission := DoRenew(read.mission, now, sha, expires));
    var i := Identity(a.key, c.mission.approval.sha, 0);
    assert Least(env, renewed.mission, i);
    var reserved := DoReserve(env, renewed, renewed.locals[a.key], 0, parent, true, now);
    var crashed := Leave(reserved, a.key);
    hide DoBegin, DoReserve, DoRenew, Leave;
    FourSteps(env, c, [Begin(a), Renew(now, sha, expires), Reserve(a.key, 0, parent, true, now), Crash(a.key)],
              read, renewed, reserved, crashed);
  }

  lemma FourSteps(env: Env, c: Config, s: seq<Label>, c1: Config, c2: Config, c3: Config, c4: Config)
    requires |s| == 4 && Next(env, c, s[0]) == c1 && Next(env, c1, s[1]) == c2
    requires Next(env, c2, s[2]) == c3 && Next(env, c3, s[3]) == c4
    ensures Execute(env, c, s) == c4
  {
    hide Next;
    assert Execute(env, c4, s[4..]) == c4;
    assert s[3..][1..] == s[4..] && Execute(env, c3, s[3..]) == c4;
    assert s[2..][1..] == s[3..] && Execute(env, c2, s[2..]) == c4;
    assert s[1..][1..] == s[2..] && Execute(env, c1, s[1..]) == c4;
  }

  // ---- The runner's own code is a run of the machine ----------------------

  /** What the mission ledger, the wrapper and the clock answer during one call. */
  datatype Answers = Answers(
    parent: Option<string>, admitted: bool, noted: bool, committed: bool, cleared: bool, wrote: bool, lingers: bool,
    reported: Option<string>, started: bool, now: int)

  lemma {:induction false} ExecuteOneMore(env: Env, c: Config, script: seq<Label>, s: Label)
    ensures Execute(env, c, script + [s]) == Next(env, Execute(env, c, script), s)
    decreases script
  {
    hide Next;
    if script == [] {
      assert [s][1..] == [];
    } else {
      assert (script + [s])[1..] == script[1..] + [s];
      ExecuteOneMore(env, Next(env, c, script[0]), script[1..], s);
    }
  }

  /** The configuration while the runner holds `a`'s lock beside the `others`. */
  function With(m: Mission, others: map<string, Local>, a: Action, approval: Digest, point: Point): Config {
    Config(m, others[a.key := Local(a, approval, point)])
  }

  lemma Without(m: Mission, others: map<string, Local>, a: Action, approval: Digest, point: Point)
    requires a.key !in others
    ensures Leave(With(m, others, a, approval, point), a.key) == Config(m, others)
  {
    assert others[a.key := Local(a, approval, point)] - {a.key} == others;
  }

  lemma TakeStep(env: Env, start: Config, trace: seq<Label>, m: Mission, others: map<string, Local>, a: Action,
                 approval: Digest, point: Point, s: Label)
    requires Execute(env, start, trace) == With(m, others, a, approval, point) && KeyOf(s) == Some(a.key)
    requires IdAt(point).Some? ==> IdAt(point).value in m.admissions
    ensures Execute(env, start, trace + [s]) == Own(env, With(m, others, a, approval, point), Local(a, approval, point), s)
  {
    hide Own, Execute;
    ExecuteOneMore(env, start, trace, s);
  }

  lemma NothingExecuted(env: Env, c: Config)
    ensures Execute(env, c, []) == c
  {
  }

  lemma BeginIs(env: Env, c: Config, a: Action)
    requires a.key !in c.locals && a.key !in c.mission.completed
    ensures Next(env, c, Begin(a)) == With(c.mission, c.locals, a, c.mission.approval.sha, Chosen)
  {
  }

  class AssuredRunner {
    const env: Env
    var mission: Mission

    constructor (env: Env, m: Mission)
      ensures this.env == env && mission == m
    {
      this.env, mission := env, m;
    }

    method ReserveEffect(a: Action, approval: Digest, r: Answers, ghost others: map<string, Local>)
      returns (id: Option<string>, attempt: nat)
      requires Injective(env.idOf) && a.key !in others
      modifies this
      ensures id.Some? ==> id.value in mission.admissions
      ensures
        DoReserve(env, With(old(mission), others, a, approval, Chosen), Local(a, approval, Chosen), attempt, r.parent,
                  r.admitted, r.now)
        == if id.Some? then With(mission, others, a, approval, Holding(id.value)) else Config(mission, others)
    {
      hide Least, Injective;
      Without(mission, others, a, approval, Chosen);
      attempt := SelectAttempt(env, mission, a.key, approval);
      var i := Identity(a.key, approval, attempt);
      var named := env.idOf(i);
      if named in mission.admissions {
        id := if SameRequest(mission.admissions[named], a, r.parent) then Some(named) else None;
      } else if !r.admitted || r.now >= mission.approval.expires || Busy(mission, a) {
        id := None;
      } else {
        mission := mission.(admissions := mission.admissions[named := NewAdmission(env, i, a, r.parent)]);
        id := Some(named);
      }
    }

    method AbortPrelaunch(a: Action, approval: Digest, id: string, ghost others: map<string, Local>)
      requires id in mission.admissions && a.key !in others
      modifies this
      ensures DoAbort(With(old(mission), others, a, approval, Aborting(id)), Local(a, approval, Aborting(id)), id)
        == Config(mission, others)
    {
      Without(mission, others, a, approval, Aborting(id));
      var phase := mission.admissions[id].phase;
      if phase.Reserved? || phase.Committed? {
        mission := SetPhase(mission, id, Aborted);
        Without(mission, others, a, approval, Aborting(id));
      }
    }

    /** Where the call goes after the commit: on, to the abort, or out. */
    method CommitEffect(a: Action, approval: Digest, id: string, r: Answers, ghost others: map<string, Local>)
      returns (next: Option<Point>)
      requires id in mission.admissions && a.key !in others
      modifies this
      ensures mission.admissions.Keys == old(mission).admissions.Keys
      ensures next.Some? ==> next.value == Ready(id) || next.value == Aborting(id)
      ensures DoCommit(With(old(mission), others, a, approval, Noted(id)), Local(a, approval, Noted(id)), id, r.committed, r.now)
        == if next.Some? then With(mission, others, a, approval, next.value) else Config(mission, others)
    {
      Without(mission, others, a, approval, Noted(id));
      var phase := mission.admissions[id].phase;
      if phase.Reserved? {
        if r.committed && r.now < mission.approval.expires {
          mission := SetPhase(mission, id, Committed);
          next := Some(Ready(id));
        } else {
          next := Some(Aborting(id));
        }
      } else {
        next := if phase.Aborted? then None else Some(Ready(id));
      }
    }

    method ReconcileRun(a: Action, approval: Digest, id: string, ghost others: map<string, Local>)
      returns (next: Option<Point>)
      requires id in mission.admissions && a.key !in others
      ensures next.Some? ==> next.value == Starting(id) || next.value == Launching(id) || next.value == Checked(id)
      ensures DoReconcile(With(mission, others, a, approval, Ready(id)), Local(a, approval, Ready(id)), id)
        == if next.Some? then With(mission, others, a, approval, next.value) else Config(mission, others)
    {
      Without(mission, others, a, approval, Ready(id));
      var admission := mission.admissions[id];
      if HasRow(mission, admission.run) {
        next := if RowsMatch(mission, admission) && EverAuthorized(admission) then Some(Starting(id)) else None;
      } else if admission.phase.Started? || admission.phase.Finalized? {
        next := None;
      } else {
        next := Some(if admission.phase.Authorized? then Launching(id) else Checked(id));
      }
    }

    method AuthorizeLaunch(a: Action, approval: Digest, id: string, r: Answers, ghost others: map<string, Local>)
      returns (next: Point)
      requires id in mission.admissions && a.key !in others
      modifies this
      ensures mission.admissions.Keys == old(mission).admissions.Keys
      ensures next == Launching(id) || next == Aborting(id)
      ensures DoAuthorize(With(old(mission), others, a, approval, Checked(id)), Local(a, approval, Checked(id)), id,
                          r.cleared, r.now) == With(mission, others, a, approval, next)
    {
      next := Aborting(id);
      if r.cleared && r.now < mission.approval.expires && mission.approval.sha == approval {
        if mission.admissions[id].phase.Committed? {
          mission := SetPhase(mission, id, Authorized);
          next := Launching(id);
        }
      }
    }

    method InvokeWrapper(a: Action, approval: Digest, id: string, r: Answers, ghost others: map<string, Local>)
      returns (accepted: bool)
      requires id in mission.admissions && a.key !in others
      modifies this
      ensures mission.admissions == old(mission).admissions
      ensures DoInvoke(With(old(mission), others, a, approval, Launching(id)), Local(a, approval, Launching(id)), id,
                       r.wrote, r.lingers, r.reported)
        == if accepted then With(mission, others, a, approval, Starting(id)) else Config(mission, others)
    {
      var run := mission.admissions[id].run;
      var row := Row(run, a.instance, a.task);
      var known := HasRow(mission, run);
      mission := mission.(launches := mission.launches + [Launch(a.key, run, known, r.lingers)]);
      if r.wrote {
        mission := mission.(rows := mission.rows + [row]);
      }
      if r.lingers {
        mission := mission.(lingering := mission.lingering + {row});
      }
      accepted := r.reported == Some(run);
      Without(mission, others, a, approval, Launching(id));
    }

    method StartEffect(a: Action, approval: Digest, id: string, r: Answers, ghost others: map<string, Local>)
      returns (started: bool)
      requires id in mission.admissions && a.key !in others
      modifies this
      ensures mission.admissions.Keys == old(mission).admissions.Keys
      ensures DoStart(With(old(mission), others, a, approval, Starting(id)), Local(a, approval, Starting(id)), id, r.started)
        == if started then With(mission, others, a, approval, Finishing(id)) else Config(mission, others)
    {
      Without(mission, others, a, approval, Starting(id));
      var phase := mission.admissions[id].phase;
      if phase.Authorized? && r.started {
        mission := SetPhase(mission, id, Started);
        started := true;
      } else {
        started := phase.Started?;
      }
    }

    method RecordCompletion(a: Action, approval: Digest, id: string, ghost others: map<string, Local>)
      requires id in mission.admissions && a.key !in others
      modifies this
      ensures a.key in mission.completed
      ensures a.key !in old(mission).completed ==>
        mission.completed[a.key] == Completion(a.instance, a.task, old(mission).admissions[id].run)
      ensures DoComplete(With(old(mission), others, a, approval, Finishing(id)), Local(a, approval, Finishing(id)), id)
        == Config(mission, others)
    {
      if a.key !in mission.completed {
        mission := mission.(completed := mission.completed[
          a.key := Completion(a.instance, a.task, mission.admissions[id].run)]);
      }
      Without(mission, others, a, approval, Finishing(id));
    }

    /** The call from the moment the admission is held. */
    method Proceed(a: Action, r: Answers, approval: Digest, id: string, ghost others: map<string, Local>,
                   ghost start: Config, ghost taken: seq<Label>)
      returns (run: Option<string>, ghost trace: seq<Label>)
      requires id in mission.admissions && a.key !in others
      requires Execute(env, start, taken) == With(mission, others, a, approval, Holding(id))
      modifies this
      ensures Config(mission, others) == Execute(env, start, trace)
      ensures run.Some? ==> a.key in mission.completed && mission.completed[a.key].run == run.value
    {
      hide DoReserve, DoCommit, DoReconcile, DoAuthorize, DoInvoke, DoStart, DoComplete, DoAbort, Execute, Next;
      run, trace := None, taken;
      TakeStep(env, start, trace, mission, others, a, approval, Holding(id), Note(a.key, r.noted));
      trace := trace + [Note(a.key, r.noted)];
      if !r.noted {
        trace := GiveUp(a, approval, id, others, start, trace);
        return;
      }
      TakeStep(env, start, trace, mission, others, a, approval, Noted(id), Commit(a.key, r.committed, r.now));
      var next := CommitEffect(a, approval, id, r, others);
      trace := trace + [Commit(a.key, r.committed, r.now)];
      if next.None? {
        return;
      }
      if next.value == Aborting(id) {
        trace := GiveUp(a, approval, id, others, start, trace);
        return;
      }
      TakeStep(env, start, trace, mission, others, a, approval, Ready(id), Reconcile(a.key));
      next := ReconcileRun(a, approval, id, others);
      trace := trace + [Reconcile(a.key)];
      if next.None? {
        return;
      }
      run, trace := Effect(a, r, approval, id, next.value, others, start, trace);
    }

    method GiveUp(a: Action, approval: Digest, id: string, ghost others: map<string, Local>, ghost start: Config,
                  ghost taken: seq<Label>)
      returns (ghost trace: seq<Label>)
      requires id in mission.admissions && a.key !in others
      requires Execute(env, start, taken) == With(mission, others, a, approval, Aborting(id))
      modifies this
      ensures Config(mission, others) == Execute(env, start, trace)
    {
      hide DoAbort, Execute, Next;
      TakeStep(env, start, taken, mission, others, a, approval, Aborting(id), Abort(a.key));
      AbortPrelaunch(a, approval, id, others);
      trace := taken + [Abort(a.key)];
    }

    /** Authorize if need be, then go on to the launch. */
    method Effect(a: Action, r: Answers, approval: Digest, id: string, from: Point, ghost others: map<string, Local>,
                  ghost start: Config, ghost taken: seq<Label>)
      returns (run: Option<string>, ghost trace: seq<Label>)
      requires id in mission.admissions && a.key !in others
      requires from == Starting(id) || from == Launching(id) || from == Checked(id)
      requires Execute(env, start, taken) == With(mission, others, a, approval, from)
      modifies this
      ensures Config(mission, others) == Execute(env, start, trace)
      ensures run.Some? ==> a.key in mission.completed && mission.completed[a.key].run == run.value
    {
      hide DoAuthorize, DoAbort, Execute, Next;
      run, trace := None, taken;
      if from == Starting(id) {
        run, trace := Finish(a, r, approval, id, others, start, trace);
      } else if from == Launching(id) {
        run, trace := LaunchEffect(a, r, approval, id, others, start, trace);
      } else {
        TakeStep(env, start, trace, mission, others, a, approval, from, Authorize(a.key, r.cleared, r.now));
        var point := AuthorizeLaunch(a, approval, id, r, others);
        trace := trace + [Authorize(a.key, r.cleared, r.now)];
        if point == Aborting(id) {
          trace := GiveUp(a, approval, id, others, start, trace);
        } else {
          run, trace := LaunchEffect(a, r, approval, id, others, start, trace);
        }
      }
    }

    /** The wrapper is the immediate next effect after the durable authorization. */
    method LaunchEffect(a: Action, r: Answers, approval: Digest, id: string, ghost others: map<string, Local>,
                        ghost start: Config, ghost taken: seq<Label>)
      returns (run: Option<string>, ghost trace: seq<Label>)
      requires id in mission.admissions && a.key !in others
      requires Execute(env, start, taken) == With(mission, others, a, approval, Launching(id))
      modifies this
      ensures Config(mission, others) == Execute(env, start, trace)
      ensures run.Some? ==> a.key in mission.completed && mission.completed[a.key].run == run.value
    {
      hide DoInvoke, Execute, Next;
      TakeStep(env, start, taken, mission, others, a, approval, Launching(id), Invoke(a.key, r.wrote, r.lingers, r.reported));
      var accepted := InvokeWrapper(a, approval, id, r, others);
      run, trace := None, taken + [Invoke(a.key, r.wrote, r.lingers, r.reported)];
      if accepted {
        run, trace := Finish(a, r, approval, id, others, start, trace);
      }
    }

    /** Start and complete. */
    method Finish(a: Action, r: Answers, approval: Digest, id: string, ghost others: map<string, Local>,
                  ghost start: Config, ghost taken: seq<Label>)
      returns (run: Option<string>, ghost trace: seq<Label>)
      requires id in mission.admissions && a.key !in others
      requires Execute(env, start, taken) == With(mission, others, a, approval, Starting(id))
      modifies this
      ensures Config(mission, others) == Execute(env, start, trace)
      ensures run.Some? ==> a.key in mission.completed && mission.completed[a.key].run == run.value
    {
      hide DoStart, DoComplete, Execute, Next;
      TakeStep(env, start, taken, mission, others, a, approval, Starting(id), Start(a.key, r.started));
      var started := StartEffect(a, approval, id, r, others);
      run, trace := None, taken + [Start(a.key, r.started)];
      if started {
        TakeStep(env, start, trace, mission, others, a, approval, Finishing(id), Complete(a.key));
        RecordCompletion(a, approval, id, others);
        trace := trace + [Complete(a.key)];
        run := Some(mission.completed[a.key].run);
      }
    }

    /** One dispatch under its lock, beside the processes of other actions. The steps it takes
        are steps of the machine, and it returns a run only when the completion records it. */
    method DispatchPromptLocked(a: Action, r: Answers, ghost others: map<string, Local>)
      returns (run: Option<string>, ghost trace: seq<Label>)
      requires Injective(env.idOf) && a.key !in others
      modifies this
      ensures Config(mission, others) == Execute(env, Config(old(mission), others), trace)
      ensures run.Some? ==> a.key in mission.completed && mission.completed[a.key].run == run.value
    {
      hide DoReserve, DoCommit, DoReconcile, DoAuthorize, DoInvoke, DoStart, DoComplete, DoAbort, Injective, Execute, Next;
      ghost var start := Config(mission, others);
      run, trace := None, [];
      assert Execute(env, start, []) == start by { NothingExecuted(env, start); }
      if a.key in mission.completed {
        if CompletedFor(mission, a) {
          run := Some(mission.completed[a.key].run);
        }
        return;
      }
      var approval := mission.approval.sha;
      ExecuteOneMore(env, start, [], Begin(a));
      BeginIs(env, start, a);
      trace := [] + [Begin(a)];
      assert Execute(env, start, trace) == With(mission, others, a, approval, Chosen);

      ghost var before := mission;
      var held, attempt := ReserveEffect(a, approval, r, others);
      TakeStep(env, start, trace, before, others, a, approval, Chosen, Reserve(a.key, attempt, r.parent, r.admitted, r.now));
      trace := trace + [Reserve(a.key, attempt, r.parent, r.admitted, r.now)];
      if held.None? {
        return;
      }
      var id := held.value;
      run, trace := Proceed(a, r, approval, id, others, start, trace);
    }
  }
}
