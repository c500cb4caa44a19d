/** Retiring isolated snapshot clones: staging behind an inode-bound intent, a tombstone,
    recursive removal, and the driver that restarts all of it after a crash. A run may stop
    before any durable step; `budget` counts the steps it still has. */
module CloneGuard {
  import opened Common
  import opened CloneTree

  datatype Kind = Partial | Reader | Writer

  /** The immutable part of a clone's intents. */
  datatype Static = Static(feature: string, instance: string, workspace: string, kind: Kind, sha: string, branch: string, root: string)

  /** One clone: its immutable binding, the names derived from it, and the root identity
      recorded when the snapshot was made. */
  datatype Clone = Clone(
    binding: Static, source: string, staging: string, stageFile: string, tombFile: string, dev: nat, ino: nat)

  datatype IntentType = Stage | Retirement

  datatype Intent = Intent(kind: IntentType, binding: Static, dev: nat, ino: nat, mode: Mode)

  datatype Stored = Garbled | Canonical(record: Intent)

  /** The worktrees root, the staging root inside it with its entries, and the runs directory. */
  datatype Disk = Disk(
    root: map<string, Node>, stagingRoot: Option<Meta>, staging: map<string, Node>, intents: map<string, Stored>)

  datatype Run = Run(disk: Disk, budget: nat, progress: Progress)

  /** The effective user, and the Git half of worktree validation. */
  datatype Env = Env(uid: nat, gitOk: Node -> bool)

  predicate StagingRootOk(env: Env, m: Meta) { m.uid == env.uid && m.mode == PRIVATE_ROOT }

  function OpenStaging(env: Env, d: Disk, create: bool, budget: nat): Run {
    match d.stagingRoot
    case Some(m) => Run(d, budget, if StagingRootOk(env, m) then Going else Refused)
    case None =>
      if !create then Run(d, budget, Refused)
      else if budget == 0 then Run(d, 0, Stopped)
      else Run(d.(stagingRoot := Some(Meta(0, 0, env.uid, PRIVATE_ROOT, 2))), budget - 1, Going)
  }

  // ---- Staging ------------------------------------------------------------

  function AllowedModes(kind: Kind, original: Mode): set<Mode> {
    if kind.Reader? then {original, Writable(original)} else {original}
  }

  predicate CloneOk(env: Env, n: Node, kind: Kind, i: Intent) {
    && SameNode(n, i.dev, i.ino) && SameDevice(n, env.uid, n.meta.dev) && n.meta.mode in AllowedModes(kind, i.mode)
  }

  /** The closing checks on what now lies in staging. */
  function Confirm(c: Clone, d: Disk, i: Intent, budget: nat): Run {
    if c.staging !in d.staging || !SameNode(d.staging[c.staging], i.dev, i.ino) then Run(d, budget, Refused)
    else if c.binding.kind.Reader? && d.staging[c.staging].meta.mode != i.mode then Run(d, budget, Refused)
    else Run(d, budget, Going)
  }

  function RestoreMode(c: Clone, d: Disk, i: Intent, budget: nat): Run
    requires c.staging in d.staging
  {
    if budget == 0 then Run(d, 0, Stopped)
    else
      var n := d.staging[c.staging];
      Confirm(c, d.(staging := d.staging[c.staging := Chmod(n, i.mode)]), i, budget - 1)
  }

  function MoveToStaging(c: Clone, d: Disk, i: Intent, budget: nat): Run
    requires c.source in d.root && c.staging !in d.staging
  {
    if budget == 0 then Run(d, 0, Stopped)
    else
      var moved := d.(root := d.root - {c.source}, staging := d.staging[c.staging := d.root[c.source]]);
      if c.binding.kind.Reader? then RestoreMode(c, moved, i, budget - 1) else Confirm(c, moved, i, budget - 1)
  }

  function StageSource(env: Env, c: Clone, d: Disk, i: Intent, budget: nat): Run
    requires c.source in d.root && c.staging !in d.staging
  {
    var n := d.root[c.source];
    if !CloneOk(env, n, c.binding.kind, i) then Run(d, budget, Refused)
    else if !c.binding.kind.Reader? || n.meta.mode == Writable(i.mode) then MoveToStaging(c, d, i, budget)
    else if budget == 0 then Run(d, 0, Stopped)
    else MoveToStaging(c, d.(root := d.root[c.source := Chmod(n, Writable(i.mode))]), i, budget - 1)
  }

  function StageStaged(env: Env, c: Clone, d: Disk, i: Intent, budget: nat): Run
    requires c.staging in d.staging
  {
    var n := d.staging[c.staging];
    if !CloneOk(env, n, c.binding.kind, i) then Run(d, budget, Refused)
    else if c.binding.kind.Reader? && n.meta.mode != i.mode then RestoreMode(c, d, i, budget)
    else Confirm(c, d, i, budget)
  }

  predicate StageIntentOk(c: Clone, i: Intent) {
    && i.kind.Stage? && i.binding == c.binding && i.mode <= PERMISSIONS
    && (c.binding.kind.Reader? ==> ReadOnly(i.mode))
  }

  function StageWith(env: Env, c: Clone, d: Disk, i: Intent, budget: nat): Run {
    if !StageIntentOk(c, i) || (c.source in d.root) == (c.staging in d.staging) then Run(d, budget, Refused)
    else if c.source in d.root then StageSource(env, c, d, i, budget)
    else StageStaged(env, c, d, i, budget)
  }

  function StageOpened(env: Env, c: Clone, d: Disk, budget: nat): Run {
    if c.source in d.root && c.staging in d.staging then Run(d, budget, Refused)
    else if c.stageFile in d.intents then
      match d.intents[c.stageFile]
      case Garbled => Run(d, budget, Refused)
      case Canonical(i) => StageWith(env, c, d, i, budget)
    else if c.source !in d.root then Run(d, budget, Refused)
    else
      var n := d.root[c.source];
      if !OwnedDir(n, env.uid) || (c.binding.kind.Reader? && !ReadOnly(n.meta.mode)) then Run(d, budget, Refused)
      else if budget == 0 then Run(d, 0, Stopped)
      else
        var i := Intent(Stage, c.binding, n.meta.dev, n.meta.ino, n.meta.mode);
        StageWith(env, c, d.(intents := d.intents[c.stageFile := Canonical(i)]), i, budget - 1)
  }

  function StageClone(env: Env, c: Clone, d: Disk, budget: nat): Run {
    if c.stageFile in d.intents && d.intents[c.stageFile].Garbled? then Run(d, budget, Refused)
    else
      var o := OpenStaging(env, d, true, budget);
      if o.progress.Going? then StageOpened(env, c, o.disk, o.budget) else o
  }

  // ---- Tombstone ----------------------------------------------------------

  function LoadTombstone(c: Clone, d: Disk): Option<Intent> {
    if c.tombFile in d.intents && d.intents[c.tombFile].Canonical?
       && d.intents[c.tombFile].record.kind.Retirement? && d.intents[c.tombFile].record.binding == c.binding
       && d.intents[c.tombFile].record.mode <= PERMISSIONS
    then Some(d.intents[c.tombFile].record) else None
  }

  predicate TombstoneStateOk(env: Env, c: Clone, d: Disk, i: Intent) {
    && c.source !in d.root
    && (c.staging in d.staging ==>
          var n := d.staging[c.staging];
          OwnedDir(n, env.uid) && SameNode(n, i.dev, i.ino) && n.meta.mode in {i.mode, Writable(i.mode)})
  }

  predicate TombstoneOk(env: Env, c: Clone, d: Disk) {
    LoadTombstone(c, d).Some? && TombstoneStateOk(env, c, d, LoadTombstone(c, d).value)
  }

  function Checked(env: Env, c: Clone, d: Disk, budget: nat): Run {
    Run(d, budget, if TombstoneOk(env, c, d) then Going else Refused)
  }

  function EnsureTombstone(env: Env, c: Clone, d: Disk, budget: nat): Run {
    if c.tombFile in d.intents && d.intents[c.tombFile].Garbled? then Run(d, budget, Refused)
    else
      var o := OpenStaging(env, d, true, budget);
      if !o.progress.Going? then o
      else if c.tombFile in d.intents then Checked(env, c, o.disk, o.budget)
      else if c.source in d.root || c.staging !in d.staging then Run(o.disk, o.budget, Refused)
      else
        var n := d.staging[c.staging];
        if !SameDevice(n, env.uid, n.meta.dev) then Run(o.disk, o.budget, Refused)
        else if o.budget == 0 then Run(o.disk, 0, Stopped)
        else
          var i := Intent(Retirement, c.binding, n.meta.dev, n.meta.ino, n.meta.mode);
          Checked(env, c, o.disk.(intents := d.intents[c.tombFile := Canonical(i)]), o.budget - 1)
  }

  function RequireTombstone(env: Env, c: Clone, d: Disk, budget: nat): Run {
    var o := OpenStaging(env, d, false, budget);
    if o.progress.Going? then Checked(env, c, d, budget) else o
  }

  function RemoveClone(env: Env, c: Clone, d: Disk, budget: nat): Run {
    var o := RequireTombstone(env, c, d, budget);
    if !o.progress.Going? || c.staging !in d.staging then o
    else if !Readable(d.staging[c.staging].meta.mode) then Run(d, budget, Refused)
    else
      var r := RemoveContents(d.staging[c.staging], env.uid, LoadTombstone(c, d).value.dev, budget);
      var emptied := d.(staging := d.staging[c.staging := r.node]);
      if !r.progress.Going? then Run(emptied, r.budget, r.progress)
      else if r.budget == 0 then Run(emptied, 0, Stopped)
      else Run(d.(staging := d.staging - {c.staging}), r.budget - 1, Going)
  }

  function ClearTombstone(env: Env, c: Clone, d: Disk, budget: nat): Run {
    var o := RequireTombstone(env, c, d, budget);
    if !o.progress.Going? then o
    else if c.staging in d.staging then Run(d, budget, Refused)
    else if budget == 0 then Run(d, 0, Stopped)
    else Run(d.(intents := d.intents - {c.tombFile}), budget - 1, Going)
  }

  function ClearStageIntent(c: Clone, d: Disk, budget: nat): Run {
    if c.stageFile !in d.intents then Run(d, budget, Going)
    else
      match d.intents[c.stageFile]
      case Garbled => Run(d, budget, Refused)
      case Canonical(i) =>
        if !i.kind.Stage? || i.binding != c.binding then Run(d, budget, Refused)
        else if budget == 0 then Run(d, 0, Stopped)
        else Run(d.(intents := d.intents - {c.stageFile}), budget - 1, Going)
  }

  // ---- The driver ---------------------------------------------------------

  predicate RootIdentity(env: Env, c: Clone, n: Node) { OwnedDir(n, env.uid) && SameNode(n, c.dev, c.ino) }

  predicate WorktreeOk(env: Env, n: Node) { SnapshotOk(n, env.uid, {READ_ONLY_ROOT}, true) && env.gitOk(n) }

  predicate RetiringTreeOk(env: Env, n: Node) { SnapshotOk(n, env.uid, {READ_ONLY_ROOT, PRIVATE_ROOT}, false) }

  predicate Preflight(env: Env, c: Clone, d: Disk) {
    var source, staged := c.source in d.root, c.staging in d.staging;
    && !(source && staged)
    && (source ==> RootIdentity(env, c, d.root[c.source]))
    && (staged ==> RootIdentity(env, c, d.staging[c.staging]))
    && if c.tombFile in d.intents then !source && (staged ==> RetiringTreeOk(env, d.staging[c.staging]))
       else if source || staged then
         var n := if source then d.root[c.source] else d.staging[c.staging];
         && (staged ==> c.stageFile in d.intents)
         && (if c.stageFile in d.intents then RetiringTreeOk(env, n) else WorktreeOk(env, n))
       else c.stageFile !in d.intents
  }

  /** What the preflight saw, used when the clone's turn comes. */
  datatype Survey = Survey(active: bool, tombstone: bool)

  function SurveyOf(c: Clone, d: Disk): Survey {
    Survey(c.source in d.root || c.staging in d.staging || c.stageFile in d.intents || c.tombFile in d.intents,
           c.tombFile in d.intents)
  }

  function StageAndBury(env: Env, c: Clone, d: Disk, budget: nat): Run {
    var s := StageClone(env, c, d, budget);
    if !s.progress.Going? then s
    else if c.staging !in s.disk.staging || !RootIdentity(env, c, s.disk.staging[c.staging])
            || !WorktreeOk(env, s.disk.staging[c.staging])
    then Run(s.disk, s.budget, Refused)
    else
      var t := EnsureTombstone(env, c, s.disk, s.budget);
      if !t.progress.Going? then t
      else if c.staging !in t.disk.staging || !RetiringTreeOk(env, t.disk.staging[c.staging])
              || !RootIdentity(env, c, t.disk.staging[c.staging])
      then Run(t.disk, t.budget, Refused)
      else t
  }

  function Bury(env: Env, c: Clone, d: Disk, budget: nat): Run {
    var r := RemoveClone(env, c, d, budget);
    if !r.progress.Going? then r
    else
      var s := ClearStageIntent(c, r.disk, r.budget);
      if !s.progress.Going? then s
      else
        var t := ClearTombstone(env, c, s.disk, s.budget);
        if t.progress.Going? && (c.source in t.disk.root || c.staging in t.disk.staging)
        then Run(t.disk, t.budget, Refused) else t
  }

  function Retire(env: Env, c: Clone, seen: Survey, d: Disk, budget: nat): Run {
    if !seen.active then Run(d, budget, Going)
    else
      var r := if seen.tombstone then RequireTombstone(env, c, d, budget) else StageAndBury(env, c, d, budget);
      if r.progress.Going? then Bury(env, c, r.disk, r.budget) else r
  }

  function RetireAll(env: Env, clones: seq<Clone>, seen: seq<Survey>, d: Disk, budget: nat): Run
    requires |seen| == |clones|
    decreases clones
  {
    if clones == [] then Run(d, budget, Going)
    else
      var r := Retire(env, clones[0], seen[0], d, budget);
      if r.progress.Going? then RetireAll(env, clones[1..], seen[1..], r.disk, r.budget) else r
  }

  function Surveys(clones: seq<Clone>, d: Disk): (s: seq<Survey>)
    ensures |s| == |clones|
  {
    seq(|clones|, i requires 0 <= i < |clones| => SurveyOf(clones[i], d))
  }

  /** Every clone passes its preflight before any is touched. */
  function Cleanup(env: Env, clones: seq<Clone>, d: Disk, budget: nat): Run {
    if exists i :: 0 <= i < |clones| && !Preflight(env, clones[i], d) then Run(d, budget, Refused)
    else RetireAll(env, clones, Surveys(clones, d), d, budget)
  }

  // ---- Nothing else is touched: every disk, every stop --------------------

  ghost predicate SameOutside<V>(a: map<string, V>, b: map<string, V>, names: set<string>) {
    forall k :: k !in names ==> (k in a <==> k in b) && (k in a ==> a[k] == b[k])
  }

  /** From `a` to `b` nothing changed but this clone's own names, and a staging root that was
      there stayed as it was. */
  ghost predicate OnlyTouches(env: Env, c: Clone, a: Disk, b: Disk) {
    && SameOutside(a.root, b.root, {c.source})
    && SameOutside(a.staging, b.staging, {c.staging})
    && SameOutside(a.intents, b.intents, {c.stageFile, c.tombFile})
    && (a.stagingRoot.Some? ==> b.stagingRoot == a.stagingRoot)
    && (a.stagingRoot.None? && b.stagingRoot.Some? ==> StagingRootOk(env, b.stagingRoot.value))
  }

  lemma OnlyTouchesTransitive(env: Env, c: Clone, x: Disk, y: Disk, z: Disk)
    requires OnlyTouches(env, c, x, y) && OnlyTouches(env, c, y, z)
    ensures OnlyTouches(env, c, x, z)
  {
  }

  lemma StageTouches(env: Env, c: Clone, d: Disk, budget: nat)
    ensures OnlyTouches(env, c, d, StageClone(env, c, d, budget).disk)
  {
    hide SameDevice, Writable, ReadOnly, CloneOk, StagingRootOk;
    var o := OpenStaging(env, d, true, budget);
    OpenTouches(env, c, d, true, budget);
    if o.progress.Going? {
      StageOpenedTouches(env, c, o.disk, o.budget);
      OnlyTouchesTransitive(env, c, d, o.disk, StageOpened(env, c, o.disk, o.budget).disk);
    }
  }

  lemma OpenTouches(env: Env, c: Clone, d: Disk, create: bool, budget: nat)
    ensures OnlyTouches(env, c, d, OpenStaging(env, d, create, budget).disk)
    ensures OnlyTouches(env, c, d, d)
  {
  }

  lemma MoveTouches(env: Env, c: Clone, d: Disk, i: Intent, budget: nat)
    requires c.source in d.root && c.staging !in d.staging
    ensures OnlyTouches(env, c, d, MoveToStaging(c, d, i, budget).disk)
  {
  }

  lemma StageWithTouches(env: Env, c: Clone, d: Disk, i: Intent, budget: nat)
    ensures OnlyTouches(env, c, d, StageWith(env, c, d, i, budget).disk)
  {
    hide CloneOk, Writable, StageIntentOk, StagingRootOk, MoveToStaging;
    if c.source in d.root && c.staging !in d.staging {
      var widened := d.(root := d.root[c.source := Chmod(d.root[c.source], Writable(i.mode))]);
      MoveTouches(env, c, d, i, budget);
      if budget > 0 {
        MoveTouches(env, c, widened, i, budget - 1);
        assert OnlyTouches(env, c, d, widened);
        OnlyTouchesTransitive(env, c, d, widened, MoveToStaging(c, widened, i, budget - 1).disk);
      }
    }
  }

  lemma StageOpenedTouches(env: Env, c: Clone, d: Disk, budget: nat)
    ensures OnlyTouches(env, c, d, StageOpened(env, c, d, budget).disk)
  {
    hide OwnedDir, ReadOnly, StageWith, StagingRootOk;
    if c.stageFile in d.intents {
      if d.intents[c.stageFile].Canonical? {
        StageWithTouches(env, c, d, d.intents[c.stageFile].record, budget);
      }
    } else if c.source in d.root && budget > 0 {
      var n := d.root[c.source];
      var i := Intent(Stage, c.binding, n.meta.dev, n.meta.ino, n.meta.mode);
      var noted := d.(intents := d.intents[c.stageFile := Canonical(i)]);
      StageWithTouches(env, c, noted, i, budget - 1);
      assert OnlyTouches(env, c, d, noted);
      OnlyTouchesTransitive(env, c, d, noted, StageWith(env, c, noted, i, budget - 1).disk);
    }
  }

  lemma EnsureTouches(env: Env, c: Clone, d: Disk, budget: nat)
    ensures OnlyTouches(env, c, d, EnsureTombstone(env, c, d, budget).disk)
  {
    hide SameDevice, Writable, TombstoneOk;
  }

  lemma RemoveTouches(env: Env, c: Clone, d: Disk, budget: nat)
    ensures OnlyTouches(env, c, d, RemoveClone(env, c, d, budget).disk)
  {
    hide RemoveContents, TombstoneOk, StagingRootOk, Readable;
  }

  lemma ClearStageTouches(env: Env, c: Clone, d: Disk, budget: nat)
    ensures OnlyTouches(env, c, d, ClearStageIntent(c, d, budget).disk)
  {
  }

  lemma ClearTombstoneTouches(env: Env, c: Clone, d: Disk, budget: nat)
    ensures OnlyTouches(env, c, d, ClearTombstone(env, c, d, budget).disk)
  {
    hide TombstoneOk, StagingRootOk;
  }

  lemma BuryTouches(env: Env, c: Clone, d: Disk, budget: nat)
    ensures OnlyTouches(env, c, d, Bury(env, c, d, budget).disk)
  {
    hide RemoveClone, ClearStageIntent, ClearTombstone, OnlyTouches;
    var r := RemoveClone(env, c, d, budget);
    var s := ClearStageIntent(c, r.disk, r.budget);
    RemoveTouches(env, c, d, budget);
    ClearStageTouches(env, c, r.disk, r.budget);
    ClearTombstoneTouches(env, c, s.disk, s.budget);
    OnlyTouchesTransitive(env, c, d, r.disk, s.disk);
    OnlyTouchesTransitive(env, c, d, s.disk, ClearTombstone(env, c, s.disk, s.budget).disk);
  }

  lemma RetireTouches(env: Env, c: Clone, seen: Survey, d: Disk, budget: nat)
    ensures OnlyTouches(env, c, d, Retire(env, c, seen, d, budget).disk)
  {
    hide StageClone, EnsureTombstone, Bury, OnlyTouches, TombstoneOk, WorktreeOk, RetiringTreeOk, RootIdentity;
    OpenTouches(env, c, d, false, budget);
    var s := StageClone(env, c, d, budget);
    StageTouches(env, c, d, budget);
    EnsureTouches(env, c, s.disk, s.budget);
    OnlyTouchesTransitive(env, c, d, s.disk, EnsureTombstone(env, c, s.disk, s.budget).disk);
    var r := if seen.tombstone then RequireTombstone(env, c, d, budget) else StageAndBury(env, c, d, budget);
    BuryTouches(env, c, r.disk, r.budget);
    OnlyTouchesTransitive(env, c, d, r.disk, Bury(env, c, r.disk, r.budget).disk);
  }

  /** On any store, a removal pass changes something only when a tombstone records the very
      inode that lies in staging; it leaves that clone pruned or gone, and every protected
      node inside it where it was. */
  lemma RemovalIsBound(env: Env, c: Clone, d: Disk, budget: nat, x: Node)
    requires RemoveClone(env, c, d, budget).disk != d
    ensures var after := RemoveClone(env, c, d, budget).disk.staging;
      && c.tombFile in d.intents && d.intents[c.tombFile].Canonical? && c.staging in d.staging
      && var i, n := d.intents[c.tombFile].record, d.staging[c.staging];
         && n.Dir? && SameNode(n, i.dev, i.ino) && i.binding == c.binding && c.source !in d.root
         && (c.staging in after ==> after[c.staging].Dir? && Pruned(after[c.staging], n))
         && (Protected(x, env.uid, i.dev) && Holds(n.entries, x) ==>
               c.staging in after && Holds(after[c.staging].entries, x))
  {
    hide RemoveContents, StagingRootOk, Readable, Pruned, Protected, Writable;
    var i, n := LoadTombstone(c, d).value, d.staging[c.staging];
    DirRemovalPrunes(n, env.uid, i.dev, budget);
    if Protected(x, env.uid, i.dev) && Holds(n.entries, x) {
      ProtectedSurvivesIn(n, env.uid, i.dev, budget, x);
    }
  }

  // ---- The phases a crash can leave ---------------------------------------

  datatype Phase = Fresh | Intended | Opened | Moved | Staged | Retiring | Emptied | Cleared | Gone

  function Rank(p: Phase): nat {
    match p
    case Fresh => 0
    case Intended => 1
    case Opened => 2
    case Moved => 3
    case Staged => 4
    case Retiring => 5
    case Emptied => 6
    case Cleared => 7
    case Gone => 8
  }

  /** A snapshot as the controller made it: a valid read-only worktree with the recorded
      identity, every directory of which can be listed. */
  ghost predicate Origin(env: Env, c: Clone, o: Node) {
    && WorktreeOk(env, o) && SameDevice(o, env.uid, o.meta.dev) && SafeNames(o.entries)
    && SameNode(o, c.dev, c.ino) && c.binding.kind.Reader? && c.stageFile != c.tombFile
  }

  function StageRecord(c: Clone): Stored { Canonical(Intent(Stage, c.binding, c.dev, c.ino, READ_ONLY_ROOT)) }

  function TombRecord(c: Clone): Stored { Canonical(Intent(Retirement, c.binding, c.dev, c.ino, READ_ONLY_ROOT)) }

  ghost predicate SourceAt(c: Clone, o: Node, d: Disk, p: Phase) {
    if Rank(p) <= 2
    then c.source in d.root && d.root[c.source] == if p.Opened? then Chmod(o, PRIVATE_ROOT) else o
    else c.source !in d.root
  }

  ghost predicate StagedAt(c: Clone, o: Node, d: Disk, p: Phase) {
    if 3 <= Rank(p) <= 5 then
      && c.staging in d.staging
      && if p.Moved? then d.staging[c.staging] == Chmod(o, PRIVATE_ROOT)
         else if p.Staged? then d.staging[c.staging] == o
         else d.staging[c.staging].Dir? && Pruned(d.staging[c.staging], o)
    else c.staging !in d.staging
  }

  ghost predicate IntentsAt(c: Clone, d: Disk, p: Phase) {
    && (if 1 <= Rank(p) <= 6 then c.stageFile in d.intents && d.intents[c.stageFile] == StageRecord(c)
        else c.stageFile !in d.intents)
    && (if 5 <= Rank(p) <= 7 then c.tombFile in d.intents && d.intents[c.tombFile] == TombRecord(c)
        else c.tombFile !in d.intents)
  }

  ghost predicate At(env: Env, c: Clone, o: Node, d: Disk, p: Phase) {
    && SourceAt(c, o, d, p) && StagedAt(c, o, d, p) && IntentsAt(c, d, p)
    && (d.stagingRoot.Some? ==> StagingRootOk(env, d.stagingRoot.value))
    && (1 <= Rank(p) <= 7 ==> d.stagingRoot.Some?)
  }

  lemma ModeFacts()
    ensures Writable(READ_ONLY_ROOT) == PRIVATE_ROOT && Writable(PRIVATE_ROOT) == PRIVATE_ROOT
    ensures ReadOnly(READ_ONLY_ROOT) && READ_ONLY_ROOT <= PERMISSIONS && READ_ONLY_ROOT != PRIVATE_ROOT
    ensures Readable(READ_ONLY_ROOT) && Readable(PRIVATE_ROOT)
    ensures Searchable(READ_ONLY_ROOT) && Searchable(PRIVATE_ROOT)
  {
  }

  lemma OriginFacts(env: Env, c: Clone, o: Node)
    requires Origin(env, c, o)
    ensures o.Dir? && o.meta.mode == READ_ONLY_ROOT && o.meta.uid == env.uid
    ensures EntriesOk(o.entries, env.uid, o.meta.dev, false) && RemovableEntries(o.entries, env.uid, o.meta.dev)
    ensures SameDeviceEntries(o.entries, env.uid, o.meta.dev)
    ensures SameDevice(Chmod(o, PRIVATE_ROOT), env.uid, o.meta.dev)
  {
    ModeFacts();
    hide Writable, ReadOnly, Readable, Searchable;
    WeakerTreeCheck(o.entries, env.uid, o.meta.dev);
    SnapshotIsRemovable(o.entries, env.uid, o.meta.dev);
  }

  /** What is left while retiring passes both the preflight and the tombstone's own check. */
  lemma RetiringFacts(env: Env, c: Clone, o: Node, n: Node)
    requires Origin(env, c, o) && n.Dir? && Pruned(n, o)
    ensures RetiringTreeOk(env, n) && RootIdentity(env, c, n) && n.meta.mode in {READ_ONLY_ROOT, PRIVATE_ROOT}
    ensures Removable(n, env.uid, c.dev) && Count(n.entries) <= Count(o.entries)
  {
    OriginFacts(env, c, o);
    ModeFacts();
    hide Writable, ReadOnly, Readable, Searchable;
    PrunedStaysValid(n.entries, o.entries, env.uid, o.meta.dev);
    PrunedStaysRemovable(n.entries, o.entries, env.uid, o.meta.dev);
    PrunedKeepsEntries(n.entries, o.entries);
  }

  lemma PrunedKeepsEntries(a: Entries, b: Entries)
    requires PrunedEntries(a, b)
    ensures a.Entry? ==> b.Entry?
  {
  }

  lemma WholeIsPruned(o: Node)
    requires o.Dir?
    ensures Pruned(o, o) && (o.meta.mode == READ_ONLY_ROOT ==> Pruned(Chmod(o, PRIVATE_ROOT), o))
  {
    PrunedReflexive(o.entries);
    ModeFacts();
    hide Writable;
  }

  /** Every crash state is one the preflight accepts. */
  lemma PreflightAcceptsEveryPhase(env: Env, c: Clone, o: Node, d: Disk, p: Phase)
    requires Origin(env, c, o) && At(env, c, o, d, p)
    ensures Preflight(env, c, d)
  {
    OriginFacts(env, c, o);
    WholeIsPruned(o);
    RetiringFacts(env, c, o, o);
    RetiringFacts(env, c, o, Chmod(o, PRIVATE_ROOT));
    if p.Retiring? {
      RetiringFacts(env, c, o, d.staging[c.staging]);
    }
    hide RetiringTreeOk, SameDevice, SafeNames, Pruned, SnapshotOk, StagingRootOk, Removable;
  }

  /** `r` ended in phase `q`, did not refuse, reached `goal` if it went through, and went
      through if it had `cost` steps. */
  ghost predicate Advanced(env: Env, c: Clone, o: Node, r: Run, q: Phase, goal: Phase, budget: nat, cost: nat) {
    && At(env, c, o, r.disk, q) && !r.progress.Refused?
    && (r.progress.Going? ==> q == goal)
    && (budget >= cost ==> r.progress.Going? && r.budget >= budget - cost)
  }

  function StageIntent(c: Clone): Intent { StageRecord(c).record }

  lemma RestoreAdvances(env: Env, c: Clone, o: Node, d: Disk, budget: nat) returns (q: Phase)
    requires Origin(env, c, o) && At(env, c, o, d, Moved)
    ensures Advanced(env, c, o, RestoreMode(c, d, StageIntent(c), budget), q, Staged, budget, 1)
  {
    OriginFacts(env, c, o);
    hide SameDevice, SafeNames, WorktreeOk, StagingRootOk, RemovableEntries, EntriesOk, SameDeviceEntries;
    assert Chmod(Chmod(o, PRIVATE_ROOT), READ_ONLY_ROOT) == o;
    q := if budget == 0 then Moved else Staged;
  }

  lemma MoveAdvances(env: Env, c: Clone, o: Node, d: Disk, budget: nat) returns (q: Phase)
    requires Origin(env, c, o) && At(env, c, o, d, Opened)
    ensures Advanced(env, c, o, MoveToStaging(c, d, StageIntent(c), budget), q, Staged, budget, 2)
  {
    if budget == 0 {
      q := Opened;
    } else {
      var moved := d.(root := d.root - {c.source}, staging := d.staging[c.staging := d.root[c.source]]);
      assert At(env, c, o, moved, Moved);
      q := RestoreAdvances(env, c, o, moved, budget - 1);
    }
  }

  lemma SourceAdvances(env: Env, c: Clone, o: Node, d: Disk, p: Phase, budget: nat) returns (q: Phase)
    requires Origin(env, c, o) && At(env, c, o, d, p) && (p.Intended? || p.Opened?)
    ensures Advanced(env, c, o, StageSource(env, c, d, StageIntent(c), budget), q, Staged, budget, 3)
  {
    OriginFacts(env, c, o);
    ModeFacts();
    hide SameDevice, SafeNames, WorktreeOk, StagingRootOk, RemovableEntries, EntriesOk, SameDeviceEntries, Writable,
      MoveToStaging;
    assert CloneOk(env, d.root[c.source], c.binding.kind, StageIntent(c));
    if p.Opened? {
      q := MoveAdvances(env, c, o, d, budget);
    } else if budget == 0 {
      q := Intended;
    } else {
      var widened := d.(root := d.root[c.source := Chmod(d.root[c.source], PRIVATE_ROOT)]);
      assert At(env, c, o, widened, Opened);
      q := MoveAdvances(env, c, o, widened, budget - 1);
    }
  }

  lemma StagedAdvances(env: Env, c: Clone, o: Node, d: Disk, p: Phase, budget: nat) returns (q: Phase)
    requires Origin(env, c, o) && At(env, c, o, d, p) && (p.Moved? || p.Staged?)
    ensures Advanced(env, c, o, StageStaged(env, c, d, StageIntent(c), budget), q, Staged, budget, 1)
  {
    OriginFacts(env, c, o);
    ModeFacts();
    hide SameDevice, SafeNames, WorktreeOk, StagingRootOk, RemovableEntries, EntriesOk, SameDeviceEntries, Writable,
      RestoreMode;
    assert CloneOk(env, d.staging[c.staging], c.binding.kind, StageIntent(c));
    if p.Moved? {
      q := RestoreAdvances(env, c, o, d, budget);
    } else {
      q := Staged;
    }
  }

  lemma StageWithAdvances(env: Env, c: Clone, o: Node, d: Disk, p: Phase, budget: nat) returns (q: Phase)
    requires Origin(env, c, o) && At(env, c, o, d, p) && 1 <= Rank(p) <= 4
    ensures Advanced(env, c, o, StageWith(env, c, d, StageIntent(c), budget), q, Staged, budget, 3)
  {
    ModeFacts();
    hide Origin, StageSource, StageStaged, ReadOnly, StagingRootOk;
    if Rank(p) <= 2 {
      q := SourceAdvances(env, c, o, d, p, budget);
    } else {
      q := StagedAdvances(env, c, o, d, p, budget);
    }
  }

  lemma StageOpenedAdvances(env: Env, c: Clone, o: Node, d: Disk, p: Phase, budget: nat) returns (q: Phase)
    requires Origin(env, c, o) && At(env, c, o, d, p) && Rank(p) <= 4 && d.stagingRoot.Some?
    ensures Advanced(env, c, o, StageOpened(env, c, d, budget), q, Staged, budget, 4)
  {
    OriginFacts(env, c, o);
    ModeFacts();
    hide SameDevice, SafeNames, WorktreeOk, StagingRootOk, RemovableEntries, EntriesOk, SameDeviceEntries, ReadOnly,
      StageWith;
    if !p.Fresh? {
      q := StageWithAdvances(env, c, o, d, p, budget);
    } else if budget == 0 {
      q := Fresh;
    } else {
      var noted := d.(intents := d.intents[c.stageFile := StageRecord(c)]);
      assert At(env, c, o, noted, Intended);
      q := StageWithAdvances(env, c, o, noted, Intended, budget - 1);
    }
  }

  lemma OpenAdvances(env: Env, c: Clone, o: Node, d: Disk, p: Phase, budget: nat)
    requires At(env, c, o, d, p)
    ensures var r := OpenStaging(env, d, true, budget);
      && At(env, c, o, r.disk, p) && !r.progress.Refused? && (r.progress.Going? ==> r.disk.stagingRoot.Some?)
      && r.disk.intents == d.intents && r.disk.staging == d.staging && r.disk.root == d.root
      && (budget >= 1 ==> r.progress.Going? && r.budget >= budget - 1)
      && (d.stagingRoot.Some? ==> r == Run(d, budget, Going))
  {
  }

  lemma StageAdvances(env: Env, c: Clone, o: Node, d: Disk, p: Phase, budget: nat) returns (q: Phase)
    requires Origin(env, c, o) && At(env, c, o, d, p) && Rank(p) <= 4
    ensures Advanced(env, c, o, StageClone(env, c, d, budget), q, Staged, budget, 5)
  {
    hide Origin, StagingRootOk, StageOpened, OpenStaging;
    OpenAdvances(env, c, o, d, p, budget);
    var r := OpenStaging(env, d, true, budget);
    if r.progress.Going? {
      q := StageOpenedAdvances(env, c, o, r.disk, p, r.budget);
    } else {
      q := p;
    }
  }

  lemma TombstoneIsSound(env: Env, c: Clone, o: Node, d: Disk, p: Phase)
    requires Origin(env, c, o) && At(env, c, o, d, p) && 5 <= Rank(p) <= 7
    ensures TombstoneOk(env, c, d) && LoadTombstone(c, d) == Some(TombRecord(c).record)
  {
    if p.Retiring? {
      RetiringFacts(env, c, o, d.staging[c.staging]);
    }
    ModeFacts();
    hide SameDevice, SafeNames, WorktreeOk, StagingRootOk, Writable, Pruned, RetiringTreeOk, Removable;
  }

  lemma EnsureAdvances(env: Env, c: Clone, o: Node, d: Disk, budget: nat) returns (q: Phase)
    requires Origin(env, c, o) && At(env, c, o, d, Staged)
    ensures Advanced(env, c, o, EnsureTombstone(env, c, d, budget), q, Retiring, budget, 1)
  {
    OriginFacts(env, c, o);
    OpenAdvances(env, c, o, d, Staged, budget);
    if budget == 0 {
      q := Staged;
    } else {
      WholeIsPruned(o);
      var buried := d.(intents := d.intents[c.tombFile := TombRecord(c)]);
      assert At(env, c, o, buried, Retiring);
      TombstoneIsSound(env, c, o, buried, Retiring);
      q := Retiring;
    }
    hide SameDevice, SafeNames, WorktreeOk, StagingRootOk, RemovableEntries, EntriesOk, SameDeviceEntries, TombstoneOk,
      OpenStaging, Pruned, PrunedEntries;
  }

  lemma StageAndBuryAdvances(env: Env, c: Clone, o: Node, d: Disk, p: Phase, budget: nat) returns (q: Phase)
    requires Origin(env, c, o) && At(env, c, o, d, p) && Rank(p) <= 4
    ensures Advanced(env, c, o, StageAndBury(env, c, d, budget), q, Retiring, budget, 6)
  {
    OriginFacts(env, c, o);
    hide StageClone, EnsureTombstone, SameDevice, SafeNames, WorktreeOk, StagingRootOk, RemovableEntries, EntriesOk,
      SameDeviceEntries, RetiringTreeOk, Pruned;
    q := StageAdvances(env, c, o, d, p, budget);
    var s := StageClone(env, c, d, budget);
    if s.progress.Going? {
      q := EnsureAdvances(env, c, o, s.disk, s.budget);
      var t := EnsureTombstone(env, c, s.disk, s.budget);
      if t.progress.Going? {
        RetiringFacts(env, c, o, t.disk.staging[c.staging]);
      }
    }
  }

  lemma RequireHolds(env: Env, c: Clone, o: Node, d: Disk, p: Phase, budget: nat)
    requires Origin(env, c, o) && At(env, c, o, d, p) && 5 <= Rank(p) <= 7
    ensures RequireTombstone(env, c, d, budget) == Run(d, budget, Going)
  {
    TombstoneIsSound(env, c, o, d, p);
    hide Origin, TombstoneOk;
  }

  lemma RemoveAdvances(env: Env, c: Clone, o: Node, d: Disk, p: Phase, budget: nat) returns (q: Phase)
    requires Origin(env, c, o) && At(env, c, o, d, p) && 5 <= Rank(p) <= 7
    ensures Advanced(env, c, o, RemoveClone(env, c, d, budget), q, if p.Cleared? then Cleared else Emptied, budget,
                     Cost(o.entries) + 2)
  {
    RequireHolds(env, c, o, d, p, budget);
    TombstoneIsSound(env, c, o, d, p);
    ModeFacts();
    q := p;
    if p.Retiring? {
      var n := d.staging[c.staging];
      RetiringFacts(env, c, o, n);
      DirRemovalPrunes(n, env.uid, c.dev, budget);
      DirRemovalDecides(n, env.uid, c.dev, budget);
      var r := RemoveContents(n, env.uid, c.dev, budget);
      PrunedTransitive(r.node, n, o);
      if r.progress.Going? && r.budget > 0 {
        q := Emptied;
      }
    }
    hide Origin, TombstoneOk, StagingRootOk, RemoveContents, Pruned, Removable, RetiringTreeOk, Readable, Writable,
      RequireTombstone, Count, RootIdentity;
  }

  lemma ClearStageAdvances(env: Env, c: Clone, o: Node, d: Disk, p: Phase, budget: nat) returns (q: Phase)
    requires Origin(env, c, o) && At(env, c, o, d, p) && (p.Emptied? || p.Cleared?)
    ensures Advanced(env, c, o, ClearStageIntent(c, d, budget), q, Cleared, budget, 1)
  {
    hide SameDevice, SafeNames, WorktreeOk, StagingRootOk;
    q := if p.Emptied? && budget == 0 then Emptied else Cleared;
  }

  lemma ClearTombstoneAdvances(env: Env, c: Clone, o: Node, d: Disk, budget: nat) returns (q: Phase)
    requires Origin(env, c, o) && At(env, c, o, d, Cleared)
    ensures Advanced(env, c, o, ClearTombstone(env, c, d, budget), q, Gone, budget, 1)
  {
    RequireHolds(env, c, o, d, Cleared, budget);
    hide SameDevice, SafeNames, WorktreeOk, StagingRootOk, RequireTombstone;
    q := if budget == 0 then Cleared else Gone;
  }

  lemma BuryAdvances(env: Env, c: Clone, o: Node, d: Disk, p: Phase, budget: nat) returns (q: Phase)
    requires Origin(env, c, o) && At(env, c, o, d, p) && 5 <= Rank(p) <= 7
    ensures Advanced(env, c, o, Bury(env, c, d, budget), q, Gone, budget, Cost(o.entries) + 4)
  {
    hide Origin, RemoveClone, ClearStageIntent, ClearTombstone, StagingRootOk, Count;
    q := RemoveAdvances(env, c, o, d, p, budget);
    var r := RemoveClone(env, c, d, budget);
    if r.progress.Going? {
      q := ClearStageAdvances(env, c, o, r.disk, q, r.budget);
      var s := ClearStageIntent(c, r.disk, r.budget);
      if s.progress.Going? {
        q := ClearTombstoneAdvances(env, c, o, s.disk, s.budget);
      }
    }
  }

  function RetireCost(o: Node): nat
    requires o.Dir?
  {
    Cost(o.entries) + 10
  }

  /** From every crash state one clone's retirement never refuses, leaves another crash state,
      and with enough steps ends with source, staged clone and both intents absent. */
  lemma RetireAdvances(env: Env, c: Clone, o: Node, d: Disk, p: Phase, budget: nat) returns (q: Phase)
    requires Origin(env, c, o) && At(env, c, o, d, p) && o.Dir?
    ensures Advanced(env, c, o, Retire(env, c, SurveyOf(c, d), d, budget), q, Gone, budget, RetireCost(o))
  {
    hide Origin, StageAndBury, Bury, RequireTombstone, StagingRootOk, Count;
    if p.Gone? {
      q := Gone;
    } else if Rank(p) <= 4 {
      q := StageAndBuryAdvances(env, c, o, d, p, budget);
      var r := StageAndBury(env, c, d, budget);
      if r.progress.Going? {
        q := BuryAdvances(env, c, o, r.disk, q, r.budget);
      }
    } else {
      RequireHolds(env, c, o, d, p, budget);
      q := BuryAdvances(env, c, o, d, p, budget);
    }
  }

  /** Validating a worktree does not open its unreadable directories; staging does. With steps
      to spare a valid snapshot is retired exactly when every directory in it can be listed. */
  lemma ListingDecides(env: Env, c: Clone, o: Node, d: Disk, budget: nat)
    requires WorktreeOk(env, o) && SafeNames(o.entries) && SameNode(o, c.dev, c.ino)
    requires c.binding.kind.Reader? && c.stageFile != c.tombFile
    requires At(env, c, o, d, Fresh) && budget >= RetireCost(o)
    ensures Preflight(env, c, d)
    ensures Retire(env, c, SurveyOf(c, d), d, budget).progress.Going? <==> SameDevice(o, env.uid, o.meta.dev)
  {
    if SameDevice(o, env.uid, o.meta.dev) {
      var q := RetireAdvances(env, c, o, d, Fresh, budget);
    } else {
      hide SameDevice, SafeNames, EntriesOk, StagingRootOk, EnsureTombstone, Bury;
      UnlistableIsNotStaged(env, c, d, budget);
    }
  }

  lemma UnlistableIsNotStaged(env: Env, c: Clone, d: Disk, budget: nat)
    requires c.source in d.root && c.stageFile !in d.intents
    requires !SameDevice(d.root[c.source], env.uid, d.root[c.source].meta.dev)
    ensures !StageClone(env, c, d, budget).progress.Going?
  {
    hide SameDevice, StagingRootOk, Writable;
  }

  // ---- The whole cleanup, restarted any number of times -------------------

  predicate Apart(c: Clone, e: Clone) {
    c.source != e.source && c.staging != e.staging && {c.stageFile, c.tombFile} !! {e.stageFile, e.tombFile}
  }

  predicate PairwiseApart(clones: seq<Clone>) {
    forall i, j :: 0 <= i < |clones| && 0 <= j < |clones| && i != j ==> Apart(clones[i], clones[j])
  }

  /** A cleanup of any store changes nothing outside the names of the clones it retires. */
  lemma {:induction false} CleanupTouchesOnlyItsClones(
      env: Env, clones: seq<Clone>, seen: seq<Survey>, d: Disk, budget: nat, name: string)
    requires |seen| == |clones|
    ensures var r := RetireAll(env, clones, seen, d, budget).disk;
      && ((forall i :: 0 <= i < |clones| ==> clones[i].source != name) ==>
            (name in d.root <==> name in r.root) && (name in d.root ==> d.root[name] == r.root[name]))
      && ((forall i :: 0 <= i < |clones| ==> clones[i].staging != name) ==>
            (name in d.staging <==> name in r.staging) && (name in d.staging ==> d.staging[name] == r.staging[name]))
      && ((forall i :: 0 <= i < |clones| ==> clones[i].stageFile != name && clones[i].tombFile != name) ==>
            (name in d.intents <==> name in r.intents) && (name in d.intents ==> d.intents[name] == r.intents[name]))
    decreases clones
  {
    hide Retire, StagingRootOk;
    if clones != [] {
      var r := Retire(env, clones[0], seen[0], d, budget);
      RetireTouches(env, clones[0], seen[0], d, budget);
      if r.progress.Going? {
        CleanupTouchesOnlyItsClones(env, clones[1..], seen[1..], r.disk, r.budget, name);
      }
    }
  }

  lemma OthersStay(env: Env, c: Clone, e: Clone, o: Node, a: Disk, b: Disk, p: Phase)
    requires OnlyTouches(env, c, a, b) && Apart(c, e) && At(env, e, o, a, p)
    ensures At(env, e, o, b, p) && SurveyOf(e, b) == SurveyOf(e, a)
  {
    hide StagingRootOk, Pruned;
  }

  ghost predicate Within(env: Env, c: Clone, o: Node, d: Disk) {
    exists p :: At(env, c, o, d, p)
  }

  ghost predicate AllOrigins(env: Env, clones: seq<Clone>, origins: seq<Node>) {
    && |origins| == |clones| && PairwiseApart(clones)
    && forall i :: 0 <= i < |clones| ==> origins[i].Dir? && Origin(env, clones[i], origins[i])
  }

  ghost predicate AllWithin(env: Env, clones: seq<Clone>, origins: seq<Node>, d: Disk)
    requires |origins| == |clones|
  {
    forall i :: 0 <= i < |clones| ==> Within(env, clones[i], origins[i], d)
  }

  ghost predicate GoneUpTo(env: Env, clones: seq<Clone>, origins: seq<Node>, d: Disk, k: nat)
    requires |origins| == |clones| && k <= |clones|
  {
    forall i :: 0 <= i < k ==> At(env, clones[i], origins[i], d, Gone)
  }

  function TotalCost(origins: seq<Node>): nat
    requires forall i :: 0 <= i < |origins| ==> origins[i].Dir?
  {
    if origins == [] then 0 else RetireCost(origins[0]) + TotalCost(origins[1..])
  }

  /** One clone's turn leaves every other clone in the phase, and with the survey, it had. */
  lemma TurnAdvances(env: Env, clones: seq<Clone>, origins: seq<Node>, k: nat, d: Disk, budget: nat)
    requires AllOrigins(env, clones, origins) && k < |clones|
    requires AllWithin(env, clones, origins, d) && GoneUpTo(env, clones, origins, d, k)
    ensures var r := Retire(env, clones[k], SurveyOf(clones[k], d), d, budget);
      && AllWithin(env, clones, origins, r.disk) && !r.progress.Refused?
      && (r.progress.Going? ==> GoneUpTo(env, clones, origins, r.disk, k + 1))
      && (budget >= RetireCost(origins[k]) ==> r.progress.Going? && r.budget >= budget - RetireCost(origins[k]))
      && forall i :: 0 <= i < |clones| && i != k ==> SurveyOf(clones[i], r.disk) == SurveyOf(clones[i], d)
  {
    hide At, Origin, Retire, OnlyTouches, Apart, SurveyOf, RetireCost;
    var c, o := clones[k], origins[k];
    assert Within(env, c, o, d);
    var p :| At(env, c, o, d, p);
    var r := Retire(env, c, SurveyOf(c, d), d, budget);
    var q := RetireAdvances(env, c, o, d, p, budget);
    RetireTouches(env, c, SurveyOf(c, d), d, budget);
    forall i | 0 <= i < |clones| && i != k
      ensures Within(env, clones[i], origins[i], r.disk) && SurveyOf(clones[i], r.disk) == SurveyOf(clones[i], d)
      ensures At(env, clones[i], origins[i], d, Gone) ==> At(env, clones[i], origins[i], r.disk, Gone)
    {
      assert Within(env, clones[i], origins[i], d);
      var pi :| At(env, clones[i], origins[i], d, pi);
      assert Apart(c, clones[i]);
      OthersStay(env, c, clones[i], origins[i], d, r.disk, pi);
      if At(env, clones[i], origins[i], d, Gone) {
        OthersStay(env, c, clones[i], origins[i], d, r.disk, Gone);
      }
    }
    assert Within(env, c, o, r.disk);
  }

  lemma {:induction false} TurnsAdvance(
      env: Env, clones: seq<Clone>, origins: seq<Node>, seen: seq<Survey>, k: nat, d: Disk, budget: nat)
    requires AllOrigins(env, clones, origins) && k <= |clones| == |seen|
    requires AllWithin(env, clones, origins, d) && GoneUpTo(env, clones, origins, d, k)
    requires forall i :: k <= i < |clones| ==> seen[i] == SurveyOf(clones[i], d)
    ensures var r := RetireAll(env, clones[k..], seen[k..], d, budget);
      && AllWithin(env, clones, origins, r.disk) && !r.progress.Refused?
      && (r.progress.Going? ==> GoneUpTo(env, clones, origins, r.disk, |clones|))
      && (budget >= TotalCost(origins[k..]) ==> r.progress.Going?)
    decreases |clones| - k
  {
    hide AllWithin, GoneUpTo, Retire, Origin, PairwiseApart, SurveyOf, RetireCost;
    if k < |clones| {
      TurnAdvances(env, clones, origins, k, d, budget);
      assert clones[k..][1..] == clones[k + 1..] && seen[k..][1..] == seen[k + 1..];
      assert origins[k..][1..] == origins[k + 1..];
      var r := Retire(env, clones[k], seen[k], d, budget);
      if r.progress.Going? {
        TurnsAdvance(env, clones, origins, seen, k + 1, r.disk, r.budget);
      }
    }
  }

  /** One cleanup, stopped anywhere, started in any crash state. */
  lemma CleanupAdvances(env: Env, clones: seq<Clone>, origins: seq<Node>, d: Disk, budget: nat)
    requires AllOrigins(env, clones, origins) && AllWithin(env, clones, origins, d)
    ensures var r := Cleanup(env, clones, d, budget);
      && AllWithin(env, clones, origins, r.disk) && !r.progress.Refused?
      && (r.progress.Going? ==> GoneUpTo(env, clones, origins, r.disk, |clones|))
      && (budget >= TotalCost(origins) ==> r.progress.Going?)
  {
    hide At, Origin, Preflight, PairwiseApart, RetireAll, SurveyOf;
    forall i | 0 <= i < |clones| ensures Preflight(env, clones[i], d) {
      assert Within(env, clones[i], origins[i], d);
      var p :| At(env, clones[i], origins[i], d, p);
      PreflightAcceptsEveryPhase(env, clones[i], origins[i], d, p);
    }
    TurnsAdvance(env, clones, origins, Surveys(clones, d), 0, d, budget);
    assert clones[0..] == clones && Surveys(clones, d)[0..] == Surveys(clones, d) && origins[0..] == origins;
  }

  function Restart(env: Env, clones: seq<Clone>, d: Disk, budgets: seq<nat>): Disk
    decreases budgets
  {
    if budgets == [] then d else Restart(env, clones, Cleanup(env, clones, d, budgets[0]).disk, budgets[1..])
  }

  lemma {:induction false} RestartsStayWithin(
      env: Env, clones: seq<Clone>, origins: seq<Node>, d: Disk, budgets: seq<nat>)
    requires AllOrigins(env, clones, origins) && AllWithin(env, clones, origins, d)
    ensures AllWithin(env, clones, origins, Restart(env, clones, d, budgets))
    decreases budgets
  {
    hide AllWithin, AllOrigins, Cleanup;
    if budgets != [] {
      CleanupAdvances(env, clones, origins, d, budgets[0]);
      RestartsStayWithin(env, clones, origins, Cleanup(env, clones, d, budgets[0]).disk, budgets[1..]);
    }
  }

  /** After any number of crashes, every preflight accepts, and one more cleanup with enough
      steps succeeds and leaves no source, no staged clone and no intent. */
  lemma RestartedCleanupConverges(
      env: Env, clones: seq<Clone>, origins: seq<Node>, d: Disk, budgets: seq<nat>, budget: nat)
    requires AllOrigins(env, clones, origins) && AllWithin(env, clones, origins, d) && budget >= TotalCost(origins)
    ensures var crashed := Restart(env, clones, d, budgets);
      var r := Cleanup(env, clones, crashed, budget);
      && r.progress.Going?
      && forall i :: 0 <= i < |clones| ==>
           var c := clones[i];
           c.source !in r.disk.root && c.staging !in r.disk.staging
           && c.stageFile !in r.disk.intents && c.tombFile !in r.disk.intents
  {
    hide Cleanup, Origin;
    RestartsStayWithin(env, clones, origins, d, budgets);
    var crashed := Restart(env, clones, d, budgets);
    CleanupAdvances(env, clones, origins, crashed, budget);
    var r := Cleanup(env, clones, crashed, budget);
    forall i | 0 <= i < |clones| ensures At(env, clones[i], origins[i], r.disk, Gone) {
    }
  }

  // ---- Concrete snapshots ---------------------------------------------------

  const EXAMPLE_ENV: Env := Env(1000, n => true)

  const EXAMPLE_CLONE: Clone :=
    Clone(Static("feature", "verify", "workspace", Reader, "head", "", "root"), "source", "staged", "stage", "tomb", 7, 1)

  /** A read-only snapshot with one file, and beside it an empty directory of the given mode,
      which Git does not track. */
  function ExampleSnapshot(directory: Mode): Node {
    var file := File(Meta(7, 3, 1000, OWNER_READ, 1), [104, 105]);
    Dir(Meta(7, 1, 1000, READ_ONLY_ROOT, 3),
        Entry("a", file, Entry("empty", Dir(Meta(7, 2, 1000, directory, 2), Empty), Empty)))
  }

  function ExampleDisk(directory: Mode): Disk { Disk(map["source" := ExampleSnapshot(directory)], None, map[], map[]) }

  /** An ordinary snapshot meets what the retirement theorems ask, and is retired. */
  lemma SnapshotsAreRetired(budget: nat)
    requires budget >= RetireCost(ExampleSnapshot(READ_ONLY_ROOT))
    ensures
      var env, c, o, d := EXAMPLE_ENV, EXAMPLE_CLONE, ExampleSnapshot(READ_ONLY_ROOT), ExampleDisk(READ_ONLY_ROOT);
      && Origin(env, c, o) && At(env, c, o, d, Fresh)
      && Retire(env, c, SurveyOf(c, d), d, budget).progress.Going?
  {
    var o, d := ExampleSnapshot(READ_ONLY_ROOT), ExampleDisk(READ_ONLY_ROOT);
    ExampleIsValid(READ_ONLY_ROOT);
    hide Retire, RetireCost, Preflight;
    ListingDecides(EXAMPLE_ENV, EXAMPLE_CLONE, o, d, budget);
  }

  /** If nobody can read the empty directory the same snapshot is accepted, and never retired. */
  lemma UnlistableSnapshotsAreKept(budget: nat)
    requires budget >= RetireCost(ExampleSnapshot(0))
    ensures
      var env, c, o, d := EXAMPLE_ENV, EXAMPLE_CLONE, ExampleSnapshot(0), ExampleDisk(0);
      && WorktreeOk(env, o) && Preflight(env, c, d)
      && !Retire(env, c, SurveyOf(c, d), d, budget).progress.Going?
  {
    var o, d := ExampleSnapshot(0), ExampleDisk(0);
    ExampleIsValid(0);
    hide Retire, RetireCost, Preflight;
    ListingDecides(EXAMPLE_ENV, EXAMPLE_CLONE, o, d, budget);
  }

  lemma ExampleIsValid(directory: Mode)
    requires directory == READ_ONLY_ROOT || directory == 0
    ensures
      var o := ExampleSnapshot(directory);
      && WorktreeOk(EXAMPLE_ENV, o) && SafeNames(o.entries)
      && At(EXAMPLE_ENV, EXAMPLE_CLONE, o, ExampleDisk(directory), Fresh)
      && (SameDevice(o, 1000, 7) <==> directory == READ_ONLY_ROOT)
  {
    ModeFacts();
    var file := File(Meta(7, 3, 1000, OWNER_READ, 1), [104, 105]);
    var empty := Dir(Meta(7, 2, 1000, directory, 2), Empty);
    var rest := Entry("empty", empty, Empty);
    assert TreeOk(file, 1000, 7, true) && TreeOk(empty, 1000, 7, true);
    assert EntriesOk(rest, 1000, 7, true) && EntriesOk(Entry("a", file, rest), 1000, 7, true);
    assert SafeName("a") && SafeName("empty");
    assert SafeNames(rest);
    assert SameDevice(empty, 1000, 7) <==> directory == READ_ONLY_ROOT;
    assert SameDeviceEntries(rest, 1000, 7) <==> directory == READ_ONLY_ROOT;
    assert SameDeviceEntries(Entry("a", file, rest), 1000, 7) <==> directory == READ_ONLY_ROOT;
  }

  // ---- The store the program updates in place -----------------------------

  class Worktrees {
    const env: Env
    var root: map<string, Node>
    var stagingRoot: Option<Meta>
    var staging: map<string, Node>
    var intents: map<string, Stored>
    var budget: nat

    function Now(): Disk
      reads this
    {
      Disk(root, stagingRoot, staging, intents)
    }

    constructor (env: Env, d: Disk, steps: nat)
      ensures this.env == env && Now() == d && budget == steps
    {
      this.env := env;
      root, stagingRoot, staging, intents, budget := d.root, d.stagingRoot, d.staging, d.intents, steps;
    }

    method OpenStagingRoot(create: bool) returns (p: Progress)
      modifies this`stagingRoot, this`budget
      ensures Run(Now(), budget, p) == OpenStaging(env, old(Now()), create, old(budget))
      ensures !create ==> Now() == old(Now()) && budget == old(budget)
    {
      if stagingRoot.None? {
        if !create {
          return Refused;
        }
        if budget == 0 {
          return Stopped;
        }
        stagingRoot, budget := Some(Meta(0, 0, env.uid, PRIVATE_ROOT, 2)), budget - 1;
      }
      var m := stagingRoot.value;
      p := if m.uid == env.uid && m.mode == PRIVATE_ROOT then Going else Refused;
    }

    method Restore(c: Clone, i: Intent) returns (p: Progress)
      requires c.staging in staging
      modifies this`staging, this`budget
      ensures Run(Now(), budget, p) == RestoreMode(c, old(Now()), i, old(budget))
    {
      if budget == 0 {
        return Stopped;
      }
      var restored := Chmod(staging[c.staging], i.mode);
      staging, budget := staging[c.staging := restored], budget - 1;
      p := if SameNode(restored, i.dev, i.ino) then Going else Refused;
    }

    method MoveIn(c: Clone, i: Intent) returns (p: Progress)
      requires c.source in root && c.staging !in staging
      modifies this`root, this`staging, this`budget
      ensures Run(Now(), budget, p) == MoveToStaging(c, old(Now()), i, old(budget))
    {
      hide RestoreMode;
      if budget == 0 {
        return Stopped;
      }
      root, staging, budget := root - {c.source}, staging[c.staging := root[c.source]], budget - 1;
      if c.binding.kind.Reader? {
        p := Restore(c, i);
      } else {
        p := if SameNode(staging[c.staging], i.dev, i.ino) then Going else Refused;
      }
    }

    /** The chmod, rename and chmod back of a clone whose intent is durable. */
    method StageBound(c: Clone, i: Intent) returns (p: Progress)
      modifies this
      ensures Run(Now(), budget, p) == StageWith(env, c, old(Now()), i, old(budget))
    {
      hide CloneOk, Writable, RestoreMode, MoveToStaging, StageIntentOk, Confirm;
      if !StageIntentOk(c, i) || (c.source in root) == (c.staging in staging) {
        return Refused;
      }
      var n := if c.source in root then root[c.source] else staging[c.staging];
      if !CloneOk(env, n, c.binding.kind, i) {
        return Refused;
      }
      if c.source in root {
        if c.binding.kind.Reader? && n.meta.mode != Writable(i.mode) {
          if budget == 0 {
            return Stopped;
          }
          root, budget := root[c.source := Chmod(n, Writable(i.mode))], budget - 1;
        }
        p := MoveIn(c, i);
      } else if c.binding.kind.Reader? && n.meta.mode != i.mode {
        p := Restore(c, i);
      } else {
        p := Confirm(c, Now(), i, budget).progress;
        ConfirmOnlyLooks(c, Now(), i, budget);
      }
    }

    method Stage(c: Clone) returns (p: Progress)
      modifies this
      ensures Run(Now(), budget, p) == StageClone(env, c, old(Now()), old(budget))
    {
      hide StageWith, StagingRootOk;
      if c.stageFile in intents && intents[c.stageFile].Garbled? {
        return Refused;
      }
      p := OpenStagingRoot(true);
      if !p.Going? {
        return;
      }
      if c.source in root && c.staging in staging {
        return Refused;
      }
      if c.stageFile !in intents {
        if c.source !in root {
          return Refused;
        }
        var n := root[c.source];
        if !OwnedDir(n, env.uid) || (c.binding.kind.Reader? && !ReadOnly(n.meta.mode)) {
          return Refused;
        }
        if budget == 0 {
          return Stopped;
        }
        var i := Intent(IntentType.Stage, c.binding, n.meta.dev, n.meta.ino, n.meta.mode);
        intents, budget := intents[c.stageFile := Canonical(i)], budget - 1;
      }
      p := StageBound(c, intents[c.stageFile].record);
    }

    method Ensure(c: Clone) returns (p: Progress)
      modifies this
      ensures Run(Now(), budget, p) == EnsureTombstone(env, c, old(Now()), old(budget))
    {
      hide SameDevice, TombstoneStateOk, StagingRootOk, LoadTombstone;
      if c.tombFile in intents && intents[c.tombFile].Garbled? {
        return Refused;
      }
      p := OpenStagingRoot(true);
      if !p.Going? {
        return;
      }
      if c.tombFile !in intents {
        if c.source in root || c.staging !in staging {
          return Refused;
        }
        var n := staging[c.staging];
        if !SameDevice(n, env.uid, n.meta.dev) {
          return Refused;
        }
        if budget == 0 {
          return Stopped;
        }
        var i := Intent(Retirement, c.binding, n.meta.dev, n.meta.ino, n.meta.mode);
        intents, budget := intents[c.tombFile := Canonical(i)], budget - 1;
      }
      p := if TombstoneOk(env, c, Now()) then Going else Refused;
    }

    method Require(c: Clone) returns (p: Progress)
      modifies this`stagingRoot, this`budget
      ensures Run(Now(), budget, p) == RequireTombstone(env, c, old(Now()), old(budget))
      ensures Now() == old(Now()) && budget == old(budget)
    {
      hide TombstoneOk, StagingRootOk;
      p := OpenStagingRoot(false);
      if p.Going? {
        var sound := TombstoneOk(env, c, Now());
        p := if sound then Going else Refused;
      }
    }

    method Remove(c: Clone) returns (p: Progress, removed: nat)
      modifies this
      ensures Run(Now(), budget, p) == RemoveClone(env, c, old(Now()), old(budget))
      ensures c.staging in old(staging) && old(staging)[c.staging].Dir? && p.Going? ==>
        removed == Count(old(staging)[c.staging].entries)
    {
      hide StagingRootOk, RemoveContents, Readable, Count;
      removed := 0;
      p := Require(c);
      if p.Going? && c.staging in staging {
        var n := staging[c.staging];
        if !Readable(n.meta.mode) {
          return Refused, 0;
        }
        DirRemovalPrunes(n, env.uid, LoadTombstone(c, Now()).value.dev, budget);
        assert Count(Empty) == 0 by { EmptyHasNoEntries(); }
        var left;
        left, removed, budget, p := RemoveDirectoryContents(n, env.uid, LoadTombstone(c, Now()).value.dev, budget);
        staging := staging[c.staging := left];
        if p.Going? {
          if budget == 0 {
            return Stopped, removed;
          }
          staging, budget := staging - {c.staging}, budget - 1;
        }
      }
    }

    method ClearStage(c: Clone) returns (p: Progress)
      modifies this`intents, this`budget
      ensures Run(Now(), budget, p) == ClearStageIntent(c, old(Now()), old(budget))
    {
      if c.stageFile !in intents {
        return Going;
      }
      var value := intents[c.stageFile];
      if value.Garbled? || !value.record.kind.Stage? || value.record.binding != c.binding {
        return Refused;
      }
      if budget == 0 {
        return Stopped;
      }
      intents, budget := intents - {c.stageFile}, budget - 1;
      p := Going;
    }

    method Clear(c: Clone) returns (p: Progress)
      modifies this
      ensures Run(Now(), budget, p) == ClearTombstone(env, c, old(Now()), old(budget))
    {
      hide RequireTombstone;
      p := Require(c);
      if p.Going? {
        if c.staging in staging {
          return Refused;
        }
        if budget == 0 {
          return Stopped;
        }
        intents, budget := intents - {c.tombFile}, budget - 1;
      }
    }

    method RetireSnapshot(c: Clone, seen: Survey) returns (p: Progress)
      modifies this
      ensures Run(Now(), budget, p) == Retire(env, c, seen, old(Now()), old(budget))
    {
      hide StageClone, EnsureTombstone, RequireTombstone, RemoveClone, ClearStageIntent, ClearTombstone, WorktreeOk,
        RetiringTreeOk, RootIdentity;
      if !seen.active {
        return Going;
      }
      if seen.tombstone {
        p := Require(c);
        if !p.Going? {
          return;
        }
      } else {
        p := Stage(c);
        if !p.Going? {
          return;
        }
        if c.staging !in staging || !RootIdentity(env, c, staging[c.staging]) || !WorktreeOk(env, staging[c.staging]) {
          return Refused;
        }
        p := Ensure(c);
        if !p.Going? {
          return;
        }
        if c.staging !in staging || !RetiringTreeOk(env, staging[c.staging])
           || !RootIdentity(env, c, staging[c.staging]) {
          return Refused;
        }
      }
      var removed;
      p, removed := Remove(c);
      if p.Going? {
        p := ClearStage(c);
        if p.Going? {
          p := Clear(c);
          if p.Going? && (c.source in root || c.staging in staging) {
            p := Refused;
          }
        }
      }
    }

    method CleanupSnapshots(clones: seq<Clone>) returns (p: Progress, removed: nat, alreadyAbsent: nat)
      modifies this
      ensures Run(Now(), budget, p) == Cleanup(env, clones, old(Now()), old(budget))
      ensures p.Going? ==> removed + alreadyAbsent == |clones|
    {
      hide Preflight, Retire, SurveyOf;
      removed, alreadyAbsent, p := 0, 0, Going;
      var seen: seq<Survey> := [];
      var n := 0;
      while n < |clones|
        invariant n <= |clones| && |seen| == n
        invariant Now() == old(Now()) && budget == old(budget)
        invariant forall i :: 0 <= i < n ==> Preflight(env, clones[i], Now()) && seen[i] == SurveyOf(clones[i], Now())
      {
        if !Preflight(env, clones[n], Now()) {
          return Refused, 0, 0;
        }
        seen := seen + [SurveyOf(clones[n], Now())];
        n := n + 1;
      }
      assert seen == Surveys(clones, Now());
      n := 0;
      assert clones[0..] == clones && seen[0..] == seen;
      while n < |clones| && p.Going?
        invariant n <= |clones| && (p.Going? ==> removed + alreadyAbsent == n)
        invariant p.Going? ==>
          RetireAll(env, clones, seen, old(Now()), old(budget)) == RetireAll(env, clones[n..], seen[n..], Now(), budget)
        invariant !p.Going? ==> RetireAll(env, clones, seen, old(Now()), old(budget)) == Run(Now(), budget, p)
      {
        assert clones[n..][1..] == clones[n + 1..] && seen[n..][1..] == seen[n + 1..];
        p := RetireSnapshot(clones[n], seen[n]);
        if p.Going? {
          if seen[n].active {
            removed := removed + 1;
          } else {
            alreadyAbsent := alreadyAbsent + 1;
          }
        }
        n := n + 1;
      }
    }
  }

  lemma ConfirmOnlyLooks(c: Clone, d: Disk, i: Intent, budget: nat)
    ensures Confirm(c, d, i, budget) == Run(d, budget, Confirm(c, d, i, budget).progress)
  {
  }

  lemma EmptyHasNoEntries()
    ensures Count(Empty) == 0
  {
  }
}
