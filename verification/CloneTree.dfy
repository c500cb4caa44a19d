/** A directory tree with its ownership metadata, and its checked recursive removal. */
module CloneTree {
  import opened Common

  type Mode = bv12

  const OWNER_READ: Mode := 0x100
  const OWNER_SEARCH: Mode := 0x040
  const OWNER_WRITE_SEARCH: Mode := 0x0C0
  const ANY_WRITE: Mode := 0x092
  const PERMISSIONS: Mode := 0x1FF
  const READ_ONLY_ROOT: Mode := 0x140
  const PRIVATE_ROOT: Mode := 0x1C0

  datatype Meta = Meta(dev: nat, ino: nat, uid: nat, mode: Mode, nlink: nat)

  /** Entries are kept in the order in which sorted names list them. */
  datatype Node =
    | Dir(meta: Meta, entries: Entries)
    | File(meta: Meta, content: Bytes)
    | Link(meta: Meta, target: string)
    | Special(meta: Meta)

  datatype Entries = Empty | Entry(name: string, node: Node, rest: Entries)

  predicate SafeName(name: string) {
    && name != "" && name != "." && name != ".."
    && forall i :: 0 <= i < |name| ==> name[i] != '/' && name[i] != '\0'
  }

  function Writable(m: Mode): Mode { m | OWNER_WRITE_SEARCH }

  predicate Readable(m: Mode) { m & OWNER_READ != 0 }

  predicate Searchable(m: Mode) { m & OWNER_SEARCH != 0 }

  predicate ReadOnly(m: Mode) { m & ANY_WRITE == 0 }

  predicate OwnedDir(n: Node, uid: nat) { n.Dir? && n.meta.uid == uid }

  predicate SameNode(n: Node, dev: nat, ino: nat) { n.meta.dev == dev && n.meta.ino == ino }

  function Chmod(n: Node, mode: Mode): Node { n.(meta := n.meta.(mode := mode)) }

  function Count(es: Entries): nat {
    match es
    case Empty => 0
    case Entry(_, n, rest) => 1 + (if n.Dir? then Count(n.entries) else 0) + Count(rest)
  }

  // ---- Tree checks --------------------------------------------------------

  /** Every descendant is on one device and every directory can be opened and listed. */
  predicate SameDevice(n: Node, uid: nat, dev: nat) {
    && OwnedDir(n, uid) && n.meta.dev == dev && Readable(n.meta.mode)
    && (n.entries.Entry? ==> Searchable(n.meta.mode)) && SameDeviceEntries(n.entries, uid, dev)
  }

  predicate SameDeviceEntries(es: Entries, uid: nat, dev: nat) {
    match es
    case Empty => true
    case Entry(_, n, rest) =>
      n.meta.dev == dev && (n.Dir? ==> SameDevice(n, uid, dev)) && SameDeviceEntries(rest, uid, dev)
  }

  /** The snapshot tree check below a root: owned, one device, no link, no hard link, no
      special file, and read-only where demanded. A directory that cannot be read is not
      descended into. */
  predicate TreeOk(n: Node, uid: nat, dev: nat, readOnly: bool) {
    && n.meta.uid == uid && n.meta.dev == dev && (readOnly ==> ReadOnly(n.meta.mode))
    && match n
       case Dir(m, es) =>
         Readable(m.mode) ==> (es.Entry? ==> Searchable(m.mode)) && EntriesOk(es, uid, dev, readOnly)
       case File(m, _) => m.nlink == 1
       case _ => false
  }

  predicate EntriesOk(es: Entries, uid: nat, dev: nat, readOnly: bool) {
    match es
    case Empty => true
    case Entry(_, n, rest) => TreeOk(n, uid, dev, readOnly) && EntriesOk(rest, uid, dev, readOnly)
  }

  predicate SnapshotOk(n: Node, uid: nat, modes: set<Mode>, readOnly: bool) {
    n.Dir? && n.meta.mode in modes && TreeOk(n, uid, n.meta.dev, readOnly)
  }

  // ---- Removal ------------------------------------------------------------

  datatype Progress = Going | Stopped | Refused

  /** What is left after a removal pass, the durable steps still available, how it ended,
      and how many entries it removed. */
  datatype Walk = Walk(left: Entries, budget: nat, progress: Progress, removed: nat)

  datatype DirWalk = DirWalk(node: Node, budget: nat, progress: Progress, removed: nat)

  function RemoveContents(n: Node, uid: nat, dev: nat, budget: nat): (r: DirWalk)
    requires n.Dir?
    ensures r.node.Dir?
    decreases n, 1
  {
    if n.meta.uid != uid || n.meta.dev != dev then DirWalk(n, budget, Refused, 0)
    else if n.meta.mode != Writable(n.meta.mode) && budget == 0 then DirWalk(n, 0, Stopped, 0)
    else
      var w := RemoveEntries(n.entries, uid, dev, if n.meta.mode == Writable(n.meta.mode) then budget else budget - 1);
      DirWalk(Dir(n.meta.(mode := Writable(n.meta.mode)), w.left), w.budget, w.progress, w.removed)
  }

  /** One entry: what stays of it, the steps left, how it ended, and how much was removed. */
  datatype One = One(kept: Node, budget: nat, progress: Progress, removed: nat)

  function RemoveOne(name: string, n: Node, uid: nat, dev: nat, budget: nat): One
    decreases n, 2
  {
    if !SafeName(name) || n.meta.uid != uid || n.meta.dev != dev then One(n, budget, Refused, 0)
    else if n.Dir? then
      if !Readable(n.meta.mode) then One(n, budget, Refused, 0)
      else
        var r := RemoveContents(n, uid, dev, budget);
        if !r.progress.Going? then One(r.node, r.budget, r.progress, r.removed)
        else if r.budget == 0 then One(r.node, 0, Stopped, r.removed)
        else One(r.node, r.budget - 1, Going, r.removed + 1)
    else if n.Special? || (n.File? && n.meta.nlink != 1) then One(n, budget, Refused, 0)
    else if budget == 0 then One(n, 0, Stopped, 0)
    else One(n, budget - 1, Going, 1)
  }

  function Counted(w: Walk, more: nat): Walk { w.(removed := w.removed + more) }

  function RemoveEntries(es: Entries, uid: nat, dev: nat, budget: nat): Walk
    decreases es
  {
    match es
    case Empty => Walk(Empty, budget, Going, 0)
    case Entry(name, n, rest) =>
      var o := RemoveOne(name, n, uid, dev, budget);
      if o.progress.Going? then Counted(RemoveEntries(rest, uid, dev, o.budget), o.removed)
      else Walk(Entry(name, o.kept, rest), o.budget, o.progress, o.removed)
  }

  /** Trees the removal can take apart completely. */
  predicate Removable(n: Node, uid: nat, dev: nat) {
    n.Dir? && n.meta.uid == uid && n.meta.dev == dev && RemovableEntries(n.entries, uid, dev)
  }

  predicate RemovableEntries(es: Entries, uid: nat, dev: nat) {
    match es
    case Empty => true
    case Entry(name, n, rest) =>
      && SafeName(name) && n.meta.uid == uid && n.meta.dev == dev
      && (match n
          case Dir(m, _) => Readable(m.mode) && Removable(n, uid, dev)
          case File(m, _) => m.nlink == 1
          case Link(_, _) => true
          case Special(_) => false)
      && RemovableEntries(rest, uid, dev)
  }

  /** The durable steps a removal takes at most: one chmod and one unlink or rmdir per entry. */
  function Cost(es: Entries): nat { 2 * Count(es) }

  /** `a` is `b` with some entries gone and some directories made owner-writable. */
  ghost predicate Pruned(a: Node, b: Node) {
    if a.Dir? && b.Dir? then
      && (a.meta == b.meta || a.meta == b.meta.(mode := Writable(b.meta.mode)))
      && PrunedEntries(a.entries, b.entries)
    else a == b
  }

  ghost predicate PrunedEntries(a: Entries, b: Entries) {
    match b
    case Empty => a.Empty?
    case Entry(name, n, rest) =>
      || PrunedEntries(a, rest)
      || (a.Entry? && a.name == name && Pruned(a.node, n) && PrunedEntries(a.rest, rest))
  }

  lemma {:induction false} PrunedReflexive(es: Entries)
    ensures PrunedEntries(es, es)
  {
    match es
    case Empty =>
    case Entry(name, n, rest) =>
      PrunedReflexive(rest);
      if n.Dir? {
        PrunedReflexive(n.entries);
      }
  }

  lemma {:induction false} PrunedTransitive(a: Node, b: Node, c: Node)
    requires Pruned(a, b) && Pruned(b, c)
    ensures Pruned(a, c)
    decreases c, 1
  {
    if c.Dir? && b.Dir? && a.Dir? {
      PrunedEntriesTransitive(a.entries, b.entries, c.entries);
    }
  }

  lemma {:induction false} PrunedEntriesTransitive(a: Entries, b: Entries, c: Entries)
    requires PrunedEntries(a, b) && PrunedEntries(b, c)
    ensures PrunedEntries(a, c)
    decreases c, b
  {
    if c.Entry? {
      if PrunedEntries(b, c.rest) {
        PrunedEntriesTransitive(a, b, c.rest);
      } else if PrunedEntries(a, b.rest) {
        PrunedEntriesTransitive(a, b.rest, c.rest);
      } else {
        PrunedTransitive(a.node, b.node, c.node);
        PrunedEntriesTransitive(a.rest, b.rest, c.rest);
      }
    }
  }

  /** Whatever stops the removal, what is left is a pruned original, and entries removed and
      entries left add up. */
  lemma {:induction false} RemovalPrunes(es: Entries, uid: nat, dev: nat, budget: nat)
    ensures var w := RemoveEntries(es, uid, dev, budget);
      && PrunedEntries(w.left, es)
      && w.removed + Count(w.left) == Count(es)
      && (w.progress.Going? ==> w.left.Empty?)
    decreases es, 0
  {
    match es
    case Empty =>
    case Entry(name, n, rest) =>
      PrunedReflexive(es);
      RemovalPrunes(rest, uid, dev, RemoveOne(name, n, uid, dev, budget).budget);
      if n.Dir? {
        PrunedReflexive(rest);
        DirRemovalPrunes(n, uid, dev, budget);
      }
  }

  lemma {:induction false} DirRemovalPrunes(n: Node, uid: nat, dev: nat, budget: nat)
    requires n.Dir?
    ensures var r := RemoveContents(n, uid, dev, budget);
      && Pruned(r.node, n)
      && r.removed + Count(r.node.entries) == Count(n.entries)
      && (r.progress.Going? ==> r.node.entries.Empty?)
    decreases n, 1
  {
    PrunedReflexive(n.entries);
    if n.meta.uid == uid && n.meta.dev == dev && (n.meta.mode == Writable(n.meta.mode) || budget > 0) {
      RemovalPrunes(n.entries, uid, dev, if n.meta.mode == Writable(n.meta.mode) then budget else budget - 1);
    }
  }

  /** The removal refuses exactly the trees it cannot take apart, and otherwise stops only for
      want of steps. */
  lemma {:induction false} RemovalDecides(es: Entries, uid: nat, dev: nat, budget: nat)
    ensures var w := RemoveEntries(es, uid, dev, budget);
      && (RemovableEntries(es, uid, dev) ==> !w.progress.Refused?)
      && (!RemovableEntries(es, uid, dev) ==> !w.progress.Going?)
      && (budget >= Cost(es) ==> !w.progress.Stopped?)
      && w.budget <= budget
      && (w.progress.Going? && budget >= Cost(es) ==> w.budget >= budget - Cost(es))
    decreases es, 0
  {
    match es
    case Empty =>
    case Entry(name, n, rest) =>
      RemovalDecides(rest, uid, dev, RemoveOne(name, n, uid, dev, budget).budget);
      if n.Dir? {
        DirRemovalDecides(n, uid, dev, budget);
      }
  }

  lemma {:induction false} DirRemovalDecides(n: Node, uid: nat, dev: nat, budget: nat)
    requires n.Dir?
    ensures var r := RemoveContents(n, uid, dev, budget);
      && (Removable(n, uid, dev) ==> !r.progress.Refused?)
      && (!Removable(n, uid, dev) ==> !r.progress.Going?)
      && (budget >= Cost(n.entries) + 1 ==> !r.progress.Stopped?)
      && r.budget <= budget
      && (r.progress.Going? && budget >= Cost(n.entries) + 1 ==> r.budget >= budget - Cost(n.entries) - 1)
    decreases n, 1
  {
    if n.meta.uid == uid && n.meta.dev == dev && (n.meta.mode == Writable(n.meta.mode) || budget > 0) {
      RemovalDecides(n.entries, uid, dev, if n.meta.mode == Writable(n.meta.mode) then budget else budget - 1);
    }
  }

  /** What the removal must never delete: foreign-owned or cross-device nodes, special files
      and hard-linked files. */
  predicate Protected(x: Node, uid: nat, dev: nat) {
    x.meta.uid != uid || x.meta.dev != dev || x.Special? || (x.File? && x.meta.nlink != 1)
  }

  predicate Holds(es: Entries, x: Node) {
    match es
    case Empty => false
    case Entry(_, n, rest) => n == x || (n.Dir? && Holds(n.entries, x)) || Holds(rest, x)
  }

  /** A protected node anywhere in the tree is still there however the removal ends. */
  lemma {:induction false} ProtectedSurvives(es: Entries, uid: nat, dev: nat, budget: nat, x: Node)
    requires Protected(x, uid, dev) && Holds(es, x)
    ensures Holds(RemoveEntries(es, uid, dev, budget).left, x)
    decreases es, 0
  {
    hide Writable;
    var n := es.node;
    var o := RemoveOne(es.name, n, uid, dev, budget);
    if o.progress.Going? {
      if n.Dir? {
        DirRemovalPrunes(n, uid, dev, budget);
        if Holds(n.entries, x) {
          ProtectedSurvivesIn(n, uid, dev, budget, x);
        }
      }
      ProtectedSurvives(es.rest, uid, dev, o.budget, x);
    } else if n.Dir? && n != x && Holds(n.entries, x) {
      ProtectedSurvivesIn(n, uid, dev, budget, x);
    }
  }

  lemma {:induction false} ProtectedSurvivesIn(n: Node, uid: nat, dev: nat, budget: nat, x: Node)
    requires n.Dir? && Protected(x, uid, dev) && Holds(n.entries, x)
    ensures Holds(RemoveContents(n, uid, dev, budget).node.entries, x)
    decreases n, 1
  {
    hide Writable;
    if n.meta.uid == uid && n.meta.dev == dev && (n.meta.mode == Writable(n.meta.mode) || budget > 0) {
      ProtectedSurvives(n.entries, uid, dev, if n.meta.mode == Writable(n.meta.mode) then budget else budget - 1, x);
    }
  }

  lemma {:induction false} PrunedStaysRemovable(a: Entries, b: Entries, uid: nat, dev: nat)
    requires PrunedEntries(a, b) && RemovableEntries(b, uid, dev)
    ensures RemovableEntries(a, uid, dev) && Count(a) <= Count(b)
    decreases b
  {
    if b.Entry? {
      if PrunedEntries(a, b.rest) {
        PrunedStaysRemovable(a, b.rest, uid, dev);
      } else {
        if b.node.Dir? {
          PrunedStaysRemovable(a.node.entries, b.node.entries, uid, dev);
        }
        PrunedStaysRemovable(a.rest, b.rest, uid, dev);
      }
    }
  }

  /** A tree that can be listed throughout and passed the snapshot check stays within the
      weaker check, and stays on one device, however much of it is gone. */
  lemma {:induction false} PrunedStaysValid(a: Entries, b: Entries, uid: nat, dev: nat)
    requires PrunedEntries(a, b) && EntriesOk(b, uid, dev, false)
    requires SameDeviceEntries(b, uid, dev)
    ensures EntriesOk(a, uid, dev, false)
    decreases b
  {
    if b.Entry? {
      if PrunedEntries(a, b.rest) {
        PrunedStaysValid(a, b.rest, uid, dev);
      } else {
        if b.node.Dir? {
          PrunedStaysValid(a.node.entries, b.node.entries, uid, dev);
        }
        PrunedStaysValid(a.rest, b.rest, uid, dev);
      }
    }
  }

  lemma {:induction false} WeakerTreeCheck(es: Entries, uid: nat, dev: nat)
    requires EntriesOk(es, uid, dev, true)
    ensures EntriesOk(es, uid, dev, false)
  {
    if es.Entry? {
      if es.node.Dir? && Readable(es.node.meta.mode) {
        WeakerTreeCheck(es.node.entries, uid, dev);
      }
      WeakerTreeCheck(es.rest, uid, dev);
    }
  }

  predicate SafeNames(es: Entries) {
    match es
    case Empty => true
    case Entry(name, n, rest) => SafeName(name) && (n.Dir? ==> SafeNames(n.entries)) && SafeNames(rest)
  }

  /** A validated snapshot that can be listed throughout can be removed. */
  lemma {:induction false} SnapshotIsRemovable(es: Entries, uid: nat, dev: nat)
    requires EntriesOk(es, uid, dev, false) && SameDeviceEntries(es, uid, dev) && SafeNames(es)
    ensures RemovableEntries(es, uid, dev)
  {
    if es.Entry? {
      if es.node.Dir? {
        SnapshotIsRemovable(es.node.entries, uid, dev);
      }
      SnapshotIsRemovable(es.rest, uid, dev);
    }
  }

  /** One entry, by kind. */
  method RemoveEntry(name: string, info: Node, uid: nat, dev: nat, budget: nat)
    returns (kept: Node, removed: nat, steps: nat, progress: Progress)
    ensures One(kept, steps, progress, removed) == RemoveOne(name, info, uid, dev, budget)
    decreases info, 1
  {
    kept, removed, steps := info, 0, budget;
    if !SafeName(name) || info.meta.uid != uid || info.meta.dev != dev {
      progress := Refused;
    } else if info.Dir? {
      if !Readable(info.meta.mode) {
        return info, 0, budget, Refused;
      }
      kept, removed, steps, progress := RemoveDirectoryContents(info, uid, dev, budget);
      if progress.Going? {
        if steps == 0 {
          progress := Stopped;
        } else {
          steps, removed := steps - 1, removed + 1;
        }
      }
    } else if info.Special? || (info.File? && info.meta.nlink != 1) {
      progress := Refused;
    } else if steps == 0 {
      progress := Stopped;
    } else {
      steps, removed, progress := steps - 1, 1, Going;
    }
  }

  /** The loop over one directory's sorted names. */
  method RemoveListed(listed: Entries, uid: nat, dev: nat, budget: nat)
    returns (left: Entries, removed: nat, steps: nat, progress: Progress)
    ensures Walk(left, steps, progress, removed) == RemoveEntries(listed, uid, dev, budget)
    decreases listed
  {
    hide RemoveOne;
    left, removed, steps, progress := listed, 0, budget, Going;
    while left.Entry? && progress.Going?
      invariant progress.Going? ==> left == listed || left < listed
      invariant progress.Going? ==>
        RemoveEntries(listed, uid, dev, budget) == Counted(RemoveEntries(left, uid, dev, steps), removed)
      invariant !progress.Going? ==>
        RemoveEntries(listed, uid, dev, budget) == Walk(left, steps, progress, removed)
      decreases if progress.Going? then 1 else 0, left
    {
      var kept, gone;
      kept, gone, steps, progress := RemoveEntry(left.name, left.node, uid, dev, steps);
      removed := removed + gone;
      left := if progress.Going? then left.rest else Entry(left.name, kept, left.rest);
    }
  }

  /** One directory: made writable for its owner, then emptied. */
  method RemoveDirectoryContents(n: Node, uid: nat, dev: nat, budget: nat)
    returns (left: Node, removed: nat, steps: nat, progress: Progress)
    requires n.Dir?
    ensures DirWalk(left, steps, progress, removed) == RemoveContents(n, uid, dev, budget)
    decreases n, 0
  {
    hide RemoveEntries, Writable;
    if n.meta.uid != uid || n.meta.dev != dev {
      return n, 0, budget, Refused;
    }
    var mode := Writable(n.meta.mode);
    steps := budget;
    if n.meta.mode != mode {
      if steps == 0 {
        return n, 0, 0, Stopped;
      }
      steps := steps - 1;
    }
    var names;
    names, removed, steps, progress := RemoveListed(n.entries, uid, dev, steps);
    left := Dir(n.meta.(mode := mode), names);
  }
}
