/** Recomputing a Git tree identifier from the members of an archived tar file. */
module ArchiveTree {
  import opened Common
  import opened ByteOrder
  import StableSort

  const MAX_FILE_BYTES: nat := 32 * 1024 * 1024
  const SLASH: Byte := 47

  type Name = string
  type Path = seq<Name>

  /** The two primitives left abstract: the Git object hash (already applied to
      the kind, the length and the content) and the encoding of a file name,
      which fails on names that have no byte form. */
  datatype Codec = Codec(hash: (string, Bytes) -> Bytes, encode: Name -> Option<Bytes>)

  /** A path component never contains a separator, encoded or not. */
  ghost predicate SlashFree(c: Codec) {
    forall n :: c.encode(n).Some? ==> SLASH !in c.encode(n).value
  }

  datatype Mode = Normal | Executable | Link | Gitlink | Subtree

  function ModeText(m: Mode): (s: string)
    ensures IsAscii(s)
  {
    match m
    case Normal => "100644"
    case Executable => "100755"
    case Link => "120000"
    case Gitlink => "160000"
    case Subtree => "40000"
  }

  // ---- Tar members -------------------------------------------------------

  datatype Kind = Regular(exec: bool, data: Bytes) | Symlink(target: Name) | Directory | Special

  /** The raw object identifier of a member, when the archive records one. */
  datatype OidText = Malformed | Hex(oid: Bytes)

  datatype Member = Member(parts: Path, kind: Kind, gitMode: Option<string>, gitOid: Option<OidText>)

  datatype Leaf = Leaf(mode: Mode, oid: Bytes)

  datatype Error =
    | DuplicatePath | IncompleteBinding | GitlinkNotDirectory | InvalidOid | DirectoryBinding
    | RootIsLeaf | Oversize | Unencodable | SpecialEntry | ModeMismatch | OidMismatch | DuplicateName

  /** The leaf a member stands for, or None for a plain directory marker. */
  function MemberLeaf(c: Codec, m: Member): (r: Result<Option<Leaf>, Error>)
    ensures r.Ok? && r.value.Some? ==> m.parts != [] && !r.value.value.mode.Subtree?
  {
    if m.gitMode.Some? != m.gitOid.Some? then Err(IncompleteBinding)
    else if m.gitMode == Some(ModeText(Gitlink)) then
      if !m.kind.Directory? then Err(GitlinkNotDirectory)
      else if m.gitOid.value.Malformed? then Err(InvalidOid)
      else if m.parts == [] then Err(RootIsLeaf)
      else Ok(Some(Leaf(Gitlink, m.gitOid.value.oid)))
    else
      match m.kind
      case Directory => if m.gitMode.Some? then Err(DirectoryBinding) else Ok(None)
      case Regular(exec, data) =>
        if m.parts == [] then Err(RootIsLeaf)
        else if |data| > MAX_FILE_BYTES then Err(Oversize)
        else BoundLeaf(m, if exec then Executable else Normal, c.hash("blob", data))
      case Symlink(target) =>
        if m.parts == [] then Err(RootIsLeaf)
        else if c.encode(target).None? then Err(Unencodable)
        else BoundLeaf(m, Link, c.hash("blob", c.encode(target).value))
      case Special =>
        if m.parts == [] then Err(RootIsLeaf) else Err(SpecialEntry)
  }

  /** Checks a computed leaf against the raw binding the archive may carry. */
  function BoundLeaf(m: Member, mode: Mode, oid: Bytes): (r: Result<Option<Leaf>, Error>)
    requires m.gitMode.Some? == m.gitOid.Some?
  {
    if m.gitMode.None? then Ok(Some(Leaf(mode, oid)))
    else if m.gitMode.value != ModeText(mode) then Err(ModeMismatch)
    else if m.gitOid.value.Malformed? then Err(InvalidOid)
    else if m.gitOid.value.oid != oid then Err(OidMismatch)
    else Ok(Some(Leaf(mode, oid)))
  }

  // ---- The represented tree ----------------------------------------------

  /** A Git tree, as the archive is meant to describe it. */
  datatype Tree = Blob(leaf: Leaf) | Dir(children: map<Name, Tree>)

  function Lookup(t: Tree, p: Path): Option<Tree>
    decreases |p|
  {
    if p == [] then Some(t)
    else if t.Dir? && p[0] in t.children then Lookup(t.children[p[0]], p[1..])
    else None
  }

  predicate ProperPrefix(p: Path, q: Path) {
    |p| < |q| && q[..|p|] == p
  }

  ghost predicate HasLeaf(c: Codec, members: seq<Member>, p: Path, leaf: Leaf) {
    exists m :: m in members && m.parts == p && MemberLeaf(c, m) == Ok(Some(leaf))
  }

  ghost predicate HasDir(c: Codec, members: seq<Member>, p: Path) {
    p == [] || exists m :: m in members && (ProperPrefix(p, m.parts) || (m.parts == p && MemberLeaf(c, m) == Ok(None)))
  }

  /** `t` holds exactly the leaves and directories the members describe. */
  ghost predicate Represents(c: Codec, t: Tree, members: seq<Member>) {
    && (forall p, leaf :: HasLeaf(c, members, p, leaf) <==> Lookup(t, p) == Some(Blob(leaf)))
    && (forall p :: HasDir(c, members, p) <==> Lookup(t, p).Some? && Lookup(t, p).value.Dir?)
  }

  // ---- Listing a directory -----------------------------------------------

  datatype Entry = Entry(name: Bytes, mode: Mode, oid: Bytes)

  /** Git orders a directory as if its name ended in a separator. */
  function Key(e: Entry): Bytes {
    e.name + if e.mode.Subtree? then [SLASH] else []
  }

  function Body(s: seq<Entry>): Bytes {
    if s == [] then []
    else Ascii(ModeText(s[0].mode)) + [32] + s[0].name + [0] + s[0].oid + Body(s[1..])
  }

  ghost predicate IsListing(s: seq<Entry>, es: set<Entry>) {
    && (forall i, j :: 0 <= i < j < |s| ==> Less(Key(s[i]), Key(s[j])))
    && (forall e :: e in es <==> e in s)
  }

  ghost function Listing(es: set<Entry>): seq<Entry> {
    if s :| IsListing(s, es) then s else []
  }

  /** The recursive Git hash: a directory hashes the sorted listing of its
      children, each child contributing its own hash. */
  ghost function TreeHash(c: Codec, t: Tree): Bytes
    decreases t
  {
    match t
    case Blob(leaf) => leaf.oid
    case Dir(children) =>
      c.hash("tree", Body(Listing(set n | n in children :: Entry(Encoded(c, n), TreeMode(children[n]), TreeHash(c, children[n])))))
  }

  function Encoded(c: Codec, n: Name): Bytes {
    match c.encode(n) case Some(b) => b case None => []
  }

  function TreeMode(t: Tree): Mode {
    match t case Blob(leaf) => leaf.mode case Dir(_) => Subtree
  }

  // ---- When an archive is accepted ---------------------------------------

  ghost predicate DistinctPaths(members: seq<Member>) {
    forall i, j :: 0 <= i < j < |members| ==> members[i].parts != members[j].parts
  }

  function ChildNames(members: seq<Member>, d: Path): set<Name> {
    set m | m in members && ProperPrefix(d, m.parts) :: m.parts[|d|]
  }

  ghost predicate Collides(c: Codec, members: seq<Member>, p: Path) {
    HasDir(c, members, p) && exists leaf :: HasLeaf(c, members, p, leaf)
  }

  /** Every child of `d` has a byte name of its own, and is a leaf or a directory but not both. */
  ghost predicate DirectoryOk(c: Codec, members: seq<Member>, d: Path) {
    && (forall n :: n in ChildNames(members, d) ==> c.encode(n).Some? && !Collides(c, members, d + [n]))
    && (forall n, n' :: n in ChildNames(members, d) && n' in ChildNames(members, d) && n != n' ==> c.encode(n) != c.encode(n'))
  }

  ghost predicate Acceptable(c: Codec, members: seq<Member>) {
    && DistinctPaths(members)
    && (forall m :: m in members ==> MemberLeaf(c, m).Ok?)
    && (forall d :: HasDir(c, members, d) ==> DirectoryOk(c, members, d))
  }

  ghost predicate HasNode(c: Codec, members: seq<Member>, p: Path) {
    HasDir(c, members, p) || exists leaf :: HasLeaf(c, members, p, leaf)
  }

  /** `q` goes through the child `n` of `d`. */
  predicate Through(d: Path, n: Name, q: Path) { ProperPrefix(d, q) && q[|d|] == n }

  lemma StepDown(d: Path, n: Name, q: Path)
    ensures Through(d, n, q) <==> ProperPrefix(d + [n], q) || q == d + [n]
  {
    if |q| > |d| {
      assert q[..|d| + 1] == q[..|d|] + [q[|d|]];
      if q[..|d| + 1] == d + [n] {
        assert q[..|d|] == q[..|d| + 1][..|d|] == d;
        assert q[|d|] == q[..|d| + 1][|d|] == n;
      }
      if |q| == |d| + 1 {
        assert q[..|d| + 1] == q;
      }
    }
  }

  lemma ChildIsNode(c: Codec, members: seq<Member>, d: Path, n: Name)
    requires forall m :: m in members ==> MemberLeaf(c, m).Ok?
    ensures n in ChildNames(members, d) <==> HasNode(c, members, d + [n])
  {
    hide MemberLeaf;
    var p := d + [n];
    if n in ChildNames(members, d) {
      var m :| m in members && Through(d, n, m.parts);
      hide ProperPrefix, Through;
      StepDown(d, n, m.parts);
      if m.parts == p && MemberLeaf(c, m) != Ok(None) {
        assert HasLeaf(c, members, p, MemberLeaf(c, m).value.value);
      }
    }
    if HasNode(c, members, p) {
      NodeHasMember(c, members, p);
      var m :| m in members && (ProperPrefix(p, m.parts) || m.parts == p);
      StepDown(d, n, m.parts);
      assert m.parts[|d|] in ChildNames(members, d);
    }
  }

  lemma NodeHasMember(c: Codec, members: seq<Member>, p: Path)
    requires HasNode(c, members, p) && p != []
    ensures exists m :: m in members && (ProperPrefix(p, m.parts) || m.parts == p)
  {
    hide MemberLeaf;
  }

  lemma ParentIsDir(c: Codec, members: seq<Member>, d: Path, n: Name)
    requires n in ChildNames(members, d)
    ensures HasDir(c, members, d)
  {
  }

  // ---- The tree an accepted archive represents ---------------------------

  function Depth(members: seq<Member>): (h: nat)
    ensures forall m :: m in members ==> |m.parts| <= h
  {
    if members == [] then 0
    else
      var h := Depth(members[1..]);
      assert members == [members[0]] + members[1..];
      if |members[0].parts| > h then |members[0].parts| else h
  }

  ghost function TreeAt(c: Codec, members: seq<Member>, p: Path): Tree
    decreases Depth(members) - |p|
  {
    if leaf :| HasLeaf(c, members, p, leaf) then Blob(leaf)
    else Dir(map n | n in ChildNames(members, p) :: TreeAt(c, members, p + [n]))
  }

  lemma LeafIsUnique(c: Codec, members: seq<Member>, p: Path, leaf: Leaf, leaf': Leaf)
    requires DistinctPaths(members)
    requires HasLeaf(c, members, p, leaf) && HasLeaf(c, members, p, leaf')
    ensures leaf == leaf'
  {
  }

  lemma {:induction false} LookupExtend(t: Tree, p: Path, n: Name)
    ensures Lookup(t, p + [n]) ==
            if Lookup(t, p).Some? && Lookup(t, p).value.Dir? && n in Lookup(t, p).value.children
            then Some(Lookup(t, p).value.children[n]) else None
    decreases |p|
  {
    if p == [] {
      assert (p + [n])[1..] == [];
    } else if t.Dir? && p[0] in t.children {
      assert (p + [n])[1..] == p[1..] + [n];
      LookupExtend(t.children[p[0]], p[1..], n);
    }
  }

  /** No child sits below a leaf, so descending the built tree visits exactly the nodes. */
  lemma {:induction false} LookupTreeAt(c: Codec, members: seq<Member>, p: Path)
    requires Acceptable(c, members)
    ensures Lookup(TreeAt(c, members, []), p) == if HasNode(c, members, p) then Some(TreeAt(c, members, p)) else None
    decreases |p|
  {
    if p != [] {
      var d, n := p[..|p| - 1], p[|p| - 1];
      assert p == d + [n];
      LookupTreeAt(c, members, d);
      LookupExtend(TreeAt(c, members, []), d, n);
      ChildIsNode(c, members, d, n);
      if n in ChildNames(members, d) {
        ParentIsDir(c, members, d, n);
        NoLeafAtDir(c, members, d);
      }
    }
  }

  lemma NoLeafAtDir(c: Codec, members: seq<Member>, p: Path)
    requires Acceptable(c, members) && HasDir(c, members, p)
    ensures !exists leaf :: HasLeaf(c, members, p, leaf)
  {
    if p != [] {
      var d, n := p[..|p| - 1], p[|p| - 1];
      assert p == d + [n];
      ChildIsNode(c, members, d, n);
      ParentIsDir(c, members, d, n);
    }
  }

  lemma NodeAtPath(c: Codec, members: seq<Member>, p: Path)
    requires Acceptable(c, members)
    ensures HasDir(c, members, p) <==>
            Lookup(TreeAt(c, members, []), p).Some? && Lookup(TreeAt(c, members, []), p).value.Dir?
  {
    LookupTreeAt(c, members, p);
    if HasDir(c, members, p) {
      NoLeafAtDir(c, members, p);
    }
  }

  lemma LeafAtPath(c: Codec, members: seq<Member>, p: Path, leaf: Leaf)
    requires Acceptable(c, members)
    ensures HasLeaf(c, members, p, leaf) <==> Lookup(TreeAt(c, members, []), p) == Some(Blob(leaf))
  {
    LookupTreeAt(c, members, p);
    if HasLeaf(c, members, p, leaf) {
      LeafIsUnique(c, members, p, leaf, TreeAt(c, members, p).leaf);
    }
  }

  /** An accepted archive represents a tree. */
  lemma AcceptedRepresentsTree(c: Codec, members: seq<Member>)
    requires Acceptable(c, members)
    ensures Represents(c, TreeAt(c, members, []), members)
  {
    var t := TreeAt(c, members, []);
    forall p, leaf
      ensures HasLeaf(c, members, p, leaf) <==> Lookup(t, p) == Some(Blob(leaf))
    {
      LeafAtPath(c, members, p, leaf);
    }
    forall p
      ensures HasDir(c, members, p) <==> Lookup(t, p).Some? && Lookup(t, p).value.Dir?
    {
      NodeAtPath(c, members, p);
    }
  }

  lemma {:induction false} RepresentedSubtree(c: Codec, members: seq<Member>, t: Tree, p: Path, u: Tree)
    requires Acceptable(c, members) && Represents(c, t, members)
    requires Lookup(t, p) == Some(u)
    ensures u == TreeAt(c, members, p)
    decreases u
  {
    match u
    case Blob(leaf) =>
      assert HasLeaf(c, members, p, leaf);
      LeafIsUnique(c, members, p, leaf, TreeAt(c, members, p).leaf);
    case Dir(children) =>
      assert HasDir(c, members, p);
      NoLeafAtDir(c, members, p);
      forall n
        ensures n in children <==> n in ChildNames(members, p)
        ensures n in children ==> children[n] == TreeAt(c, members, p + [n])
      {
        LookupExtend(t, p, n);
        ChildIsNode(c, members, p, n);
        if n in children {
          RepresentedSubtree(c, members, t, p + [n], children[n]);
        }
      }
      var built := TreeAt(c, members, p).children;
      assert children.Keys == built.Keys;
      assert children == built;
  }

  lemma RepresentedTreeIsUnique(c: Codec, members: seq<Member>, t: Tree)
    requires Acceptable(c, members) && Represents(c, t, members)
    ensures t == TreeAt(c, members, [])
  {
    RepresentedSubtree(c, members, t, [], t);
  }

  // ---- Sorted listings ---------------------------------------------------

  /** The list sort the program applies to a directory before hashing it. */
  function SortEntries(s: seq<Entry>): (r: seq<Entry>)
    ensures multiset(r) == multiset(s)
  {
    StableSort.Sort(Leq, Key, s)
  }

  predicate StrictlySorted(s: seq<Entry>) {
    forall i, j :: 0 <= i < j < |s| ==> Less(Key(s[i]), Key(s[j]))
  }

  lemma MembersOf(s: seq<Entry>, t: seq<Entry>, e: Entry)
    requires multiset(s) == multiset(t)
    ensures e in s <==> e in t
  {
    assert e in s <==> e in multiset(s);
    assert e in t <==> e in multiset(t);
  }

  lemma SortKeepsDistinct(s: seq<Entry>)
    requires forall i, j :: 0 <= i < j < |s| ==> Key(s[i]) != Key(s[j])
    ensures StrictlySorted(SortEntries(s))
  {
    hide Key;
    LeqIsTotalOrder();
    StableSort.SortSorts(Leq, Key, s);
    StableSort.PermutationsByKey(Key, s, SortEntries(s));
  }

  lemma LeqIsTotalOrder()
    ensures StableSort.TotalOrder(Leq)
  {
    forall a, b ensures Leq(a, b) || Leq(b, a) {
      LeqTotal(a, b);
    }
    forall a, b | Leq(a, b) && Leq(b, a) ensures a == b {
      LeqAntisymmetric(a, b);
    }
    forall a, b, c | Leq(a, b) && Leq(b, c) ensures Leq(a, c) {
      LeqTransitive(a, b, c);
    }
  }

  lemma {:induction false} ListingIsUnique(s: seq<Entry>, t: seq<Entry>, es: set<Entry>)
    requires IsListing(s, es) && IsListing(t, es)
    ensures s == t
  {
    if s == [] || t == [] {
      assert forall e :: e in s <==> e in t;
      SameEmptiness(s, t);
    } else {
      assert s[0] in es && s[0] in t;
      assert t[0] in es && t[0] in s;
      if s[0] != t[0] {
        LeqAntisymmetric(Key(s[0]), Key(t[0]));
      }
      ListingTail(s, es);
      ListingTail(t, es);
      ListingIsUnique(s[1..], t[1..], es - {s[0]});
      assert s == [s[0]] + s[1..] && t == [t[0]] + t[1..];
    }
  }

  lemma SameEmptiness(s: seq<Entry>, t: seq<Entry>)
    requires forall e :: e in s <==> e in t
    ensures s == [] <==> t == []
  {
    assert s != [] ==> s[0] in t;
    assert t != [] ==> t[0] in s;
  }

  lemma ListingTail(s: seq<Entry>, es: set<Entry>)
    requires IsListing(s, es) && s != []
    ensures IsListing(s[1..], es - {s[0]})
  {
    assert s == [s[0]] + s[1..];
    forall e ensures e in es - {s[0]} <==> e in s[1..] {
      if e in s[1..] {
        var i :| 0 <= i < |s[1..]| && s[1..][i] == e;
        assert Less(Key(s[0]), Key(s[i + 1]));
      }
    }
  }

  lemma KeyShape(e: Entry)
    requires SLASH !in e.name
    ensures SLASH in Key(e) <==> e.mode.Subtree?
    ensures Key(e)[..|Key(e)| - if e.mode.Subtree? then 1 else 0] == e.name
  {
    if e.mode.Subtree? {
      assert Key(e)[|e.name|] == SLASH;
    } else {
      assert Key(e) == e.name;
    }
  }

  lemma KeyDeterminesName(e: Entry, f: Entry)
    requires SLASH !in e.name && SLASH !in f.name && Key(e) == Key(f)
    ensures e.name == f.name
  {
    KeyShape(e);
    KeyShape(f);
  }

  /** Sorting distinctly named entries gives the listing of their set. */
  lemma SortedListing(s: seq<Entry>, es: set<Entry>)
    requires forall i :: 0 <= i < |s| ==> SLASH !in s[i].name
    requires forall i, j :: 0 <= i < j < |s| ==> s[i].name != s[j].name
    requires forall e :: e in es <==> e in s
    ensures SortEntries(s) == Listing(es)
  {
    forall i, j | 0 <= i < j < |s| ensures Key(s[i]) != Key(s[j]) {
      if Key(s[i]) == Key(s[j]) {
        KeyDeterminesName(s[i], s[j]);
      }
    }
    SortKeepsDistinct(s);
    forall e ensures e in es <==> e in SortEntries(s) {
      MembersOf(SortEntries(s), s, e);
    }
    assert IsListing(SortEntries(s), es);
    ListingIsUnique(SortEntries(s), Listing(es), es);
  }

  // ---- Collecting the members --------------------------------------------

  /** A row of a directory while it is being collected; its name is not encoded yet. */
  datatype Row = Row(name: Name, mode: Mode, oid: Bytes)

  type Nodes = map<Path, seq<Row>>

  ghost predicate Collected(c: Codec, members: seq<Member>, nodes: Nodes) {
    && (forall d :: d in nodes <==> HasDir(c, members, d))
    && (forall d, r :: d in nodes ==> (r in nodes[d] <==> HasLeaf(c, members, d + [r.name], Leaf(r.mode, r.oid))))
    && (forall d, i, j :: d in nodes && 0 <= i < j < |nodes[d]| ==> nodes[d][i].name != nodes[d][j].name)
  }

  lemma DirExtend(c: Codec, members: seq<Member>, m: Member, p: Path)
    ensures HasDir(c, members + [m], p) <==>
            HasDir(c, members, p) || ProperPrefix(p, m.parts) || (m.parts == p && MemberLeaf(c, m) == Ok(None))
  {
    assert forall x :: x in members + [m] <==> x in members || x == m;
  }

  lemma LeafExtend(c: Codec, members: seq<Member>, m: Member, p: Path, leaf: Leaf)
    ensures HasLeaf(c, members + [m], p, leaf) <==>
            HasLeaf(c, members, p, leaf) || (m.parts == p && MemberLeaf(c, m) == Ok(Some(leaf)))
  {
    assert forall x :: x in members + [m] <==> x in members || x == m;
  }

  /** Registers every proper ancestor of a member, keeping rows already collected. */
  method AddAncestors(parts: Path, nodes: Nodes) returns (filled: Nodes)
    requires [] in nodes
    ensures forall d :: d in filled <==> d in nodes || ProperPrefix(d, parts)
    ensures forall d :: d in filled ==> filled[d] == if d in nodes then nodes[d] else []
  {
    filled := nodes;
    var index := 1;
    while index < |parts|
      invariant 1 <= index
      invariant forall d :: d in filled <==> d in nodes || (ProperPrefix(d, parts) && |d| < index)
      invariant forall d :: d in filled ==> filled[d] == if d in nodes then nodes[d] else []
    {
      var d := parts[..index];
      if d !in filled {
        filled := filled[d := []];
      }
      index := index + 1;
    }
  }

  method CollectMember(c: Codec, ghost members: seq<Member>, m: Member, nodes: Nodes) returns (r: Result<Nodes, Error>)
    requires Collected(c, members, nodes) && DistinctPaths(members + [m])
    ensures r.Ok? <==> MemberLeaf(c, m).Ok?
    ensures r.Ok? ==> Collected(c, members + [m], r.value)
  {
    assert HasDir(c, members, []);
    var filled := AddAncestors(m.parts, nodes);
    match MemberLeaf(c, m) {
      case Err(error) =>
        return Err(error);
      case Ok(None) =>
        if m.parts !in filled {
          filled := filled[m.parts := []];
        }
      case Ok(Some(leaf)) =>
        var parent, name := m.parts[..|m.parts| - 1], m.parts[|m.parts| - 1];
        assert ProperPrefix(parent, m.parts);
        filled := filled[parent := filled[parent] + [Row(name, leaf.mode, leaf.oid)]];
    }
    assert forall d :: d in filled ==> filled[d] == RowsAfter(c, m, nodes, d);
    CollectedExtends(c, members, m, nodes, filled);
    return Ok(filled);
  }

  ghost function RowsAfter(c: Codec, m: Member, nodes: Nodes, d: Path): seq<Row> {
    (if d in nodes then nodes[d] else []) +
    match MemberLeaf(c, m)
    case Ok(Some(leaf)) => if m.parts[..|m.parts| - 1] == d then [Row(m.parts[|m.parts| - 1], leaf.mode, leaf.oid)] else []
    case _ => []
  }

  lemma CollectedExtends(c: Codec, members: seq<Member>, m: Member, nodes: Nodes, filled: Nodes)
    requires Collected(c, members, nodes) && DistinctPaths(members + [m]) && MemberLeaf(c, m).Ok?
    requires forall d :: d in filled <==>
                         d in nodes || ProperPrefix(d, m.parts) || (d == m.parts && MemberLeaf(c, m) == Ok(None))
    requires forall d :: d in filled ==> filled[d] == RowsAfter(c, m, nodes, d)
    ensures Collected(c, members + [m], filled)
  {
    forall d ensures d in filled <==> HasDir(c, members + [m], d) {
      DirExtend(c, members, m, d);
    }
    forall d, r | d in filled
      ensures r in filled[d] <==> HasLeaf(c, members + [m], d + [r.name], Leaf(r.mode, r.oid))
    {
      RowExtends(c, members, m, nodes, d, r);
    }
    forall d, i, j | d in filled && 0 <= i < j < |filled[d]| ensures filled[d][i].name != filled[d][j].name {
      NamesStayDistinct(c, members, m, nodes, d, i, j);
    }
  }

  lemma ParentOfLeaf(c: Codec, members: seq<Member>, d: Path, n: Name, leaf: Leaf)
    requires HasLeaf(c, members, d + [n], leaf)
    ensures HasDir(c, members, d)
  {
    var m :| m in members && m.parts == d + [n];
    assert ProperPrefix(d, m.parts);
  }

  lemma RowExtends(c: Codec, members: seq<Member>, m: Member, nodes: Nodes, d: Path, r: Row)
    requires Collected(c, members, nodes) && MemberLeaf(c, m).Ok?
    ensures r in RowsAfter(c, m, nodes, d) <==> HasLeaf(c, members + [m], d + [r.name], Leaf(r.mode, r.oid))
  {
    hide HasLeaf, HasDir, MemberLeaf, RowsAfter;
    var leaf := Leaf(r.mode, r.oid);
    LeafExtend(c, members, m, d + [r.name], leaf);
    if HasLeaf(c, members, d + [r.name], leaf) {
      ParentOfLeaf(c, members, d, r.name, leaf);
    }
    NewRow(c, m, nodes, d, r);
  }

  /** The rows after a member are the rows before it and the member's own, if it lies in `d`. */
  lemma NewRow(c: Codec, m: Member, nodes: Nodes, d: Path, r: Row)
    requires MemberLeaf(c, m).Ok?
    ensures r in RowsAfter(c, m, nodes, d) <==>
      (d in nodes && r in nodes[d])
      || (m.parts == d + [r.name] && MemberLeaf(c, m) == Ok(Some(Leaf(r.mode, r.oid))))
  {
    LeafHasName(c, m);
    hide MemberLeaf;
    if m.parts != [] {
      assert m.parts == m.parts[..|m.parts| - 1] + [m.parts[|m.parts| - 1]];
    }
    assert m.parts == d + [r.name] ==> m.parts[..|m.parts| - 1] == d && m.parts[|m.parts| - 1] == r.name;
  }

  lemma NewPathIsFresh(c: Codec, members: seq<Member>, m: Member, p: Path, leaf: Leaf)
    requires DistinctPaths(members + [m]) && HasLeaf(c, members, p, leaf)
    ensures m.parts != p
  {
    var x :| x in members && x.parts == p;
    var k :| 0 <= k < |members| && members[k] == x;
    assert (members + [m])[k].parts != (members + [m])[|members|].parts;
  }

  /** A row beyond those already collected belongs to the new member. */
  lemma LastRow(c: Codec, m: Member, nodes: Nodes, d: Path)
    requires d in nodes && |RowsAfter(c, m, nodes, d)| > |nodes[d]|
    ensures |RowsAfter(c, m, nodes, d)| == |nodes[d]| + 1
    ensures m.parts == d + [RowsAfter(c, m, nodes, d)[|nodes[d]|].name]
  {
    hide MemberLeaf;
    assert m.parts != [] by { LeafHasName(c, m); }
    assert m.parts == m.parts[..|m.parts| - 1] + [m.parts[|m.parts| - 1]];
  }

  lemma LeafHasName(c: Codec, m: Member)
    ensures MemberLeaf(c, m).Ok? && MemberLeaf(c, m).value.Some? ==> m.parts != []
  {
  }

  lemma RowsBefore(c: Codec, m: Member, nodes: Nodes, d: Path)
    ensures |RowsAfter(c, m, nodes, d)| <= (if d in nodes then |nodes[d]| else 0) + 1
    ensures d in nodes ==> |nodes[d]| <= |RowsAfter(c, m, nodes, d)|
    ensures d in nodes ==> forall i :: 0 <= i < |nodes[d]| ==> RowsAfter(c, m, nodes, d)[i] == nodes[d][i]
  {
    hide MemberLeaf;
  }

  lemma NamesStayDistinct(c: Codec, members: seq<Member>, m: Member, nodes: Nodes, d: Path, i: nat, j: nat)
    requires Collected(c, members, nodes) && DistinctPaths(members + [m]) && MemberLeaf(c, m).Ok?
    requires i < j < |RowsAfter(c, m, nodes, d)|
    ensures RowsAfter(c, m, nodes, d)[i].name != RowsAfter(c, m, nodes, d)[j].name
  {
    hide RowsAfter, MemberLeaf, DistinctPaths, HasLeaf, HasDir;
    RowsBefore(c, m, nodes, d);
    if j == |nodes[d]| {
      LastRow(c, m, nodes, d);
      var r := nodes[d][i];
      assert r in nodes[d];
      NewPathIsFresh(c, members, m, d + [r.name], Leaf(r.mode, r.oid));
    }
  }

  // ---- Hashing the directories, deepest first ----------------------------

  /** The directory at `d`, whatever else may claim the same path. */
  ghost function DirAt(c: Codec, members: seq<Member>, d: Path): Tree {
    Dir(map n | n in ChildNames(members, d) :: TreeAt(c, members, d + [n]))
  }

  ghost predicate RowsFor(c: Codec, members: seq<Member>, d: Path, rows: seq<Row>) {
    && (forall r :: r in rows <==>
          if r.mode.Subtree? then HasDir(c, members, d + [r.name]) && r.oid == TreeHash(c, DirAt(c, members, d + [r.name]))
          else HasLeaf(c, members, d + [r.name], Leaf(r.mode, r.oid)))
    && (forall i, j :: 0 <= i < j < |rows| && rows[i].name == rows[j].name ==> rows[i].mode.Subtree? != rows[j].mode.Subtree?)
  }

  ghost predicate Hashed(c: Codec, members: seq<Member>, hashes: map<Path, Bytes>) {
    forall d :: d in hashes ==> HasDir(c, members, d) && hashes[d] == TreeHash(c, DirAt(c, members, d))
  }

  predicate RowsEncodable(c: Codec, rows: seq<Row>) {
    && (forall i :: 0 <= i < |rows| ==> c.encode(rows[i].name).Some?)
    && (forall i, j :: 0 <= i < j < |rows| ==> c.encode(rows[i].name) != c.encode(rows[j].name))
  }

  function EntryOf(c: Codec, r: Row): Entry {
    Entry(Encoded(c, r.name), r.mode, r.oid)
  }

  /** Encodes the names of one directory, refusing a repeated byte name. */
  method EncodeRows(c: Codec, rows: seq<Row>) returns (r: Result<seq<Entry>, Error>)
    ensures r.Ok? <==> RowsEncodable(c, rows)
    ensures r.Ok? ==> |r.value| == |rows| && forall i :: 0 <= i < |rows| ==> r.value[i] == EntryOf(c, rows[i])
  {
    var names: set<Bytes>, entries := {}, [];
    for k := 0 to |rows|
      invariant RowsEncodable(c, rows[..k])
      invariant names == set i | 0 <= i < k :: Encoded(c, rows[i].name)
      invariant |entries| == k && forall i :: 0 <= i < k ==> entries[i] == EntryOf(c, rows[i])
    {
      match c.encode(rows[k].name) {
        case None =>
          return Err(Unencodable);
        case Some(encoded) =>
          if encoded in names {
            var i :| 0 <= i < k && Encoded(c, rows[i].name) == encoded;
            assert c.encode(rows[i].name) == Some(Encoded(c, rows[..k][i].name));
            return Err(DuplicateName);
          }
          assert forall i :: 0 <= i < k ==> rows[..k + 1][i] == rows[..k][i] && Encoded(c, rows[i].name) in names;
          names := names + {encoded};
          entries := entries + [EntryOf(c, rows[k])];
      }
    }
    assert rows[..|rows|] == rows;
    return Ok(entries);
  }

  /** Appends one row per child directory, whose hash is already known. */
  method AddSubtrees(c: Codec, ghost members: seq<Member>, nodes: Nodes, hashes: map<Path, Bytes>, d: Path)
    returns (rows: seq<Row>)
    requires Collected(c, members, nodes) && d in nodes && Hashed(c, members, hashes)
    requires forall e :: e in nodes && |e| == |d| + 1 && e[..|d|] == d ==> e in hashes
    ensures RowsFor(c, members, d, rows)
  {
    var all := set e | e in nodes && |e| == |d| + 1 && e[..|d|] == d :: e[|d|];
    ChildDirectories(c, members, nodes, d, all);
    var extra := SubtreeRows(hashes, d, all);
    rows := nodes[d] + extra;
    RowsComplete(c, members, nodes, hashes, d, all, extra);
  }

  method SubtreeRows(hashes: map<Path, Bytes>, d: Path, names: set<Name>) returns (extra: seq<Row>)
    requires forall n :: n in names ==> d + [n] in hashes
    ensures forall i :: 0 <= i < |extra| ==> SubtreeRow(hashes, d, extra[i]) && extra[i].name in names
    ensures forall n :: n in names ==> Row(n, Subtree, hashes[d + [n]]) in extra
    ensures forall i, j :: 0 <= i < j < |extra| ==> extra[i].name != extra[j].name
  {
    var pending := names;
    extra := [];
    while pending != {}
      invariant pending <= names
      invariant forall i :: 0 <= i < |extra| ==> SubtreeRow(hashes, d, extra[i]) && extra[i].name in names - pending
      invariant forall n :: n in names - pending ==> Row(n, Subtree, hashes[d + [n]]) in extra
      invariant forall i, j :: 0 <= i < j < |extra| ==> extra[i].name != extra[j].name
    {
      var name :| name in pending;
      var row := Row(name, Subtree, hashes[d + [name]]);
      assert forall r :: r in extra + [row] <==> r in extra || r == row;
      extra := extra + [row];
      pending := pending - {name};
    }
  }

  predicate SubtreeRow(hashes: map<Path, Bytes>, d: Path, r: Row) {
    r.mode.Subtree? && d + [r.name] in hashes && r.oid == hashes[d + [r.name]]
  }

  lemma ChildDirectories(c: Codec, members: seq<Member>, nodes: Nodes, d: Path, all: set<Name>)
    requires Collected(c, members, nodes)
    requires all == set e | e in nodes && |e| == |d| + 1 && e[..|d|] == d :: e[|d|]
    ensures forall n :: n in all <==> HasDir(c, members, d + [n])
    ensures forall n :: n in all ==> d + [n] in nodes && |d + [n]| == |d| + 1 && (d + [n])[..|d|] == d
  {
    forall n ensures n in all <==> HasDir(c, members, d + [n]) {
      if n in all {
        var e :| e in nodes && |e| == |d| + 1 && e[..|d|] == d && e[|d|] == n;
        assert e == d + [n];
      }
      if HasDir(c, members, d + [n]) {
        assert (d + [n])[..|d|] == d && (d + [n])[|d|] == n;
      }
    }
    forall n | n in all
      ensures d + [n] in nodes && |d + [n]| == |d| + 1 && (d + [n])[..|d|] == d
    {
      assert HasDir(c, members, d + [n]);
    }
  }

  lemma RowsComplete(c: Codec, members: seq<Member>, nodes: Nodes, hashes: map<Path, Bytes>, d: Path, all: set<Name>, extra: seq<Row>)
    requires Collected(c, members, nodes) && d in nodes && Hashed(c, members, hashes)
    requires forall n :: n in all <==> HasDir(c, members, d + [n])
    requires forall n :: n in all ==> d + [n] in hashes && Row(n, Subtree, hashes[d + [n]]) in extra
    requires forall i :: 0 <= i < |extra| ==> SubtreeRow(hashes, d, extra[i]) && extra[i].name in all
    requires forall i, j :: 0 <= i < j < |extra| ==> extra[i].name != extra[j].name
    ensures RowsFor(c, members, d, nodes[d] + extra)
  {
    var rows := nodes[d] + extra;
    LeafRowsAreNotSubtrees(c, members, nodes, d);
    forall r
      ensures r in rows <==>
              if r.mode.Subtree? then HasDir(c, members, d + [r.name]) && r.oid == TreeHash(c, DirAt(c, members, d + [r.name]))
              else HasLeaf(c, members, d + [r.name], Leaf(r.mode, r.oid))
    {
      assert r in rows <==> r in nodes[d] || r in extra;
    }
  }

  lemma LeafRowsAreNotSubtrees(c: Codec, members: seq<Member>, nodes: Nodes, d: Path)
    requires Collected(c, members, nodes) && d in nodes
    ensures forall r :: r in nodes[d] ==> !r.mode.Subtree?
  {
    forall r | r in nodes[d] ensures !r.mode.Subtree? {
      assert HasLeaf(c, members, d + [r.name], Leaf(r.mode, r.oid));
    }
  }

  lemma ChildHasRow(c: Codec, members: seq<Member>, d: Path, rows: seq<Row>, n: Name) returns (i: nat)
    requires forall m :: m in members ==> MemberLeaf(c, m).Ok?
    requires RowsFor(c, members, d, rows) && n in ChildNames(members, d)
    ensures i < |rows| && rows[i].name == n
  {
    ChildIsNode(c, members, d, n);
    var r: Row;
    if HasDir(c, members, d + [n]) {
      r := Row(n, Subtree, TreeHash(c, DirAt(c, members, d + [n])));
    } else {
      var leaf :| HasLeaf(c, members, d + [n], leaf);
      r := Row(n, leaf.mode, leaf.oid);
    }
    assert r in rows;
    i :| 0 <= i < |rows| && rows[i] == r;
  }

  lemma RowIsChild(c: Codec, members: seq<Member>, d: Path, rows: seq<Row>, i: nat)
    requires forall m :: m in members ==> MemberLeaf(c, m).Ok?
    requires RowsFor(c, members, d, rows) && i < |rows|
    ensures rows[i].name in ChildNames(members, d)
  {
    assert rows[i] in rows;
    ChildIsNode(c, members, d, rows[i].name);
  }

  lemma CollisionHasTwoRows(c: Codec, members: seq<Member>, d: Path, rows: seq<Row>, n: Name) returns (i: nat, j: nat)
    requires RowsFor(c, members, d, rows) && Collides(c, members, d + [n])
    ensures i < j < |rows| && rows[i].name == rows[j].name
  {
    var leaf :| HasLeaf(c, members, d + [n], leaf);
    LeafModeIsPlain(c, members, d + [n], leaf);
    var r, r' := Row(n, leaf.mode, leaf.oid), Row(n, Subtree, TreeHash(c, DirAt(c, members, d + [n])));
    assert r in rows && r' in rows;
    i :| 0 <= i < |rows| && rows[i] == r;
    j :| 0 <= j < |rows| && rows[j] == r';
    if j < i {
      i, j := j, i;
    }
  }

  lemma LeafModeIsPlain(c: Codec, members: seq<Member>, p: Path, leaf: Leaf)
    requires HasLeaf(c, members, p, leaf)
    ensures !leaf.mode.Subtree?
  {
  }

  lemma EncodableMeansDirectoryOk(c: Codec, members: seq<Member>, d: Path, rows: seq<Row>)
    requires forall m :: m in members ==> MemberLeaf(c, m).Ok?
    requires RowsFor(c, members, d, rows) && RowsEncodable(c, rows)
    ensures DirectoryOk(c, members, d)
  {
    forall n | n in ChildNames(members, d) ensures c.encode(n).Some? && !Collides(c, members, d + [n]) {
      var k := ChildHasRow(c, members, d, rows, n);
      if Collides(c, members, d + [n]) {
        var i, j := CollisionHasTwoRows(c, members, d, rows, n);
      }
    }
    forall n, n' | n in ChildNames(members, d) && n' in ChildNames(members, d) && n != n'
      ensures c.encode(n) != c.encode(n')
    {
      var i := ChildHasRow(c, members, d, rows, n);
      var j := ChildHasRow(c, members, d, rows, n');
    }
  }

  lemma DirectoryOkMeansEncodable(c: Codec, members: seq<Member>, d: Path, rows: seq<Row>)
    requires forall m :: m in members ==> MemberLeaf(c, m).Ok?
    requires RowsFor(c, members, d, rows) && DirectoryOk(c, members, d)
    ensures RowsEncodable(c, rows)
  {
    forall i | 0 <= i < |rows| ensures c.encode(rows[i].name).Some? {
      RowIsChild(c, members, d, rows, i);
    }
    forall i, j | 0 <= i < j < |rows| ensures c.encode(rows[i].name) != c.encode(rows[j].name) {
      RowIsChild(c, members, d, rows, i);
      RowIsChild(c, members, d, rows, j);
      assert rows[i] in rows && rows[j] in rows;
      if rows[i].name == rows[j].name {
        assert Collides(c, members, d + [rows[i].name]);
      }
    }
  }

  /** What the recursive hash lists for one child. */
  ghost function ChildEntry(c: Codec, t: Tree, n: Name): Entry
    requires t.Dir? && n in t.children
  {
    Entry(Encoded(c, n), TreeMode(t.children[n]), TreeHash(c, t.children[n]))
  }

  lemma RowMatchesChild(c: Codec, members: seq<Member>, d: Path, rows: seq<Row>, r: Row)
    requires DistinctPaths(members)
    requires forall m :: m in members ==> MemberLeaf(c, m).Ok?
    requires RowsFor(c, members, d, rows) && DirectoryOk(c, members, d) && r in rows
    ensures r.name in ChildNames(members, d)
    ensures EntryOf(c, r) == ChildEntry(c, DirAt(c, members, d), r.name)
  {
    var p := d + [r.name];
    ChildIsNode(c, members, d, r.name);
    if r.mode.Subtree? {
      assert !exists leaf :: HasLeaf(c, members, p, leaf);
      assert TreeAt(c, members, p) == DirAt(c, members, p);
    } else {
      LeafIsUnique(c, members, p, Leaf(r.mode, r.oid), TreeAt(c, members, p).leaf);
    }
  }

  lemma RowsMatchTree(c: Codec, members: seq<Member>, d: Path, rows: seq<Row>, entries: seq<Entry>)
    requires DistinctPaths(members)
    requires forall m :: m in members ==> MemberLeaf(c, m).Ok?
    requires RowsFor(c, members, d, rows) && DirectoryOk(c, members, d)
    requires |entries| == |rows| && forall i :: 0 <= i < |rows| ==> entries[i] == EntryOf(c, rows[i])
    ensures forall e :: e in entries <==>
              e in set n | n in ChildNames(members, d) :: ChildEntry(c, DirAt(c, members, d), n)
  {
    var t := DirAt(c, members, d);
    forall i | 0 <= i < |rows|
      ensures rows[i].name in ChildNames(members, d) && entries[i] == ChildEntry(c, t, rows[i].name)
    {
      assert rows[i] in rows;
      RowMatchesChild(c, members, d, rows, rows[i]);
    }
    forall n | n in ChildNames(members, d) ensures ChildEntry(c, t, n) in entries {
      var i := ChildHasRow(c, members, d, rows, n);
      assert entries[i] == ChildEntry(c, t, n);
    }
  }

  method HashDirectory(c: Codec, ghost members: seq<Member>, nodes: Nodes, hashes: map<Path, Bytes>, d: Path)
    returns (r: Result<Bytes, Error>)
    requires SlashFree(c) && DistinctPaths(members)
    requires forall m :: m in members ==> MemberLeaf(c, m).Ok?
    requires Collected(c, members, nodes) && d in nodes && Hashed(c, members, hashes)
    requires forall e :: e in nodes && |e| == |d| + 1 && e[..|d|] == d ==> e in hashes
    ensures r.Ok? <==> DirectoryOk(c, members, d)
    ensures r.Ok? ==> r.value == TreeHash(c, DirAt(c, members, d))
  {
    var rows := AddSubtrees(c, members, nodes, hashes, d);
    var encoded := EncodeRows(c, rows);
    match encoded {
      case Err(error) =>
        if DirectoryOk(c, members, d) {
          DirectoryOkMeansEncodable(c, members, d, rows);
        }
        return Err(error);
      case Ok(entries) =>
        EncodableMeansDirectoryOk(c, members, d, rows);
        HashOfRows(c, members, d, rows, entries);
        return Ok(c.hash("tree", Body(SortEntries(entries))));
    }
  }

  lemma HashOfRows(c: Codec, members: seq<Member>, d: Path, rows: seq<Row>, entries: seq<Entry>)
    requires SlashFree(c) && DistinctPaths(members)
    requires forall m :: m in members ==> MemberLeaf(c, m).Ok?
    requires RowsFor(c, members, d, rows) && DirectoryOk(c, members, d) && RowsEncodable(c, rows)
    requires |entries| == |rows| && forall i :: 0 <= i < |rows| ==> entries[i] == EntryOf(c, rows[i])
    ensures c.hash("tree", Body(SortEntries(entries))) == TreeHash(c, DirAt(c, members, d))
  {
    var t := DirAt(c, members, d);
    var es := set n | n in t.children :: ChildEntry(c, t, n);
    assert es == set n | n in ChildNames(members, d) :: ChildEntry(c, t, n);
    RowsMatchTree(c, members, d, rows, entries);
    SortedListing(entries, es);
    assert es == set n | n in t.children :: Entry(Encoded(c, n), TreeMode(t.children[n]), TreeHash(c, t.children[n]));
  }

  method Deepest(keys: set<Path>) returns (d: Path)
    requires keys != {}
    ensures d in keys && forall e :: e in keys ==> |e| <= |d|
  {
    d :| d in keys;
    var rest := keys - {d};
    while rest != {}
      invariant rest <= keys && d in keys
      invariant forall e :: e in keys - rest ==> |e| <= |d|
    {
      var e :| e in rest;
      if |e| > |d| {
        d := e;
      }
      rest := rest - {e};
    }
  }

  ghost predicate LeavesOk(c: Codec, members: seq<Member>) { forall m :: m in members ==> MemberLeaf(c, m).Ok? }

  lemma OneMoreMember(c: Codec, members: seq<Member>, k: nat)
    requires k < |members| && LeavesOk(c, members[..k]) && MemberLeaf(c, members[k]).Ok?
    ensures LeavesOk(c, members[..k + 1]) && members[..k + 1] == members[..k] + [members[k]]
  {
  }

  /** The first pass: every member once, its ancestors and its row. */
  method CollectMembers(c: Codec, members: seq<Member>) returns (r: Result<Nodes, Error>)
    ensures r.Ok? <==> DistinctPaths(members) && LeavesOk(c, members)
    ensures r.Ok? ==> Collected(c, members, r.value)
  {
    hide MemberLeaf, Collected;
    var nodes: Nodes, seen: set<Path> := map[[] := []], {};
    NothingCollected(c, members);
    for k := 0 to |members|
      invariant DistinctPaths(members[..k]) && Collected(c, members[..k], nodes) && LeavesOk(c, members[..k])
      invariant seen == set i | 0 <= i < k :: members[i].parts
    {
      if members[k].parts in seen {
        return Err(DuplicatePath);
      }
      assert forall i :: 0 <= i < k ==> members[i].parts in seen;
      assert members[..k + 1] == members[..k] + [members[k]];
      seen := seen + {members[k].parts};
      var added := CollectMember(c, members[..k], members[k], nodes);
      if added.Err? {
        assert members[k] in members;
        return Err(added.error);
      }
      OneMoreMember(c, members, k);
      nodes := added.value;
    }
    assert members[..|members|] == members;
    r := Ok(nodes);
  }

  lemma NothingCollected(c: Codec, members: seq<Member>)
    ensures Collected(c, members[..0], map[[] := []])
  {
    hide MemberLeaf;
    assert HasDir(c, members[..0], []);
  }

  /** The identifier of the archived tree. It is accepted exactly when the
      members describe a tree, and then it is the recursive Git hash of that tree. */
  method TreeHashFromTar(c: Codec, members: seq<Member>) returns (r: Result<Bytes, Error>)
    requires SlashFree(c)
    ensures r.Ok? <==> Acceptable(c, members)
    ensures r.Ok? ==> r.value == TreeHash(c, TreeAt(c, members, []))
  {
    hide MemberLeaf, DirectoryOk, DistinctPaths;
    var collected := CollectMembers(c, members);
    if collected.Err? {
      return Err(collected.error);
    }
    assert HasDir(c, members, []);
    r := HashAll(c, members, collected.value);
    if r.Ok? {
      NoLeafAtDir(c, members, []);
      assert TreeAt(c, members, []) == DirAt(c, members, []);
    }
  }

  method HashAll(c: Codec, ghost members: seq<Member>, nodes: Nodes) returns (r: Result<Bytes, Error>)
    requires SlashFree(c) && DistinctPaths(members) && Collected(c, members, nodes) && [] in nodes
    requires forall m :: m in members ==> MemberLeaf(c, m).Ok?
    ensures r.Ok? <==> Acceptable(c, members)
    ensures r.Ok? ==> r.value == TreeHash(c, DirAt(c, members, []))
  {
    var hashes: map<Path, Bytes>, remaining := map[], nodes.Keys;
    while remaining != {}
      invariant remaining <= nodes.Keys && hashes.Keys == nodes.Keys - remaining
      invariant Hashed(c, members, hashes)
      invariant forall d, e :: d in remaining && e in hashes ==> |d| <= |e|
      invariant forall d :: d in hashes ==> DirectoryOk(c, members, d)
    {
      var d := Deepest(remaining);
      var hashed := HashDirectory(c, members, nodes, hashes, d);
      if hashed.Err? {
        return Err(hashed.error);
      }
      hashes := hashes[d := hashed.value];
      remaining := remaining - {d};
    }
    return Ok(hashes[[]]);
  }

  // ---- What acceptance means ---------------------------------------------

  /** The result does not depend on which representation of the archive one has in mind. */
  lemma HashOfRepresentedTree(c: Codec, members: seq<Member>, t: Tree)
    requires Acceptable(c, members) && Represents(c, t, members)
    ensures TreeHash(c, t) == TreeHash(c, TreeAt(c, members, []))
  {
    RepresentedTreeIsUnique(c, members, t);
  }

  /** Nothing is stored underneath a file, a link or a submodule. */
  lemma NothingBelowLeaf(c: Codec, members: seq<Member>, p: Path, leaf: Leaf, m: Member)
    requires Acceptable(c, members) && HasLeaf(c, members, p, leaf) && m in members
    ensures !ProperPrefix(p, m.parts)
  {
    if ProperPrefix(p, m.parts) {
      assert HasDir(c, members, p);
      NoLeafAtDir(c, members, p);
    }
  }

  lemma DistinctUnderPermutation(members: seq<Member>, others: seq<Member>)
    requires multiset(members) == multiset(others) && DistinctPaths(members)
    ensures DistinctPaths(others)
  {
    forall i, j | 0 <= i < j < |others| ensures others[i].parts != others[j].parts {
      var a, b := others[i], others[j];
      assert a in multiset(others) && b in multiset(others);
      var k :| 0 <= k < |members| && members[k] == a;
      var l :| 0 <= l < |members| && members[l] == b;
      if k == l {
        RepeatedMember(others, i, j);
        OnceInDistinct(members, k);
      }
    }
  }

  lemma RepeatedMember(members: seq<Member>, i: nat, j: nat)
    requires i < j < |members| && members[i] == members[j]
    ensures multiset(members)[members[i]] >= 2
  {
    assert members == members[..i] + [members[i]] + members[i + 1..j] + [members[j]] + members[j + 1..];
  }

  lemma OnceInDistinct(members: seq<Member>, k: nat)
    requires DistinctPaths(members) && k < |members|
    ensures multiset(members)[members[k]] == 1
  {
    assert members == members[..k] + [members[k]] + members[k + 1..];
    assert members[k] !in members[..k] && members[k] !in members[k + 1..];
    assert members[k] !in multiset(members[..k]) && members[k] !in multiset(members[k + 1..]);
  }

  /** Reordering the members of an archive changes neither its acceptance nor its hash. */
  lemma OrderIsIrrelevant(c: Codec, members: seq<Member>, others: seq<Member>)
    requires multiset(members) == multiset(others) && Acceptable(c, members)
    ensures Acceptable(c, others)
    ensures TreeHash(c, TreeAt(c, others, [])) == TreeHash(c, TreeAt(c, members, []))
  {
    SameMembers(members, others);
    DistinctUnderPermutation(members, others);
    SameStructure(c, members, others);
    AcceptedRepresentsTree(c, members);
    HashOfRepresentedTree(c, others, TreeAt(c, members, []));
  }

  lemma SameMembers(members: seq<Member>, others: seq<Member>)
    requires multiset(members) == multiset(others)
    ensures forall m :: m in members <==> m in others
  {
    forall m ensures m in members <==> m in others {
      assert m in members <==> m in multiset(members);
      assert m in others <==> m in multiset(others);
    }
  }

  lemma SameStructure(c: Codec, members: seq<Member>, others: seq<Member>)
    requires forall m :: m in members <==> m in others
    ensures forall p, leaf :: HasLeaf(c, members, p, leaf) <==> HasLeaf(c, others, p, leaf)
    ensures forall p :: HasDir(c, members, p) <==> HasDir(c, others, p)
    ensures forall d :: ChildNames(members, d) == ChildNames(others, d)
    ensures forall d :: DirectoryOk(c, members, d) <==> DirectoryOk(c, others, d)
  {
    assert forall p, leaf :: HasLeaf(c, members, p, leaf) <==> HasLeaf(c, others, p, leaf);
    assert forall p :: HasDir(c, members, p) <==> HasDir(c, others, p);
    assert forall p :: Collides(c, members, p) <==> Collides(c, others, p);
  }
}
