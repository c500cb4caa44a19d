/** The archive builder and the archive verifier: one index over three content policies. */
module Archive {
  import opened Common
  import opened StableSort
  import ArchiveTree

  const MAX_FILE_BYTES: nat := ArchiveTree.MAX_FILE_BYTES
  const MAX_ARCHIVE_BYTES: nat := 512 * 1024 * 1024
  const INDEX: string := "archive-index.json"
  const RECEIPT: string := "archive-receipt.json"
  const AUDIT: string := "audit/"

  datatype Policy = Full | Redacted | HashOnly

  datatype Entry = Entry(path: string, sha: Digest, size: nat, policy: Policy)

  datatype Omission = Omission(path: string, reason: string)

  /** One call of the builder. */
  datatype Item = Item(logical: string, content: Bytes, sensitive: bool, forced: bool)

  type Contents = map<string, Bytes>

  datatype Builder = Builder(
    entries: seq<Entry>, omissions: seq<Omission>, seen: set<string>, physical: set<string>, total: nat, stage: Contents)

  datatype Index = Index(header: int, policy: Policy, entries: seq<Entry>, omissions: seq<Omission>)

  datatype Receipt = Receipt(header: int, index: Digest, contentRoot: Digest, entryCount: nat)

  /** Hashing, path safety, the redaction placeholder, the two file codecs and path order. */
  datatype Env = Env(
    sha: Bytes -> Digest, safe: string -> bool, placeholder: (string, Digest, nat) -> Bytes,
    rootDigest: seq<Entry> -> Digest, encodeIndex: Index -> Bytes, decodeIndex: Bytes -> Option<Index>,
    encodeReceipt: Receipt -> Bytes, decodeReceipt: Bytes -> Option<Receipt>, le: (string, string) -> bool)

  ghost predicate EnvOk(env: Env) {
    && (forall i :: env.decodeIndex(env.encodeIndex(i)) == Some(i))
    && (forall r :: env.decodeReceipt(env.encodeReceipt(r)) == Some(r))
    && (forall p :: env.safe(p) ==> env.safe(RedactedName(p)))
    && (forall p, d, n :: |env.placeholder(p, d, n)| <= MAX_FILE_BYTES)
    && TotalOrder(env.le)
  }

  function RedactedName(logical: string): string { "redacted/" + logical + ".json" }

  predicate Audited(path: string) { AUDIT <= path }

  function PathOf(e: Entry): string { e.path }

  function OmissionKey(o: Omission): Omission { o }

  /** Omissions are listed by path, then by reason. */
  function OmissionOrder(env: Env): (Omission, Omission) -> bool {
    (a: Omission, b: Omission) => if a.path == b.path then env.le(a.reason, b.reason) else env.le(a.path, b.path)
  }

  // ---- Building -----------------------------------------------------------

  function Selected(policy: Policy, item: Item): Policy { if item.forced || !item.sensitive then Full else policy }

  /** Where the archive holds the item, or would. */
  function PlacedAt(policy: Policy, item: Item): string {
    if Selected(policy, item).Redacted? then RedactedName(item.logical) else item.logical
  }

  function Store(env: Env, b: Builder, name: string, content: Bytes, selected: Policy): Option<Builder> {
    if name in b.physical || b.total + |content| > MAX_ARCHIVE_BYTES then None
    else Some(b.(
      physical := b.physical + {name}, stage := b.stage[name := content], total := b.total + |content|,
      entries := b.entries + [Entry(name, env.sha(content), |content|, selected)]))
  }

  function Add(env: Env, policy: Policy, b: Builder, item: Item): Option<Builder> {
    var name := item.logical;
    if !env.safe(name) || name in b.seen || |item.content| > MAX_FILE_BYTES then None
    else
      var marked := b.(seen := b.seen + {name});
      match Selected(policy, item)
      case Full => Store(env, marked, name, item.content, Full)
      case HashOnly =>
        Some(marked.(entries := b.entries + [Entry(name, env.sha(item.content), |item.content|, HashOnly)],
                     omissions := b.omissions + [Omission(name, "content policy hash-only")]))
      case Redacted =>
        Store(env, marked.(omissions := b.omissions + [Omission(name, "content policy redacted")]),
              RedactedName(name), env.placeholder(name, env.sha(item.content), |item.content|), Redacted)
  }

  const EMPTY: Builder := Builder([], [], {}, {}, 0, map[])

  function AddAll(env: Env, policy: Policy, b: Builder, items: seq<Item>): Option<Builder>
    decreases items
  {
    if items == [] then Some(b)
    else
      match Add(env, policy, b, items[0])
      case None => None
      case Some(next) => AddAll(env, policy, next, items[1..])
  }

  function IndexOf(env: Env, policy: Policy, header: int, b: Builder): Index {
    Index(header, policy, Sort(env.le, PathOf, b.entries), Sort(OmissionOrder(env), OmissionKey, b.omissions))
  }

  function ReceiptOf(env: Env, header: int, index: Index, root: Digest): Receipt {
    Receipt(header, env.sha(env.encodeIndex(index)), root, |index.entries|)
  }

  function ContentRoot(env: Env, entries: seq<Entry>): Digest { env.rootDigest(Sort(env.le, PathOf, entries)) }

  /** The standard files fix the content root; then come what is left out without being added,
      the audit files, the index and the receipt. */
  function Create(
      env: Env, policy: Policy, header: int, standard: seq<Item>, omitted: seq<Omission>, audit: seq<Item>): Option<Contents>
  {
    match AddAll(env, policy, EMPTY, standard)
    case None => None
    case Some(b) =>
      match AddAll(env, policy, b.(omissions := b.omissions + omitted), audit)
      case None => None
      case Some(all) => Some(Finished(env, policy, header, b, all))
  }

  function Finished(env: Env, policy: Policy, header: int, b: Builder, all: Builder): Contents {
    all.stage[INDEX := IndexBytes(env, policy, header, all)][RECEIPT := ReceiptBytes(env, policy, header, b, all)]
  }

  function IndexBytes(env: Env, policy: Policy, header: int, all: Builder): Bytes {
    env.encodeIndex(IndexOf(env, policy, header, all))
  }

  function ReceiptBytes(env: Env, policy: Policy, header: int, b: Builder, all: Builder): Bytes {
    env.encodeReceipt(ReceiptOf(env, header, IndexOf(env, policy, header, all), ContentRoot(env, b.entries)))
  }

  class ArchiveBuilder {
    const env: Env
    const policy: Policy
    var entries: seq<Entry>
    var omissions: seq<Omission>
    var seen: set<string>
    var physical: set<string>
    var total: nat
    var stage: Contents

    function Now(): Builder
      reads this
    {
      Builder(entries, omissions, seen, physical, total, stage)
    }

    constructor (env: Env, policy: Policy)
      ensures this.env == env && this.policy == policy && Now() == EMPTY
    {
      this.env, this.policy := env, policy;
      entries, omissions, seen, physical, total, stage := [], [], {}, {}, 0, map[];
    }

    /** On an error the whole archive is given up, so nothing is said of the fields then. */
    method AddBytes(item: Item) returns (ok: bool)
      modifies this
      ensures ok <==> Add(env, policy, old(Now()), item).Some?
      ensures ok ==> Now() == Add(env, policy, old(Now()), item).value
    {
      var name, content := item.logical, item.content;
      if !env.safe(name) || name in seen {
        return false;
      }
      seen := seen + {name};
      var sha, size := env.sha(content), |content|;
      if size > MAX_FILE_BYTES {
        return false;
      }
      var selected := if item.forced || !item.sensitive then Full else policy;
      if selected.HashOnly? {
        entries := entries + [Entry(name, sha, size, HashOnly)];
        omissions := omissions + [Omission(name, "content policy hash-only")];
        return true;
      }
      if selected.Redacted? {
        omissions := omissions + [Omission(name, "content policy redacted")];
        name, content := RedactedName(name), env.placeholder(name, sha, size);
      }
      if name in physical {
        return false;
      }
      physical, stage, total := physical + {name}, stage[name := content], total + |content|;
      if total > MAX_ARCHIVE_BYTES {
        return false;
      }
      entries := entries + [Entry(name, env.sha(content), |content|, selected)];
      ok := true;
    }
  }

  // ---- Verifying ----------------------------------------------------------

  predicate EntryOk(env: Env, contents: Contents, e: Entry) {
    && env.safe(e.path)
    && (!e.policy.HashOnly? ==>
          e.path in contents && |contents[e.path]| == e.size && env.sha(contents[e.path]) == e.sha)
  }

  function Stored(entries: seq<Entry>): set<string> {
    set i | 0 <= i < |entries| && !entries[i].policy.HashOnly? :: entries[i].path
  }

  /** The entries the content root covers, in index order. */
  function Standard(entries: seq<Entry>): seq<Entry> {
    if entries == [] then []
    else (if Audited(entries[0].path) then [] else [entries[0]]) + Standard(entries[1..])
  }

  predicate EntriesOk(env: Env, contents: Contents, entries: seq<Entry>) {
    DistinctKeys(PathOf, entries) && forall i :: 0 <= i < |entries| ==> EntryOk(env, contents, entries[i])
  }

  predicate OmissionsOk(env: Env, omissions: seq<Omission>) {
    forall i :: 0 <= i < |omissions| ==> omissions[i].reason != "" && env.safe(omissions[i].path)
  }

  predicate VerifyIndex(env: Env, contents: Contents, index: Index, r: Receipt) {
    && OmissionsOk(env, index.omissions) && EntriesOk(env, contents, index.entries)
    && contents.Keys == {INDEX, RECEIPT} + Stored(index.entries)
    && r.header == index.header && r.entryCount == |index.entries|
    && r.index == env.sha(contents[INDEX]) && r.contentRoot == ContentRoot(env, Standard(index.entries))
  }

  ghost function SizeOf(contents: Contents): nat {
    if contents == map[] then 0
    else
      var name :| name in contents;
      |contents[name]| + SizeOf(contents - {name})
  }

  /** The verifier reads every file under the same two limits. */
  ghost predicate Readable(contents: Contents) {
    (forall n :: n in contents ==> |contents[n]| <= MAX_FILE_BYTES) && SizeOf(contents) <= MAX_ARCHIVE_BYTES
  }

  ghost predicate Verify(env: Env, contents: Contents) {
    && Readable(contents) && INDEX in contents && RECEIPT in contents
    && env.decodeIndex(contents[INDEX]).Some? && env.decodeReceipt(contents[RECEIPT]).Some?
    && VerifyIndex(env, contents, env.decodeIndex(contents[INDEX]).value, env.decodeReceipt(contents[RECEIPT]).value)
  }

  /** What the loop has gathered from the first `n` entries. */
  ghost predicate Gathered(
      env: Env, contents: Contents, entries: seq<Entry>, n: nat, seen: set<string>, expected: set<string>,
      standard: seq<Entry>)
    requires n <= |entries|
  {
    && EntriesOk(env, contents, entries[..n]) && seen == Paths(entries[..n])
    && expected == {INDEX, RECEIPT} + Stored(entries[..n]) && standard == Standard(entries[..n])
  }

  function Paths(entries: seq<Entry>): set<string> { set i | 0 <= i < |entries| :: entries[i].path }

  lemma {:induction false} StandardSnoc(entries: seq<Entry>, e: Entry)
    ensures Standard(entries + [e]) == Standard(entries) + (if Audited(e.path) then [] else [e])
  {
    if entries == [] {
      assert [e][1..] == [];
    } else {
      assert (entries + [e])[1..] == entries[1..] + [e];
      StandardSnoc(entries[1..], e);
    }
  }

  lemma OneMoreEntry(env: Env, contents: Contents, front: seq<Entry>, e: Entry)
    requires EntriesOk(env, contents, front)
    ensures EntriesOk(env, contents, front + [e]) <==> e.path !in Paths(front) && EntryOk(env, contents, e)
    ensures Paths(front + [e]) == Paths(front) + {e.path}
    ensures Stored(front + [e]) == Stored(front) + (if e.policy.HashOnly? then {} else {e.path})
  {
    hide EntryOk;
    var longer := front + [e];
    assert forall i :: 0 <= i < |front| ==> longer[i] == front[i];
    assert longer[|front|] == e;
    SameStored(front, e);
  }

  lemma SameStored(front: seq<Entry>, e: Entry)
    ensures Stored(front + [e]) == Stored(front) + (if e.policy.HashOnly? then {} else {e.path})
  {
    var longer := front + [e];
    assert longer[|front|] == e;
    forall p ensures p in Stored(longer) <==> p in Stored(front) || (!e.policy.HashOnly? && p == e.path) {
      if p in Stored(front) {
        var i :| 0 <= i < |front| && !front[i].policy.HashOnly? && front[i].path == p;
        assert longer[i] == front[i];
      }
      if p in Stored(longer) {
        var i :| 0 <= i < |longer| && !longer[i].policy.HashOnly? && longer[i].path == p;
        assert i < |front| ==> front[i] == longer[i];
      }
    }
  }

  lemma PrefixesAreOk(env: Env, contents: Contents, entries: seq<Entry>, n: nat)
    requires n <= |entries| && EntriesOk(env, contents, entries)
    ensures EntriesOk(env, contents, entries[..n])
  {
    hide EntryOk;
  }

  /** The verifier's loop over the index entries. */
  method VerifyEntries(env: Env, contents: Contents, entries: seq<Entry>)
    returns (ok: bool, expected: set<string>, standard: seq<Entry>)
    ensures ok <==> EntriesOk(env, contents, entries)
    ensures ok ==> expected == {INDEX, RECEIPT} + Stored(entries) && standard == Standard(entries)
  {
    hide EntryOk, Audited, EntriesOk, Stored, Standard, Paths;
    var seen: set<string>, n := {}, 0;
    ok, expected, standard := true, {INDEX, RECEIPT}, [];
    NothingGathered(env, contents, entries);
    while n < |entries| && ok
      invariant n <= |entries|
      invariant ok ==> Gathered(env, contents, entries, n, seen, expected, standard)
      invariant !ok ==> !EntriesOk(env, contents, entries)
    {
      var e := entries[n];
      assert entries[..n + 1] == entries[..n] + [e];
      OneMoreEntry(env, contents, entries[..n], e);
      StandardSnoc(entries[..n], e);
      ok := e.path !in seen && EntryOk(env, contents, e);
      seen := seen + {e.path};
      if !e.policy.HashOnly? {
        expected := expected + {e.path};
      }
      if !Audited(e.path) {
        standard := standard + [e];
      }
      if !ok && EntriesOk(env, contents, entries) {
        PrefixesAreOk(env, contents, entries, n + 1);
      }
      n := n + 1;
    }
    assert entries[..|entries|] == entries;
  }

  lemma NothingGathered(env: Env, contents: Contents, entries: seq<Entry>)
    ensures Gathered(env, contents, entries, 0, {}, {INDEX, RECEIPT}, [])
  {
  }

  // ---- What the builder produces, the verifier accepts --------------------

  /** The size of a set of files does not depend on the order in which they are read. */
  lemma {:induction false} SizeWithout(contents: Contents, name: string)
    requires name in contents
    ensures SizeOf(contents) == |contents[name]| + SizeOf(contents - {name})
    decreases |contents|
  {
    var first :| first in contents && SizeOf(contents) == |contents[first]| + SizeOf(contents - {first});
    if first != name {
      SizeWithout(contents - {first}, name);
      SizeWithout(contents - {name}, first);
      assert contents - {first} - {name} == contents - {name} - {first};
    }
  }

  lemma SizeWith(contents: Contents, name: string, content: Bytes)
    requires name !in contents
    ensures SizeOf(contents[name := content]) == SizeOf(contents) + |content|
  {
    SizeWithout(contents[name := content], name);
    assert contents[name := content] - {name} == contents;
  }

  /** The builder's invariant under one policy. */
  ghost predicate Consistent(env: Env, policy: Policy, b: Builder) {
    && EntriesOk(env, b.stage, b.entries) && OmissionsOk(env, b.omissions)
    && b.physical == b.stage.Keys == Stored(b.entries)
    && b.total == SizeOf(b.stage) && (forall n :: n in b.stage ==> |b.stage[n]| <= MAX_FILE_BYTES)
    && (forall n :: n in b.seen ==> env.safe(n))
    && (policy.Redacted? ==> forall i :: 0 <= i < |b.entries| ==> !b.entries[i].policy.HashOnly?)
    && (!policy.Redacted? ==> Paths(b.entries) <= b.seen)
  }

  lemma OmittedOk(env: Env, omissions: seq<Omission>, o: Omission)
    requires OmissionsOk(env, omissions) && o.reason != "" && env.safe(o.path)
    ensures OmissionsOk(env, omissions + [o])
  {
  }

  lemma {:induction false} StoringKeepsEntries(env: Env, stage: Contents, entries: seq<Entry>, name: string, content: Bytes)
    requires EntriesOk(env, stage, entries) && name !in stage
    ensures EntriesOk(env, stage[name := content], entries)
  {
    forall i | 0 <= i < |entries| ensures EntryOk(env, stage[name := content], entries[i]) {
      assert EntryOk(env, stage, entries[i]);
    }
  }

  lemma StoredPathIsNew(env: Env, policy: Policy, b: Builder, name: string)
    requires Consistent(env, policy, b) && name !in b.physical
    requires policy.Redacted? || name !in b.seen
    ensures name !in Paths(b.entries)
  {
    if policy.Redacted? {
      AllPathsStored(b.entries);
    }
  }

  lemma AllPathsStored(entries: seq<Entry>)
    requires forall i :: 0 <= i < |entries| ==> !entries[i].policy.HashOnly?
    ensures Paths(entries) == Stored(entries)
  {
  }

  lemma StoreKeepsConsistent(env: Env, policy: Policy, b: Builder, name: string, content: Bytes, selected: Policy)
    requires Consistent(env, policy, b) && env.safe(name) && !selected.HashOnly?
    requires name !in Paths(b.entries) && (policy.Redacted? || name in b.seen) && |content| <= MAX_FILE_BYTES
    requires Store(env, b, name, content, selected).Some?
    ensures Consistent(env, policy, Store(env, b, name, content, selected).value)
  {
    hide EntriesOk, Stored, Paths, SizeOf;
    SizeWith(b.stage, name, content);
    var n := Store(env, b, name, content, selected).value;
    var e := Entry(name, env.sha(content), |content|, selected);
    StoringKeepsEntries(env, b.stage, b.entries, name, content);
    OneMoreEntry(env, n.stage, b.entries, e);
  }

  lemma HashOnlyKeepsConsistent(env: Env, b: Builder, item: Item)
    requires Consistent(env, HashOnly, b) && env.safe(item.logical) && item.logical !in b.seen
    ensures Consistent(env, HashOnly, b.(
      seen := b.seen + {item.logical},
      entries := b.entries + [Entry(item.logical, env.sha(item.content), |item.content|, HashOnly)],
      omissions := b.omissions + [Omission(item.logical, "content policy hash-only")]))
  {
    hide EntriesOk, Stored, Paths, SizeOf;
    OneMoreEntry(env, b.stage, b.entries, Entry(item.logical, env.sha(item.content), |item.content|, HashOnly));
    OmittedOk(env, b.omissions, Omission(item.logical, "content policy hash-only"));
  }

  lemma SeeingKeepsConsistent(env: Env, policy: Policy, b: Builder, name: string)
    requires Consistent(env, policy, b) && env.safe(name)
    ensures Consistent(env, policy, b.(seen := b.seen + {name}))
  {
    hide EntriesOk, Stored, Paths, OmissionsOk, SizeOf;
  }

  lemma AddKeepsConsistent(env: Env, policy: Policy, b: Builder, item: Item)
    requires EnvOk(env) && Consistent(env, policy, b) && Add(env, policy, b, item).Some?
    ensures Consistent(env, policy, Add(env, policy, b, item).value)
    ensures Add(env, policy, b, item).value.entries
      == b.entries + [Add(env, policy, b, item).value.entries[|b.entries|]]
    ensures Add(env, policy, b, item).value.entries[|b.entries|].path == PlacedAt(policy, item)
  {
    hide Consistent, Store, RedactedName;
    var name, marked := item.logical, b.(seen := b.seen + {item.logical});
    SeeingKeepsConsistent(env, policy, b, name);
    match Selected(policy, item)
    case HashOnly => HashOnlyKeepsConsistent(env, b, item);
    case Full =>
      StoreAppends(env, marked, name, item.content, Full);
      SeenPathIsNew(env, policy, b, name);
      StoreKeepsConsistent(env, policy, marked, name, item.content, Full);
    case Redacted =>
      var omitted := marked.(omissions := b.omissions + [Omission(name, "content policy redacted")]);
      var to, content := RedactedName(name), env.placeholder(name, env.sha(item.content), |item.content|);
      OmittingKeepsConsistent(env, policy, marked, Omission(name, "content policy redacted"));
      StoreAppends(env, omitted, to, content, Redacted);
      StoredPathIsNew(env, policy, omitted, to);
      StoreKeepsConsistent(env, policy, omitted, to, content, Redacted);
  }

  lemma SeenPathIsNew(env: Env, policy: Policy, b: Builder, name: string)
    requires Consistent(env, policy, b) && name !in b.seen && name !in b.physical
    ensures name !in Paths(b.entries)
  {
    StoredPathIsNew(env, policy, b, name);
  }

  lemma OmittingKeepsConsistent(env: Env, policy: Policy, b: Builder, o: Omission)
    requires Consistent(env, policy, b) && o.reason != "" && env.safe(o.path)
    ensures Consistent(env, policy, b.(omissions := b.omissions + [o]))
  {
    hide EntriesOk, Stored, Paths, SizeOf;
    OmittedOk(env, b.omissions, o);
  }

  lemma StoreAppends(env: Env, b: Builder, name: string, content: Bytes, selected: Policy)
    requires Store(env, b, name, content, selected).Some?
    ensures name !in b.physical
    ensures Store(env, b, name, content, selected).value.entries
      == b.entries + [Entry(name, env.sha(content), |content|, selected)]
  {
  }

  lemma EmptyIsConsistent(env: Env, policy: Policy)
    ensures Consistent(env, policy, EMPTY)
  {
  }

  /** Any accepted sequence of additions under one policy: distinct paths, and stored files
      that are exactly the physical entries, with their digests and sizes. */
  lemma {:induction false} AdditionsStayConsistent(env: Env, policy: Policy, b: Builder, items: seq<Item>)
    requires EnvOk(env) && Consistent(env, policy, b) && AddAll(env, policy, b, items).Some?
    ensures Consistent(env, policy, AddAll(env, policy, b, items).value)
    ensures b.entries <= AddAll(env, policy, b, items).value.entries
    ensures Placed(policy, items, AddAll(env, policy, b, items).value.entries[|b.entries|..])
    decreases items
  {
    hide Consistent, Add, EnvOk, PlacedAt;
    if items != [] {
      var next := Add(env, policy, b, items[0]).value;
      AddKeepsConsistent(env, policy, b, items[0]);
      AdditionsStayConsistent(env, policy, next, items[1..]);
      var all := AddAll(env, policy, b, items).value.entries;
      assert all[|b.entries|..] == [all[|b.entries|]] + all[|next.entries|..];
      assert all[|b.entries|] == next.entries[|b.entries|];
    }
  }

  /** One entry per item, in order, at the item's place. */
  predicate Placed(policy: Policy, items: seq<Item>, entries: seq<Entry>) {
    |entries| == |items| && forall i :: 0 <= i < |items| ==> entries[i].path == PlacedAt(policy, items[i])
  }

  // ---- Sorting the index keeps what the verifier checks -------------------

  lemma SortedEntriesOk(env: Env, contents: Contents, entries: seq<Entry>)
    requires EntriesOk(env, contents, entries)
    ensures EntriesOk(env, contents, Sort(env.le, PathOf, entries))
    ensures Stored(Sort(env.le, PathOf, entries)) == Stored(entries)
  {
    var sorted := Sort(env.le, PathOf, entries);
    PermutationsByKey(PathOf, entries, sorted);
    hide EntryOk, Sort;
    forall i | 0 <= i < |sorted| ensures EntryOk(env, contents, sorted[i]) {
      assert sorted[i] in multiset(entries);
      var j :| 0 <= j < |entries| && entries[j] == sorted[i];
    }
    SameStoredSets(entries, sorted);
    SameStoredSets(sorted, entries);
  }

  lemma SameStoredSets(a: seq<Entry>, b: seq<Entry>)
    requires multiset(a) == multiset(b)
    ensures Stored(a) <= Stored(b)
  {
    forall p | p in Stored(a) ensures p in Stored(b) {
      var i :| 0 <= i < |a| && !a[i].policy.HashOnly? && a[i].path == p;
      assert a[i] in multiset(b);
      var j :| 0 <= j < |b| && b[j] == a[i];
    }
  }

  lemma SortedOmissionsOk(env: Env, omissions: seq<Omission>)
    requires OmissionsOk(env, omissions)
    ensures OmissionsOk(env, Sort(OmissionOrder(env), OmissionKey, omissions))
  {
    hide Sort;
    var sorted := Sort(OmissionOrder(env), OmissionKey, omissions);
    forall i | 0 <= i < |sorted| ensures sorted[i].reason != "" && env.safe(sorted[i].path) {
      assert sorted[i] in multiset(omissions);
      var j :| 0 <= j < |omissions| && omissions[j] == sorted[i];
    }
  }

  lemma {:induction false} StandardByKey(entries: seq<Entry>, k: string)
    ensures WithKey(PathOf, Standard(entries), k) == if Audited(k) then [] else WithKey(PathOf, entries, k)
  {
    if entries != [] {
      StandardByKey(entries[1..], k);
      assert entries == [entries[0]] + entries[1..];
      WithKeyStep(PathOf, entries[0], entries[1..], k);
      hide WithKey, Audited;
      if Audited(entries[0].path) {
        assert Standard(entries) == Standard(entries[1..]);
      } else {
        assert Standard(entries) == [entries[0]] + Standard(entries[1..]);
        WithKeyStep(PathOf, entries[0], Standard(entries[1..]), k);
      }
    }
  }

  /** The content root the verifier computes over the sorted index is the digest of the sorted
      standard entries. */
  lemma RootIgnoresIndexOrder(env: Env, entries: seq<Entry>)
    requires TotalOrder(env.le)
    ensures Sort(env.le, PathOf, Standard(Sort(env.le, PathOf, entries))) == Sort(env.le, PathOf, Standard(entries))
  {
    var sorted := Sort(env.le, PathOf, entries);
    forall k ensures WithKey(PathOf, Standard(sorted), k) == WithKey(PathOf, Standard(entries), k) {
      StandardByKey(sorted, k);
      StandardByKey(entries, k);
      SortIsStable(env.le, PathOf, entries, k);
    }
    hide Sort, WithKey, Standard;
    SortsAlike(env.le, PathOf, Standard(sorted), Standard(entries));
  }

  /** The standard files lie outside audit/ and the audit files inside it. */
  predicate Partitioned(standard: seq<Entry>, all: seq<Entry>)
    requires standard <= all
  {
    && (forall i :: 0 <= i < |standard| ==> !Audited(standard[i].path))
    && (forall i :: |standard| <= i < |all| ==> Audited(all[i].path))
  }

  lemma {:induction false} StandardOfPlain(entries: seq<Entry>)
    requires forall i :: 0 <= i < |entries| ==> !Audited(entries[i].path)
    ensures Standard(entries) == entries
  {
    hide Audited;
    if entries != [] {
      StandardOfPlain(entries[1..]);
    }
  }

  lemma {:induction false} StandardOfAudit(entries: seq<Entry>)
    requires forall i :: 0 <= i < |entries| ==> Audited(entries[i].path)
    ensures Standard(entries) == []
  {
    hide Audited;
    if entries != [] {
      StandardOfAudit(entries[1..]);
    }
  }

  lemma {:induction false} StandardOfConcat(a: seq<Entry>, b: seq<Entry>)
    ensures Standard(a + b) == Standard(a) + Standard(b)
  {
    hide Audited;
    if a == [] {
      assert a + b == b;
    } else {
      assert (a + b)[1..] == a[1..] + b;
      StandardOfConcat(a[1..], b);
    }
  }

  lemma PartitionedRoot(standard: seq<Entry>, all: seq<Entry>)
    requires standard <= all && Partitioned(standard, all)
    ensures Standard(all) == standard
  {
    hide Audited, Standard;
    assert all == standard + all[|standard|..];
    StandardOfConcat(standard, all[|standard|..]);
    StandardOfPlain(standard);
    StandardOfAudit(all[|standard|..]);
  }

  lemma {:induction false} StandardMembers(entries: seq<Entry>, e: Entry)
    ensures e in Standard(entries) <==> e in entries && !Audited(e.path)
  {
    hide Audited;
    if entries != [] {
      StandardMembers(entries[1..], e);
      assert entries == [entries[0]] + entries[1..];
    }
  }

  /** Only a partitioned archive has the root that was fixed before the audit files came. */
  lemma RootMeansPartitioned(env: Env, standard: seq<Entry>, all: seq<Entry>)
    requires standard <= all && DistinctKeys(PathOf, all)
    requires Sort(env.le, PathOf, Standard(all)) == Sort(env.le, PathOf, standard)
    ensures Partitioned(standard, all)
  {
    hide Audited, Standard, Sort;
    assert multiset(Standard(all)) == multiset(standard);
    forall i | 0 <= i < |standard| ensures !Audited(standard[i].path) {
      assert standard[i] in multiset(Standard(all));
      StandardMembers(all, standard[i]);
    }
    forall i | |standard| <= i < |all| ensures Audited(all[i].path) {
      StandardMembers(all, all[i]);
      LaterEntryIsNew(standard, all, i);
      assert all[i] in Standard(all) <==> all[i] in multiset(standard);
    }
  }

  lemma LaterEntryIsNew(front: seq<Entry>, all: seq<Entry>, i: nat)
    requires front <= all && |front| <= i < |all| && DistinctKeys(PathOf, all)
    ensures all[i] !in front
  {
    forall j | 0 <= j < |front| ensures front[j] != all[i] {
      assert PathOf(all[j]) != PathOf(all[i]);
    }
  }

  // ---- The produced archive -----------------------------------------------

  /** Standard files lie outside audit/ and audit files inside it. */
  predicate Separated(policy: Policy, standard: seq<Item>, audit: seq<Item>) {
    && (forall i :: 0 <= i < |standard| ==> !Audited(PlacedAt(policy, standard[i])))
    && (forall i :: 0 <= i < |audit| ==> Audited(PlacedAt(policy, audit[i])))
  }

  predicate Unreserved(policy: Policy, items: seq<Item>) {
    forall i :: 0 <= i < |items| ==> PlacedAt(policy, items[i]) != INDEX && PlacedAt(policy, items[i]) != RECEIPT
  }

  /** Index and receipt fit beside the files the builder has counted. */
  predicate Fits(env: Env, policy: Policy, header: int, b: Builder, all: Builder) {
    var index, receipt := |IndexBytes(env, policy, header, all)|, |ReceiptBytes(env, policy, header, b, all)|;
    index <= MAX_FILE_BYTES && receipt <= MAX_FILE_BYTES && all.total + index + receipt <= MAX_ARCHIVE_BYTES
  }

  /** An archive that leaves the two reserved names alone verifies exactly when its standard
      files lie outside audit/, its audit files inside it, and its index and receipt still fit
      the limits: the builder counts neither. */
  lemma CreatedArchiveVerifies(
      env: Env, policy: Policy, header: int, standard: seq<Item>, omitted: seq<Omission>, audit: seq<Item>, b: Builder,
      all: Builder)
    requires EnvOk(env) && Injective(env.rootDigest) && OmissionsOk(env, omitted)
    requires AddAll(env, policy, EMPTY, standard) == Some(b)
    requires AddAll(env, policy, b.(omissions := b.omissions + omitted), audit) == Some(all)
    requires Unreserved(policy, standard) && Unreserved(policy, audit)
    ensures DistinctKeys(PathOf, all.entries)
    ensures Create(env, policy, header, standard, omitted, audit) == Some(Finished(env, policy, header, b, all))
    ensures Verify(env, Finished(env, policy, header, b, all)) <==>
      Separated(policy, standard, audit) && Fits(env, policy, header, b, all)
  {
    hide AddAll, Consistent, VerifyIndex, Partitioned, Separated, Sort, Standard, SizeOf, Fits, Readable, Unreserved;
    CreatedIsConsistent(env, policy, standard, omitted, audit, b, all);
    ConsistentEntries(env, policy, all);
    FinishedIsReadable(env, policy, header, b, all);
    var index := IndexOf(env, policy, header, all);
    var receipt := ReceiptOf(env, header, index, ContentRoot(env, b.entries));
    CreatedFilesDecode(env, all.stage, index, receipt);
    IndexVerifies(env, policy, header, all, ContentRoot(env, b.entries), Finished(env, policy, header, b, all));
    RootDecides(env, b.entries, all.entries);
  }

  lemma CreatedIsConsistent(
      env: Env, policy: Policy, standard: seq<Item>, omitted: seq<Omission>, audit: seq<Item>, b: Builder, all: Builder)
    requires EnvOk(env) && OmissionsOk(env, omitted)
    requires AddAll(env, policy, EMPTY, standard) == Some(b)
    requires AddAll(env, policy, b.(omissions := b.omissions + omitted), audit) == Some(all)
    requires Unreserved(policy, standard) && Unreserved(policy, audit)
    ensures Consistent(env, policy, all) && INDEX !in all.stage && RECEIPT !in all.stage && b.entries <= all.entries
    ensures Separated(policy, standard, audit) <==> Partitioned(b.entries, all.entries)
  {
    EmptyIsConsistent(env, policy);
    hide AddAll, Consistent, Placed, Unreserved, EnvOk, OmissionsOk, Separated, Partitioned;
    AdditionsStayConsistent(env, policy, EMPTY, standard);
    OmittingAllKeepsConsistent(env, policy, b, omitted);
    AdditionsStayConsistent(env, policy, b.(omissions := b.omissions + omitted), audit);
    assert b.entries[0..] == b.entries;
    PlacesDecide(policy, standard, audit, b.entries, all.entries);
    NamesStayFree(env, policy, standard, audit, b, all);
  }

  lemma OmittingAllKeepsConsistent(env: Env, policy: Policy, b: Builder, omitted: seq<Omission>)
    requires Consistent(env, policy, b) && OmissionsOk(env, omitted)
    ensures Consistent(env, policy, b.(omissions := b.omissions + omitted))
  {
    hide EntriesOk, Stored, Paths, SizeOf;
  }

  lemma PlacesDecide(policy: Policy, standard: seq<Item>, audit: seq<Item>, front: seq<Entry>, all: seq<Entry>)
    requires front <= all && Placed(policy, standard, front) && Placed(policy, audit, all[|front|..])
    ensures Separated(policy, standard, audit) <==> Partitioned(front, all)
  {
    hide Audited, PlacedAt;
    var rest := all[|front|..];
    forall i | |front| <= i < |all| ensures all[i] == rest[i - |front|] {
    }
    assert forall i :: 0 <= i < |audit| ==> rest[i] == all[|front| + i];
    if Partitioned(front, all) {
      forall i | 0 <= i < |audit| ensures Audited(PlacedAt(policy, audit[i])) {
        assert Audited(all[|front| + i].path);
      }
    }
  }

  lemma NamesStayFree(env: Env, policy: Policy, standard: seq<Item>, audit: seq<Item>, b: Builder, all: Builder)
    requires Consistent(env, policy, all) && b.entries <= all.entries
    requires Placed(policy, standard, b.entries) && Placed(policy, audit, all.entries[|b.entries|..])
    requires Unreserved(policy, standard) && Unreserved(policy, audit)
    ensures INDEX !in all.stage && RECEIPT !in all.stage
  {
    hide PlacedAt, EntriesOk, SizeOf, OmissionsOk;
    forall i | 0 <= i < |all.entries| ensures all.entries[i].path != INDEX && all.entries[i].path != RECEIPT {
      if i < |b.entries| {
        assert all.entries[i] == b.entries[i];
      } else {
        assert all.entries[i] == all.entries[|b.entries|..][i - |b.entries|];
      }
    }
  }

  lemma FinishedIsReadable(env: Env, policy: Policy, header: int, b: Builder, all: Builder)
    requires Consistent(env, policy, all) && INDEX !in all.stage && RECEIPT !in all.stage
    ensures Readable(Finished(env, policy, header, b, all)) <==> Fits(env, policy, header, b, all)
  {
    var index, receipt := IndexBytes(env, policy, header, all), ReceiptBytes(env, policy, header, b, all);
    hide SizeOf, EntriesOk, Stored, Paths, OmissionsOk, IndexBytes, ReceiptBytes;
    assert INDEX[8] != RECEIPT[8];
    SizeWith(all.stage, INDEX, index);
    SizeWith(all.stage[INDEX := index], RECEIPT, receipt);
    var contents := all.stage[INDEX := index][RECEIPT := receipt];
    assert contents[INDEX] == index && contents[RECEIPT] == receipt;
    assert forall n :: n in all.stage ==> n in contents && contents[n] == all.stage[n];
  }

  /** What the collectors pass: audit files keep their content and lie under audit/; nothing
      else does; no file has a reserved name. */
  predicate Collected(standard: seq<Item>, audit: seq<Item>) {
    && (forall i :: 0 <= i < |standard| ==>
          !Audited(standard[i].logical) && standard[i].logical != INDEX && standard[i].logical != RECEIPT)
    && (forall i :: 0 <= i < |audit| ==> Audited(audit[i].logical) && audit[i].forced)
  }

  /** So under every policy the archive made from the collectors' files verifies exactly when
      its index and receipt fit. */
  lemma CollectedArchiveVerifies(
      env: Env, policy: Policy, header: int, standard: seq<Item>, omitted: seq<Omission>, audit: seq<Item>, b: Builder,
      all: Builder)
    requires EnvOk(env) && Injective(env.rootDigest) && OmissionsOk(env, omitted) && Collected(standard, audit)
    requires AddAll(env, policy, EMPTY, standard) == Some(b)
    requires AddAll(env, policy, b.(omissions := b.omissions + omitted), audit) == Some(all)
    ensures Verify(env, Finished(env, policy, header, b, all)) <==> Fits(env, policy, header, b, all)
  {
    hide EnvOk, AddAll, Verify, Fits;
    forall i | 0 <= i < |standard|
      ensures !Audited(PlacedAt(policy, standard[i])) && PlacedAt(policy, standard[i]) != INDEX
        && PlacedAt(policy, standard[i]) != RECEIPT
    {
      RedactedIsElsewhere(standard[i].logical);
    }
    forall i | 0 <= i < |audit|
      ensures Audited(PlacedAt(policy, audit[i])) && PlacedAt(policy, audit[i]) != INDEX && PlacedAt(policy, audit[i]) != RECEIPT
    {
      assert audit[i].logical[1] == AUDIT[1] && INDEX[1] != AUDIT[1] && RECEIPT[1] != AUDIT[1];
    }
    CreatedArchiveVerifies(env, policy, header, standard, omitted, audit, b, all);
  }

  // ---- An archive at the limit --------------------------------------------

  function NameAt(i: nat): string { seq(i + 1, _ => 'f') }

  function LargestFile(i: nat): Item { Item(NameAt(i), seq(MAX_FILE_BYTES, _ => 0), false, true) }

  function LargestFiles(k: nat): seq<Item> { seq(k, i requires 0 <= i => LargestFile(i)) }

  /** Sixteen files of the largest size are the largest archive the builder accepts. With its
      index it is over the verifier's limit. */
  lemma FullArchiveIsRefused(env: Env, header: int)
    requires EnvOk(env) && (forall i: nat :: env.safe(NameAt(i))) && (forall i :: env.encodeIndex(i) != [])
    ensures
      var made := Create(env, Full, header, LargestFiles(16), [], []);
      made.Some? && !Verify(env, made.value)
  {
    LargestFilesAreAdded(env, 16);
    var items := LargestFiles(16);
    forall i | 0 <= i < 16 ensures PlacedAt(Full, items[i])[0] == 'f' {
      assert items[i] == LargestFile(i) && NameAt(i)[0] == 'f';
    }
    assert INDEX[0] == 'a' && RECEIPT[0] == 'a' && |items| == 16;
    assert Unreserved(Full, items);
    var b := AddAll(env, Full, EMPTY, items).value;
    hide LargestFiles, AddAll, EnvOk, Finished, Verify, Unreserved;
    NothingMoreIsRefused(env, header, items, b);
  }

  lemma NothingMoreIsRefused(env: Env, header: int, items: seq<Item>, b: Builder)
    requires EnvOk(env) && AddAll(env, Full, EMPTY, items) == Some(b) && b.total == MAX_ARCHIVE_BYTES
    requires Unreserved(Full, items) && forall i :: env.encodeIndex(i) != []
    ensures Create(env, Full, header, items, [], []) == Some(Finished(env, Full, header, b, b))
    ensures !Verify(env, Finished(env, Full, header, b, b))
  {
    hide Consistent, Readable, EnvOk, Finished, IndexBytes, ReceiptBytes, Unreserved, PlacedAt, EntriesOk;
    NothingIsAdded(env, b);
    CreatedIsConsistent(env, Full, items, [], [], b, b);
    FinishedIsReadable(env, Full, header, b, b);
    assert |IndexBytes(env, Full, header, b)| > 0 by { IndexIsNotEmpty(env, header, b); }
  }

  lemma NothingIsAdded(env: Env, b: Builder)
    ensures b.(omissions := b.omissions + []) == b && AddAll(env, Full, b, []) == Some(b)
    ensures Unreserved(Full, []) && OmissionsOk(env, [])
  {
  }

  lemma IndexIsNotEmpty(env: Env, header: int, b: Builder)
    requires forall i :: env.encodeIndex(i) != []
    ensures |IndexBytes(env, Full, header, b)| > 0
  {
  }

  lemma {:induction false} LargestFilesAreAdded(env: Env, k: nat)
    requires k <= 16 && forall i: nat :: env.safe(NameAt(i))
    ensures
      var r := AddAll(env, Full, EMPTY, LargestFiles(k));
      r.Some? && r.value.total == k * MAX_FILE_BYTES
      && r.value.seen == r.value.physical == set i | 0 <= i < k :: NameAt(i)
  {
    if k > 0 {
      LargestFilesAreAdded(env, k - 1);
      assert LargestFiles(k) == LargestFiles(k - 1) + [LargestFile(k - 1)];
      AddOneMore(env, Full, EMPTY, LargestFiles(k - 1), LargestFile(k - 1));
      var front := AddAll(env, Full, EMPTY, LargestFiles(k - 1)).value;
      assert NameAt(k - 1) !in front.seen by {
        assert forall i :: 0 <= i < k - 1 ==> |NameAt(i)| != |NameAt(k - 1)|;
      }
      OneLargestFile(env, front, k - 1);
      hide LargestFiles, AddAll, Add, NameAt;
      assert (set i | 0 <= i < k :: NameAt(i)) == (set i | 0 <= i < k - 1 :: NameAt(i)) + {NameAt(k - 1)};
    }
  }

  lemma OneLargestFile(env: Env, b: Builder, i: nat)
    requires env.safe(NameAt(i)) && NameAt(i) !in b.seen && NameAt(i) !in b.physical
    requires b.total + MAX_FILE_BYTES <= MAX_ARCHIVE_BYTES
    ensures
      var r := Add(env, Full, b, LargestFile(i));
      r.Some? && r.value.total == b.total + MAX_FILE_BYTES
      && r.value.seen == b.seen + {NameAt(i)} && r.value.physical == b.physical + {NameAt(i)}
  {
  }

  lemma {:induction false} AddOneMore(env: Env, policy: Policy, b: Builder, items: seq<Item>, item: Item)
    ensures AddAll(env, policy, b, items + [item]) ==
      match AddAll(env, policy, b, items)
      case None => None
      case Some(next) => Add(env, policy, next, item)
    decreases items
  {
    hide Add;
    if items == [] {
      assert items + [item] == [item];
    } else {
      assert (items + [item])[1..] == items[1..] + [item];
      if Add(env, policy, b, items[0]).Some? {
        AddOneMore(env, policy, Add(env, policy, b, items[0]).value, items[1..], item);
      }
    }
  }

  lemma RedactedIsElsewhere(logical: string)
    ensures !Audited(RedactedName(logical)) && RedactedName(logical) != INDEX && RedactedName(logical) != RECEIPT
  {
    assert RedactedName(logical)[0] == 'r';
    assert AUDIT[0] != 'r' && INDEX[0] != 'r' && RECEIPT[0] != 'r';
  }

  lemma ConsistentEntries(env: Env, policy: Policy, b: Builder)
    requires Consistent(env, policy, b)
    ensures DistinctKeys(PathOf, b.entries)
  {
  }

  lemma CreatedFilesDecode(env: Env, stage: Contents, index: Index, receipt: Receipt)
    requires EnvOk(env)
    ensures var contents := stage[INDEX := env.encodeIndex(index)][RECEIPT := env.encodeReceipt(receipt)];
      && INDEX in contents && RECEIPT in contents
      && contents[INDEX] == env.encodeIndex(index) && contents[RECEIPT] == env.encodeReceipt(receipt)
      && env.decodeIndex(contents[INDEX]) == Some(index) && env.decodeReceipt(contents[RECEIPT]) == Some(receipt)
  {
    assert INDEX[8] != RECEIPT[8];
  }

  lemma IndexVerifies(
      env: Env, policy: Policy, header: int, all: Builder, root: Digest, contents: Contents)
    requires EnvOk(env) && Consistent(env, policy, all) && INDEX !in all.stage && RECEIPT !in all.stage
    requires var index := IndexOf(env, policy, header, all);
      contents == all.stage[INDEX := env.encodeIndex(index)][RECEIPT := env.encodeReceipt(ReceiptOf(env, header, index, root))]
    ensures var index := IndexOf(env, policy, header, all);
      VerifyIndex(env, contents, index, ReceiptOf(env, header, index, root)) <==>
        root == ContentRoot(env, Standard(index.entries))
  {
    var index := IndexOf(env, policy, header, all);
    var receipt := ReceiptOf(env, header, index, root);
    CreatedFilesDecode(env, all.stage, index, receipt);
    hide EnvOk, Sort, Standard, EntriesOk, Stored, ContentRoot, Paths, SizeOf;
    StoringKeepsEntries(env, all.stage, all.entries, INDEX, env.encodeIndex(index));
    assert INDEX[8] != RECEIPT[8];
    StoringKeepsEntries(env, all.stage[INDEX := env.encodeIndex(index)], all.entries, RECEIPT, env.encodeReceipt(receipt));
    SortedEntriesOk(env, contents, all.entries);
    SortedOmissionsOk(env, all.omissions);
  }

  lemma RootDecides(env: Env, standard: seq<Entry>, all: seq<Entry>)
    requires EnvOk(env) && Injective(env.rootDigest) && standard <= all && DistinctKeys(PathOf, all)
    ensures ContentRoot(env, standard) == ContentRoot(env, Standard(Sort(env.le, PathOf, all)))
      <==> Partitioned(standard, all)
  {
    RootIgnoresIndexOrder(env, all);
    hide Sort, Standard, Partitioned;
    if Partitioned(standard, all) {
      PartitionedRoot(standard, all);
    } else if Sort(env.le, PathOf, Standard(all)) == Sort(env.le, PathOf, standard) {
      RootMeansPartitioned(env, standard, all);
    }
  }
}
