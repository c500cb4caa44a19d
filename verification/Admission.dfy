/** Delegation admissions: a batch of requests becomes admissions with deterministic identities,
    and every specialist is paid for out of the global credit pool or a parent's budget. */
module Admission {
  import opened Common
  import opened StableSort

  datatype RunKind = Lead | Specialist

  datatype Request = Request(
    key: string, kind: RunKind, recipient: string, capability: string, effect: Digest, task: Digest,
    parentAdmission: Option<string>, parentRun: Option<string>, budget: nat, writer: bool)

  datatype Admitted = Admitted(
    id: string, delegation: Option<string>, run: string, request: Request, requestDigest: Digest,
    cost: nat, globalDebit: nat, parentDebit: nat)

  datatype Actor = Control | Assured

  /** What the reserving call reads of the Mission: its Lead, and the admissions it has. */
  datatype Mission = Mission(
    leadAdmission: Option<string>, leadRun: Option<string>, admissions: map<string, (RunKind, string)>)

  /** Deterministic identifiers, digests, and the orders of identifiers and request keys. */
  datatype Env = Env(
    idOf: ((RunKind, string)) -> string, runOf: ((RunKind, string)) -> string, delegationOf: string -> string,
    bindingDigest: Request -> Digest, batchDigest: seq<Request> -> Digest,
    idLe: (string, string) -> bool, keyLe: ((RunKind, string), (RunKind, string)) -> bool)

  function NameOf(r: Request): (RunKind, string) { (r.kind, r.key) }

  // ---- Resolving one request against its batch ----------------------------

  /** An admission a request may name as its parent: its kind and its run. */
  datatype Parent = Parent(kind: RunKind, run: string)

  function WithId(env: Env, requests: seq<Request>, id: string): (r: Option<Request>)
    ensures r.Some? ==> r.value in requests && env.idOf(NameOf(r.value)) == id
    ensures r.None? ==> forall i :: 0 <= i < |requests| ==> env.idOf(NameOf(requests[i])) != id
  {
    if requests == [] then None
    else if env.idOf(NameOf(requests[0])) == id then Some(requests[0])
    else WithId(env, requests[1..], id)
  }

  function FindParent(env: Env, requests: seq<Request>, m: Mission, id: Option<string>): Option<Parent> {
    match id
    case None => None
    case Some(i) =>
      match WithId(env, requests, i)
      case Some(r) => Some(Parent(r.kind, env.runOf(NameOf(r))))
      case None => if i in m.admissions then Some(Parent(m.admissions[i].0, m.admissions[i].1)) else None
  }

  function Leads(requests: seq<Request>): seq<Request> { WithKey((r: Request) => r.kind, requests, Lead) }

  /** CONTROL's root specialists inherit the durable Lead, the batch's only Lead, or the
      historical Lead run. */
  function Inherit(env: Env, requests: seq<Request>, m: Mission, actor: Actor, r: Request): Request {
    if !actor.Control? || !r.kind.Specialist? || r.parentAdmission.Some? then r
    else if m.leadAdmission.Some? then r.(parentAdmission := m.leadAdmission)
    else if |Leads(requests)| == 1 then r.(parentAdmission := Some(env.idOf(NameOf(Leads(requests)[0]))))
    else if m.leadRun.Some? && r.parentRun.None? then r.(parentRun := m.leadRun)
    else r
  }

  function Resolve(env: Env, requests: seq<Request>, m: Mission, actor: Actor, r: Request): Admitted {
    var base := Inherit(env, requests, m, actor, r);
    var parent := FindParent(env, requests, m, base.parentAdmission);
    var bound := if parent.Some? && base.parentRun.None? then base.(parentRun := Some(parent.value.run)) else base;
    var cost := if r.kind.Lead? then 0 else 1 + r.budget;
    var child := parent.Some? && parent.value.kind.Specialist?;
    Admitted(
      env.idOf(NameOf(r)), if r.kind.Lead? then None else Some(env.delegationOf(r.key)), env.runOf(NameOf(r)), bound,
      env.bindingDigest(bound), cost, if child then 0 else cost, if child then cost else 0)
  }

  function KeyOf(r: Request): string { r.key }

  function IdOf(a: Admitted): string { a.id }

  function Build(env: Env, requests: seq<Request>, m: Mission, actor: Actor): Option<seq<Admitted>> {
    if !DistinctKeys(KeyOf, requests) then None
    else Some(Sort(env.idLe, IdOf, Mapped(r => Resolve(env, requests, m, actor, r), requests)))
  }

  /** The two passes over the batch: keys and identities first, then each request in turn. */
  method BuildAdmissions(env: Env, requests: seq<Request>, m: Mission, actor: Actor) returns (r: Option<seq<Admitted>>)
    ensures r == Build(env, requests, m, actor)
  {
    hide Resolve, Sort;
    var seen: set<string>, n := {}, 0;
    while n < |requests|
      invariant n <= |requests|
      invariant seen == set i | 0 <= i < n :: requests[i].key
      invariant forall i, j :: 0 <= i < j < n ==> requests[i].key != requests[j].key
    {
      if requests[n].key in seen {
        var i :| 0 <= i < n && requests[i].key == requests[n].key;
        assert KeyOf(requests[i]) == KeyOf(requests[n]);
        return None;
      }
      seen := seen + {requests[n].key};
      n := n + 1;
    }
    var admissions: seq<Admitted> := [];
    n := 0;
    while n < |requests|
      invariant n <= |requests| && |admissions| == n
      invariant forall i :: 0 <= i < n ==> admissions[i] == Resolve(env, requests, m, actor, requests[i])
    {
      admissions := admissions + [Resolve(env, requests, m, actor, requests[n])];
      n := n + 1;
    }
    assert admissions == Mapped(q => Resolve(env, requests, m, actor, q), requests);
    r := Some(Sort(env.idLe, IdOf, admissions));
  }

  // ---- The order of a batch does not matter -------------------------------

  lemma SameLeads(a: seq<Request>, b: seq<Request>)
    requires multiset(a) == multiset(b)
    ensures |Leads(a)| == 1 || |Leads(b)| == 1 ==> Leads(a) == Leads(b)
  {
    var kind := (r: Request) => r.kind;
    forall x ensures multiset(Leads(a))[x] == multiset(Leads(b))[x] {
      WithKeyCounts(kind, a, Lead, x);
      WithKeyCounts(kind, b, Lead, x);
    }
    assert multiset(Leads(a)) == multiset(Leads(b));
    if |Leads(a)| == 1 {
      ShortPermutation(Leads(a), Leads(b));
    } else if |Leads(b)| == 1 {
      ShortPermutation(Leads(b), Leads(a));
    }
  }

  lemma SameWithId(env: Env, a: seq<Request>, b: seq<Request>, id: string)
    requires multiset(a) == multiset(b) && DistinctKeys(KeyOf, a) && Injective(env.idOf)
    ensures WithId(env, a, id) == WithId(env, b, id)
  {
    hide WithId;
    var x, y := WithId(env, a, id), WithId(env, b, id);
    if x.Some? {
      assert x.value in multiset(b);
    }
    if y.Some? {
      assert y.value in multiset(a);
    }
    if x.Some? && y.Some? {
      var i :| 0 <= i < |a| && a[i] == x.value;
      assert y.value in a;
      var j :| 0 <= j < |a| && a[j] == y.value;
      assert NameOf(x.value) == NameOf(y.value);
      assert KeyOf(a[i]) == KeyOf(a[j]);
    }
  }

  lemma SameResolution(env: Env, a: seq<Request>, b: seq<Request>, m: Mission, actor: Actor, r: Request)
    requires multiset(a) == multiset(b) && DistinctKeys(KeyOf, a) && Injective(env.idOf)
    ensures Resolve(env, a, m, actor, r) == Resolve(env, b, m, actor, r)
  {
    hide WithId, Leads, FindParent, Inherit;
    SameInheritance(env, a, b, m, actor, r);
    SameParent(env, a, b, m, Inherit(env, a, m, actor, r).parentAdmission);
  }

  lemma SameInheritance(env: Env, a: seq<Request>, b: seq<Request>, m: Mission, actor: Actor, r: Request)
    requires multiset(a) == multiset(b)
    ensures Inherit(env, a, m, actor, r) == Inherit(env, b, m, actor, r)
  {
    hide Leads;
    SameLeads(a, b);
  }

  lemma SameParent(env: Env, a: seq<Request>, b: seq<Request>, m: Mission, id: Option<string>)
    requires multiset(a) == multiset(b) && DistinctKeys(KeyOf, a) && Injective(env.idOf)
    ensures FindParent(env, a, m, id) == FindParent(env, b, m, id)
  {
    hide WithId;
    if id.Some? {
      SameWithId(env, a, b, id.value);
    }
  }

  /** Reordering a batch changes neither whether it is accepted nor the admissions it yields. */
  lemma BatchOrderIsIrrelevant(env: Env, a: seq<Request>, b: seq<Request>, m: Mission, actor: Actor)
    requires multiset(a) == multiset(b) && Injective(env.idOf) && TotalOrder(env.idLe)
    ensures Build(env, a, m, actor) == Build(env, b, m, actor)
  {
    if DistinctKeys(KeyOf, a) {
      PermutationsByKey(KeyOf, a, b);
      SameAdmissions(env, a, b, m, actor);
    } else if DistinctKeys(KeyOf, b) {
      PermutationsByKey(KeyOf, b, a);
    }
  }

  lemma NamesAreDistinct(env: Env, a: seq<Request>)
    requires DistinctKeys(KeyOf, a) && Injective(env.idOf)
    ensures DistinctKeys((r: Request) => env.idOf(NameOf(r)), a)
  {
    forall i, j | 0 <= i < j < |a| ensures env.idOf(NameOf(a[i])) != env.idOf(NameOf(a[j])) {
      assert KeyOf(a[i]) != KeyOf(a[j]);
    }
  }

  lemma SameAdmissions(env: Env, a: seq<Request>, b: seq<Request>, m: Mission, actor: Actor)
    requires multiset(a) == multiset(b) && DistinctKeys(KeyOf, a) && DistinctKeys(KeyOf, b)
    requires Injective(env.idOf) && TotalOrder(env.idLe)
    ensures Sort(env.idLe, IdOf, Mapped(r => Resolve(env, a, m, actor, r), a))
      == Sort(env.idLe, IdOf, Mapped(r => Resolve(env, b, m, actor, r), b))
  {
    var named := (r: Request) => env.idOf(NameOf(r));
    var f, g := r => Resolve(env, a, m, actor, r), r => Resolve(env, b, m, actor, r);
    NamesAreDistinct(env, a);
    PermutationsByKey(named, a, b);
    hide Sort, WithKey;
    forall k ensures WithKey(IdOf, Mapped(f, a), k) == WithKey(IdOf, Mapped(g, b), k) {
      MappedByKey(f, named, IdOf, a, k);
      MappedByKey(g, named, IdOf, b, k);
      assert WithKey(named, a, k) == WithKey(named, b, k);
      forall r ensures f(r) == g(r) {
        SameResolution(env, a, b, m, actor, r);
      }
      assert Mapped(f, WithKey(named, a, k)) == Mapped(g, WithKey(named, b, k));
    }
    SortsAlike(env.idLe, IdOf, Mapped(f, a), Mapped(g, b));
  }

  function BatchDigest(env: Env, requests: seq<Request>): Digest {
    env.batchDigest(Sort(env.keyLe, NameOf, requests))
  }

  /** The batch digest sorts stably by run kind and key before any duplicate is refused: two
      orderings have one digest exactly when requests sharing kind and key keep their order. */
  lemma BatchDigestsAgree(env: Env, a: seq<Request>, b: seq<Request>)
    requires Injective(env.batchDigest) && TotalOrder(env.keyLe)
    ensures BatchDigest(env, a) == BatchDigest(env, b) <==> SameByKey(NameOf, a, b)
  {
    SortsAlike(env.keyLe, NameOf, a, b);
    hide Sort, SameByKey;
  }

  /** So every ordering of a batch with distinct keys has the same digest. */
  lemma BatchDigestIsOrderFree(env: Env, a: seq<Request>, b: seq<Request>)
    requires TotalOrder(env.keyLe) && multiset(a) == multiset(b) && DistinctKeys(KeyOf, a)
    ensures BatchDigest(env, a) == BatchDigest(env, b)
  {
    forall i, j | 0 <= i < j < |a| ensures NameOf(a[i]) != NameOf(a[j]) {
      assert KeyOf(a[i]) != KeyOf(a[j]);
    }
    PermutationsSortAlike(env.keyLe, NameOf, a, b);
  }

  /** Two requests under one key and kind, in either order, have two digests. */
  lemma DuplicateKeysSplitTheDigest(env: Env, x: Request, y: Request)
    requires Injective(env.batchDigest) && TotalOrder(env.keyLe) && NameOf(x) == NameOf(y) && x != y
    ensures BatchDigest(env, [x, y]) != BatchDigest(env, [y, x])
  {
    hide WithKey, BatchDigest;
    BatchDigestsAgree(env, [x, y], [y, x]);
    PairByKey(x, y);
    PairByKey(y, x);
    assert [x, y][0] != [y, x][0];
  }

  lemma PairByKey(x: Request, y: Request)
    requires NameOf(x) == NameOf(y)
    ensures WithKey(NameOf, [x, y], NameOf(x)) == [x, y]
  {
    assert [x, y][1..] == [y] && [y][1..] == [];
    assert WithKey(NameOf, [y], NameOf(x)) == [y];
  }

  // ---- Credits ------------------------------------------------------------

  /** A specialist in the ledger: its delegated budget and what its children have spent of it. */
  datatype Slot = Slot(id: string, budget: nat, spent: nat)

  datatype Pool = Pool(slots: seq<Slot>, globalSpent: nat)

  function ParentOf(a: Admitted): string {
    if a.request.parentAdmission.Some? then a.request.parentAdmission.value else ""
  }

  /** What the batch takes out of one specialist's budget. */
  function Debits(batch: seq<Admitted>, id: string): nat {
    if batch == [] then 0
    else (if batch[0].parentDebit > 0 && ParentOf(batch[0]) == id then batch[0].parentDebit else 0) + Debits(batch[1..], id)
  }

  function GlobalDebits(batch: seq<Admitted>): nat {
    if batch == [] then 0 else batch[0].globalDebit + GlobalDebits(batch[1..])
  }

  function NewSlots(batch: seq<Admitted>): seq<Slot> {
    if batch == [] then []
    else (if batch[0].request.kind.Specialist? then [Slot(batch[0].id, batch[0].request.budget, 0)] else [])
         + NewSlots(batch[1..])
  }

  function Charged(slots: seq<Slot>, batch: seq<Admitted>): (r: seq<Slot>)
    ensures |r| == |slots|
  {
    seq(|slots|, i requires 0 <= i < |slots| => slots[i].(spent := slots[i].spent + Debits(batch, slots[i].id)))
  }

  predicate Priced(a: Admitted) {
    if a.request.kind.Lead? then a.cost == 0 && a.globalDebit == 0 && a.parentDebit == 0
    else a.cost == 1 + a.request.budget && a.globalDebit + a.parentDebit == a.cost
         && (a.globalDebit == 0 || a.parentDebit == 0)
  }

  predicate DistinctSlots(slots: seq<Slot>) { forall i, j :: 0 <= i < j < |slots| ==> slots[i].id != slots[j].id }

  predicate HasSlot(slots: seq<Slot>, id: string) { exists i :: 0 <= i < |slots| && slots[i].id == id }

  predicate WithinBudget(slots: seq<Slot>) { forall i :: 0 <= i < |slots| ==> slots[i].spent <= slots[i].budget }

  /** The ledger's rules for reserving a batch under `credits`. */
  predicate Acceptable(p: Pool, batch: seq<Admitted>, credits: nat) {
    var slots := p.slots + NewSlots(batch);
    && (forall i :: 0 <= i < |batch| ==> Priced(batch[i]))
    && DistinctSlots(slots)
    && (forall i :: 0 <= i < |batch| && batch[i].parentDebit > 0 ==> HasSlot(slots, ParentOf(batch[i])))
    && p.globalSpent + GlobalDebits(batch) <= credits
    && WithinBudget(Charged(slots, batch))
  }

  function Reserve(p: Pool, batch: seq<Admitted>, credits: nat): Pool {
    if Acceptable(p, batch, credits)
    then Pool(Charged(p.slots + NewSlots(batch), batch), p.globalSpent + GlobalDebits(batch)) else p
  }

  /** Whatever the batch and the Mission, one of the two debits is the whole cost. */
  lemma BuiltAdmissionsArePriced(env: Env, requests: seq<Request>, m: Mission, actor: Actor, r: Request)
    ensures Priced(Resolve(env, requests, m, actor, r))
  {
    hide WithId, Leads;
  }

  function Budgets(slots: seq<Slot>): nat { if slots == [] then 0 else slots[0].budget + Budgets(slots[1..]) }

  function Spent(slots: seq<Slot>): nat { if slots == [] then 0 else slots[0].spent + Spent(slots[1..]) }

  function ParentDebits(batch: seq<Admitted>): nat {
    if batch == [] then 0 else batch[0].parentDebit + ParentDebits(batch[1..])
  }

  /** Specialists admitted, plus budget not yet spent, equal the global credits spent. */
  predicate Conserved(p: Pool) { |p.slots| + Budgets(p.slots) == p.globalSpent + Spent(p.slots) }

  lemma {:induction false} SumsSplit(a: seq<Slot>, b: seq<Slot>)
    ensures Budgets(a + b) == Budgets(a) + Budgets(b) && Spent(a + b) == Spent(a) + Spent(b)
  {
    if a == [] {
      assert a + b == b;
    } else {
      assert (a + b)[1..] == a[1..] + b;
      SumsSplit(a[1..], b);
    }
  }

  /** The budgets and number of the new specialists, against all that the batch costs. */
  lemma {:induction false} NewSlotsCost(batch: seq<Admitted>)
    requires forall i :: 0 <= i < |batch| ==> Priced(batch[i])
    ensures |NewSlots(batch)| + Budgets(NewSlots(batch)) == GlobalDebits(batch) + ParentDebits(batch)
    ensures Spent(NewSlots(batch)) == 0
  {
    if batch != [] {
      NewSlotsCost(batch[1..]);
      assert Priced(batch[0]);
      var first := if batch[0].request.kind.Specialist? then [Slot(batch[0].id, batch[0].request.budget, 0)] else [];
      SumsSplit(first, NewSlots(batch[1..]));
      assert NewSlots(batch) == first + NewSlots(batch[1..]);
    }
  }

  function Hits(slots: seq<Slot>, id: string, debit: nat): nat {
    if slots == [] then 0 else (if slots[0].id == id then debit else 0) + Hits(slots[1..], id, debit)
  }

  lemma {:induction false} NoHits(slots: seq<Slot>, id: string, debit: nat)
    requires !HasSlot(slots, id)
    ensures Hits(slots, id, debit) == 0
  {
    if slots != [] {
      assert forall i :: 0 <= i < |slots[1..]| ==> slots[1..][i] == slots[i + 1];
      NoHits(slots[1..], id, debit);
    }
  }

  lemma {:induction false} OneHit(slots: seq<Slot>, id: string, debit: nat)
    requires DistinctSlots(slots) && HasSlot(slots, id)
    ensures Hits(slots, id, debit) == debit
  {
    assert forall i :: 0 <= i < |slots[1..]| ==> slots[1..][i] == slots[i + 1];
    if slots[0].id == id {
      NoHits(slots[1..], id, debit);
    } else {
      var i :| 0 <= i < |slots| && slots[i].id == id;
      assert slots[1..][i - 1].id == id;
      OneHit(slots[1..], id, debit);
    }
  }

  lemma {:induction false} ChargeOne(slots: seq<Slot>, a: Admitted, rest: seq<Admitted>)
    ensures Spent(Charged(slots, [a] + rest)) ==
      Spent(Charged(slots, rest)) + (if a.parentDebit > 0 then Hits(slots, ParentOf(a), a.parentDebit) else 0)
  {
    assert ([a] + rest)[1..] == rest;
    if slots != [] {
      ChargeOne(slots[1..], a, rest);
      assert Charged(slots, [a] + rest)[1..] == Charged(slots[1..], [a] + rest);
      assert Charged(slots, rest)[1..] == Charged(slots[1..], rest);
    }
  }

  lemma {:induction false} ChargesAddUp(slots: seq<Slot>, batch: seq<Admitted>)
    requires DistinctSlots(slots)
    requires forall i :: 0 <= i < |batch| && batch[i].parentDebit > 0 ==> HasSlot(slots, ParentOf(batch[i]))
    ensures Spent(Charged(slots, batch)) == Spent(slots) + ParentDebits(batch)
  {
    if batch == [] {
      assert Charged(slots, batch) == slots;
    } else {
      assert forall i :: 0 <= i < |batch[1..]| ==> batch[1..][i] == batch[i + 1];
      ChargesAddUp(slots, batch[1..]);
      ChargeOne(slots, batch[0], batch[1..]);
      assert batch == [batch[0]] + batch[1..];
      if batch[0].parentDebit > 0 {
        OneHit(slots, ParentOf(batch[0]), batch[0].parentDebit);
      }
    }
  }

  lemma {:induction false} ChargingKeepsBudgets(slots: seq<Slot>, batch: seq<Admitted>)
    ensures Budgets(Charged(slots, batch)) == Budgets(slots)
  {
    if slots != [] {
      ChargingKeepsBudgets(slots[1..], batch);
      assert Charged(slots, batch)[1..] == Charged(slots[1..], batch);
    }
  }

  predicate PoolOk(p: Pool, credits: nat) {
    Conserved(p) && DistinctSlots(p.slots) && WithinBudget(p.slots) && p.globalSpent <= credits
  }

  lemma ReserveKeepsPool(p: Pool, batch: seq<Admitted>, credits: nat)
    requires PoolOk(p, credits)
    ensures PoolOk(Reserve(p, batch, credits), credits)
  {
    if Acceptable(p, batch, credits) {
      var slots := p.slots + NewSlots(batch);
      SumsSplit(p.slots, NewSlots(batch));
      NewSlotsCost(batch);
      ChargesAddUp(slots, batch);
      ChargingKeepsBudgets(slots, batch);
      hide Budgets, Spent, Debits, GlobalDebits, ParentDebits, NewSlots;
      assert DistinctSlots(Charged(slots, batch));
    }
  }

  function ReserveAll(p: Pool, batches: seq<seq<Admitted>>, credits: nat): Pool {
    if batches == [] then p
    else Reserve(ReserveAll(p, batches[..|batches| - 1], credits), batches[|batches| - 1], credits)
  }

  lemma {:induction false} ReservationsKeepPool(batches: seq<seq<Admitted>>, credits: nat)
    ensures PoolOk(ReserveAll(Pool([], 0), batches, credits), credits)
  {
    hide Reserve;
    if batches != [] {
      ReservationsKeepPool(batches[..|batches| - 1], credits);
      ReserveKeepsPool(ReserveAll(Pool([], 0), batches[..|batches| - 1], credits), batches[|batches| - 1], credits);
    }
  }

  lemma {:induction false} SpentWithinBudgets(slots: seq<Slot>)
    requires WithinBudget(slots)
    ensures Spent(slots) <= Budgets(slots)
  {
    if slots != [] {
      assert forall i :: 0 <= i < |slots[1..]| ==> slots[1..][i] == slots[i + 1];
      SpentWithinBudgets(slots[1..]);
    }
  }

  /** Whatever batches are reserved, at whatever depth of delegation, no more specialists are
      ever admitted than global credits were spent, nor more than the policy's credits. */
  lemma SpecialistsWithinCredits(batches: seq<seq<Admitted>>, credits: nat)
    ensures var p := ReserveAll(Pool([], 0), batches, credits);
      |p.slots| <= p.globalSpent <= credits && Conserved(p)
  {
    ReservationsKeepPool(batches, credits);
    SpentWithinBudgets(ReserveAll(Pool([], 0), batches, credits).slots);
  }
}
