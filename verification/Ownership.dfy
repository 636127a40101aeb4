/** Owner references give an exact cascade: when an identity goes, the collector
    takes the account and the binding made for it, and nothing else, ever. */
module Ownership {
  import opened Cluster
  import opened Protocol
  import opened Safety
  import opened WriteOrder

  /** No UID is shared or handed out twice. */
  ghost predicate Uids(s: Store) {
    && (forall k :: k in s.ids ==> s.ids[k].uid < s.clock)
    && (forall r :: r in s.deps ==> s.deps[r].uid < s.clock)
    && (forall r :: r in s.deps && s.deps[r].owner.Some? ==> s.deps[r].owner.value < s.clock)
    && (forall k, j :: k in s.ids && j in s.ids && s.ids[k].uid == s.ids[j].uid ==> k == j)
    && (forall q, r :: q in s.deps && r in s.deps && s.deps[q].uid == s.deps[r].uid ==> q == r)
    && (forall k, r :: k in s.ids && r in s.deps ==> s.ids[k].uid != s.deps[r].uid)
  }

  /** Who may own whom: an identity its account, an account its binding, and the
      "default" account the namespace's role. */
  predicate MayOwn(owner: Ref, owned: Ref) {
    || (owner.Account? && owned == Binding(owner.ns, owner.name))
    || (owner.Account? && owner.name == "default" && owned == Role(owner.ns))
  }

  ghost predicate Edges(s: Store) {
    && (forall k, r :: k in s.ids && r in s.deps && s.deps[r].owner == Some(s.ids[k].uid) ==> r == AccountOf(k))
    && (forall q, r :: q in s.deps && r in s.deps && s.deps[r].owner == Some(s.deps[q].uid) ==> MayOwn(q, r))
  }

  /** A cluster before the operator's first step: no identities, and of the objects
      it will look for only unowned ones. */
  ghost predicate Untouched(w: World) {
    var s := w.store;
    && s.ids == map[] && w.workers == map[] && w.reconcilers == map[] && ProvidersOk(s)
    && (forall r :: r in s.deps ==> s.deps[r].uid < s.clock && s.deps[r].owner.None?)
    && (forall q, r :: q in s.deps && r in s.deps && s.deps[q].uid == s.deps[r].uid ==> q == r)
  }

  /** It satisfies every invariant that the theorems about runs start from. */
  lemma UntouchedStart(w: World)
    requires Untouched(w)
    ensures OrderInv(w) && Uids(w.store) && Edges(w.store)
  {
  }

  /** So over every orderly run from there, published metadata means complete, and
      owner edges have their shape. */
  lemma FromUntouched(w: World, actions: seq<Action>)
    requires Untouched(w) && OrderlyRun(w, actions)
    ensures var s := Run(w, actions).store;
      && (forall k :: k in s.ids && s.ids[k].metadata != map[] ==> Complete(s, k))
      && Uids(s) && Edges(s)
  {
    hide Untouched, OrderInv, OrderlyRun, Uids, Edges, Complete;
    UntouchedStart(w);
    PublishedMeansComplete(w, actions);
    EdgesOnEveryRun(w, actions);
  }

  // ---------------------------------------------------------------- over runs

  lemma SameShape(s: Store, t: Store)
    requires Uids(s) && Edges(s) && t.deps == s.deps && s.clock <= t.clock
    requires forall k :: k in t.ids ==> (k in s.ids && t.ids[k].uid == s.ids[k].uid) || (k !in s.ids && t.ids[k].uid == s.clock < t.clock)
    requires forall k, j :: k in t.ids && j in t.ids && k !in s.ids && j !in s.ids ==> k == j
    ensures Uids(t) && Edges(t)
  {
  }

  lemma FewerShape(s: Store, ref: Ref)
    requires Uids(s) && Edges(s)
    ensures Uids(Remove(s, ref)) && Edges(Remove(s, ref))
  {
  }

  lemma CreatedShape(s: Store, ref: Ref, owner: Option<nat>, content: Content)
    requires Uids(s) && Edges(s) && ref !in s.deps
    requires owner.Some? ==> owner.value < s.clock
    requires owner.Some? ==> forall k :: k in s.ids && s.ids[k].uid == owner.value ==> ref == AccountOf(k)
    requires owner.Some? ==> forall q :: q in s.deps && s.deps[q].uid == owner.value ==> MayOwn(q, ref)
    ensures Uids(CreateDep(s, ref, owner, content).value) && Edges(CreateDep(s, ref, owner, content).value)
  {
    hide Uids, Edges, MayOwn;
    CreatedUids(s, ref, owner, content);
    CreatedEdges(s, ref, owner, content);
  }

  lemma CreatedUids(s: Store, ref: Ref, owner: Option<nat>, content: Content)
    requires Uids(s) && ref !in s.deps && (owner.Some? ==> owner.value < s.clock)
    ensures Uids(CreateDep(s, ref, owner, content).value)
  {
  }

  lemma CreatedEdges(s: Store, ref: Ref, owner: Option<nat>, content: Content)
    requires Uids(s) && Edges(s) && ref !in s.deps
    requires owner.Some? ==> owner.value < s.clock
    requires owner.Some? ==> forall k :: k in s.ids && s.ids[k].uid == owner.value ==> ref == AccountOf(k)
    requires owner.Some? ==> forall q :: q in s.deps && s.deps[q].uid == owner.value ==> MayOwn(q, ref)
    ensures Edges(CreateDep(s, ref, owner, content).value)
  {
    hide MayOwn;
  }

  lemma EnsureShape(s: Store, k: Key, stage: Stage, missing: bool, c: Identity, helper: Backend, account: nat, io: Io)
    requires Uids(s) && Edges(s)
    requires PcOk(s, k, Ensure(stage, missing, c, helper, account))
    requires DepsOk(s, k) && PcBuilt(s, k, Ensure(stage, missing, c, helper, account))
    ensures var t := EnsureStep(s, k, stage, missing, c, helper, account, io).0; Uids(t) && Edges(t)
  {
    hide Uids, Edges;
    var target := Target(k, stage);
    if missing && target !in s.deps {
      EnsureOwner(s, k, stage, c, helper, account);
      CreatedShape(s, target, OwnerAt(stage, c, account), ContentAt(k, stage));
    }
  }

  lemma EnsureOwner(s: Store, k: Key, stage: Stage, c: Identity, helper: Backend, account: nat)
    requires Uids(s) && Target(k, stage) !in s.deps
    requires PcOk(s, k, Ensure(stage, true, c, helper, account))
    requires DepsOk(s, k) && PcBuilt(s, k, Ensure(stage, true, c, helper, account))
    ensures var owner := OwnerAt(stage, c, account);
      owner.Some? ==>
        && owner.value < s.clock
        && (forall j :: j in s.ids && s.ids[j].uid == owner.value ==> Target(k, stage) == AccountOf(j))
        && (forall q :: q in s.deps && s.deps[q].uid == owner.value ==> MayOwn(q, Target(k, stage)))
  {
  }

  /** A write over an existing object keeps its UID. */
  predicate Rewrites(s: Store, t: Store) {
    && t.deps == s.deps && s.clock <= t.clock
    && (forall k :: k in t.ids ==> k in s.ids && t.ids[k].uid == s.ids[k].uid)
  }

  lemma UpdateRewrites(s: Store, k: Key, sent: Identity)
    ensures Rewrites(s, GetOr(UpdateIdentity(s, k, sent), s))
    ensures Rewrites(s, GetOr(UpdateIdentityStatus(s, k, sent), s))
  {
  }

  lemma DeleteRewrites(s: Store, k: Key)
    ensures Rewrites(s, GetOr(DeleteIdentity(s, k), s))
  {
  }

  lemma WriteShape(s: Store, k: Key, sent: Identity)
    requires Uids(s) && Edges(s)
    ensures var t := GetOr(UpdateIdentity(s, k, sent), s); Uids(t) && Edges(t)
    ensures var t := GetOr(UpdateIdentityStatus(s, k, sent), s); Uids(t) && Edges(t)
    ensures var t := GetOr(DeleteIdentity(s, k), s); Uids(t) && Edges(t)
  {
    hide Uids, Edges, UpdateIdentity, UpdateIdentityStatus, DeleteIdentity;
    UpdateRewrites(s, k, sent);
    DeleteRewrites(s, k);
    SameShape(s, GetOr(UpdateIdentity(s, k, sent), s));
    SameShape(s, GetOr(UpdateIdentityStatus(s, k, sent), s));
    SameShape(s, GetOr(DeleteIdentity(s, k), s));
  }

  lemma ProviderShape(s: Store, t: Store)
    requires Uids(s) && Edges(s) && t.ids == s.ids && t.deps == s.deps && s.clock <= t.clock
    ensures Uids(t) && Edges(t)
  {
  }

  lemma IdStepShape(s: Store, k: Key, pc: IdPc, io: Io)
    requires Uids(s) && Edges(s) && PcOk(s, k, pc) && DepsOk(s, k) && PcBuilt(s, k, pc)
    ensures var t := IdStep(s, k, pc, io).0; Uids(t) && Edges(t)
  {
    hide Uids, Edges, UpdateIdentity, UpdateIdentityStatus, EnsureStep, Stored, AfterRead;
    match pc
    case Release(c) => WriteShape(s, k, ReleasedCopy(c));
    case Claim(c) => WriteShape(s, k, ClaimedCopy(c));
    case Init(c, _) => WriteShape(s, k, c.(phase := Reconciling));
    case Announce(c, helper) => WriteShape(s, k, AnnouncedCopy(c, helper));
    case Tag(c, _) => WriteShape(s, k, TaggedCopy(c));
    case Publish(c, meta) => WriteShape(s, k, c.(metadata := meta));
    case Ensure(stage, missing, c, helper, account) => EnsureShape(s, k, stage, missing, c, helper, account, io);
    case _ => ProviderShape(s, IdStep(s, k, pc, io).0);
  }

  lemma PrStepShape(s: Store, p: ProviderKey, pc: PrPc, io: Io, items: seq<Key>, issuer: string)
    requires Uids(s) && Edges(s)
    ensures var t := PrStep(s, p, pc, io, items, issuer).0; Uids(t) && Edges(t)
  {
    hide Uids, Edges, DeleteIdentity;
    var t := PrStep(s, p, pc, io, items, issuer).0;
    match pc
    case PDelete(c, list, i) =>
      if i < |list| {
        DeleteRewrites(s, list[i]);
        SameShape(s, GetOr(DeleteIdentity(s, list[i]), s));
      }
    case _ => ProviderShape(s, t);
  }

  lemma OutsideShape(s: Store, a: Action)
    requires Uids(s) && Edges(s) && Orderly(s, a)
    ensures Uids(Outside(s, a)) && Edges(Outside(s, a))
  {
    hide Uids, Edges, UpdateIdentity, UpdateIdentityStatus, DeleteIdentity, FinalizerDiscipline, Clean;
    match a
    case UserEdit(k, provider, labels, finalizers) =>
      if k in s.ids { WriteShape(s, k, s.ids[k].(provider := provider, labels := labels, finalizers := finalizers)); }
    case UserStatus(k, phase, statusProvider, metadata) =>
      if k in s.ids {
        WriteShape(s, k, s.ids[k].(phase := phase, statusProvider := statusProvider, metadata := metadata));
      }
    case UserDelete(k) => DeleteRewrites(s, k); SameShape(s, Outside(s, a));
    case UserCreate(k, _, _, _) => SameShape(s, Outside(s, a));
    case DepCreate(ref, owner, content) => if ref !in s.deps { CreatedShape(s, ref, owner, content); }
    case Collect(ref) => FewerShape(s, ref);
    case _ => ProviderShape(s, Outside(s, a));
  }

  lemma EdgesKept(w: World, a: Action)
    requires OrderInv(w) && Orderly(w.store, a) && Uids(w.store) && Edges(w.store)
    ensures Uids(Do(w, a).store) && Edges(Do(w, a).store)
  {
    hide Uids, Edges, IdStep, PrStep, Outside, Orderly, IsListing, ProgressStep;
    match a
    case IdCall(k, io) =>
      assert KeyOk(w, k);
      IdStepShape(w.store, k, PcOf(w, k), io);
    case ProviderCall(p, io, items, issuer) => PrStepShape(w.store, p, PrPcOf(w, p), io, items, issuer);
    case Progress(k) =>
      ProgressQuiet(w.store, k, PcOf(w, k));
      ProviderShape(w.store, Do(w, a).store);
    case Crash =>
    case _ => OutsideShape(w.store, a);
  }

  lemma {:induction false} EdgesOnEveryRun(w: World, actions: seq<Action>)
    requires OrderInv(w) && OrderlyRun(w, actions) && Uids(w.store) && Edges(w.store)
    ensures Uids(Run(w, actions).store) && Edges(Run(w, actions).store)
    decreases |actions|
  {
    hide Uids, Edges;
    if actions != [] {
      EdgesKept(w, actions[0]);
      OrderKept(w, actions[0]);
      EdgesOnEveryRun(Do(w, actions[0]), actions[1..]);
    }
  }

  lemma EnsureAddsBinding(s: Store, k: Key, stage: Stage, missing: bool, c: Identity, helper: Backend, uid: nat, io: Io, account: string)
    requires Uids(s) && PcBuilt(s, k, Ensure(stage, missing, c, helper, uid))
    requires Binding(k.ns, account) !in s.deps
    requires Binding(k.ns, account) in EnsureStep(s, k, stage, missing, c, helper, uid, io).0.deps
    ensures var t := EnsureStep(s, k, stage, missing, c, helper, uid, io).0;
      && Role(k.ns) in t.deps && t.deps[Role(k.ns)].uid < t.deps[Binding(k.ns, account)].uid
      && t.deps[Binding(k.ns, account)].content == Bind(account, ROLE_NAME)
  {
  }

  lemma StepAddsBinding(s: Store, k: Key, pc: IdPc, io: Io, account: string)
    requires Uids(s) && PcBuilt(s, k, pc) && Binding(k.ns, account) !in s.deps
    requires Binding(k.ns, account) in IdStep(s, k, pc, io).0.deps
    ensures var t := IdStep(s, k, pc, io).0;
      && Role(k.ns) in t.deps && t.deps[Role(k.ns)].uid < t.deps[Binding(k.ns, account)].uid
      && t.deps[Binding(k.ns, account)].content == Bind(account, ROLE_NAME)
  {
    hide Uids, PcBuilt, IdStep, EnsureStep, Tidy;
    if pc.Ensure? {
      EnsureIsStep(s, k, pc.stage, pc.missing, pc.copy, pc.helper, pc.account, io);
      EnsureAddsBinding(s, k, pc.stage, pc.missing, pc.copy, pc.helper, pc.account, io, account);
    } else {
      assert |k.name + "-"| != |k.name|;
      OtherTidy(s, k, pc, io, Key(k.ns, k.name + "-"));
    }
  }

  /** A binding is only ever created beside a role that is older than it. */
  lemma BindingAfterRole(w: World, k: Key, io: Io, account: string)
    requires OrderInv(w) && Uids(w.store)
    requires Binding(k.ns, account) !in w.store.deps
    requires Binding(k.ns, account) in Do(w, IdCall(k, io)).store.deps
    ensures var t := Do(w, IdCall(k, io)).store;
      && Role(k.ns) in t.deps && t.deps[Role(k.ns)].uid < t.deps[Binding(k.ns, account)].uid
      && t.deps[Binding(k.ns, account)].content == Bind(account, ROLE_NAME)
  {
    hide IdStep, Uids, PcBuilt, Published, DepsOk, Base;
    assert KeyOk(w, k);
    StepAddsBinding(w.store, k, PcOf(w, k), io, account);
  }

  // ---------------------------------------------------------------- the cascade

  ghost predicate Settled(s: Store) {
    forall r :: !Collectable(s, r)
  }

  ghost function CollectAll(s: Store, refs: seq<Ref>): Store
    decreases |refs|
  {
    if refs == [] then s else CollectAll(Outside(s, Collect(refs[0])), refs[1..])
  }

  /** What the operator made for identity `k`: the account it owns, and the
      binding that account owns. */
  ghost predicate Due(s: Store, k: Key, r: Ref)
    requires k in s.ids
  {
    && AccountOf(k) in s.deps && s.deps[AccountOf(k)].owner == Some(s.ids[k].uid)
    && r in s.deps
    && (r == AccountOf(k) || (r == BindingOf(k) && s.deps[r].owner == Some(s.deps[AccountOf(k)].uid)))
  }

  /** `t` is `s` without `k` and without some of what is due with it. */
  ghost predicate Within(s: Store, k: Key, t: Store)
    requires k in s.ids
  {
    && t.ids == s.ids - {k}
    && (forall r :: r in t.deps ==> r in s.deps && t.deps[r] == s.deps[r])
    && (forall r :: r in s.deps && !Due(s, k, r) ==> r in t.deps)
  }

  lemma OwnedByTheLiving(s: Store, k: Key, t: Store, r: Ref)
    requires Uids(s) && Edges(s) && Settled(s) && k in s.ids && Rooted(s, k.ns)
    requires Within(s, k, t) && r in s.deps && s.deps[r].owner.Some? && !Due(s, k, r)
    ensures Alive(t, s.deps[r].owner.value)
  {
    hide Due, Rooted, Edges, Uids;
    var uid := s.deps[r].owner.value;
    assert !Collectable(s, r);
    if j :| j in s.ids && s.ids[j].uid == uid {
      if j == k { OwnedIsDue(s, k, r); }
      assert j in t.ids;
    } else {
      var q :| q in s.deps && s.deps[q].uid == uid;
      if Due(s, k, q) { OwnedByDue(s, k, q, r); }
      assert q in t.deps;
    }
  }

  lemma OwnedIsDue(s: Store, k: Key, r: Ref)
    requires Edges(s) && k in s.ids && r in s.deps && s.deps[r].owner == Some(s.ids[k].uid)
    ensures Due(s, k, r)
  {
  }

  /** What is owned by something due is due: the account owns only the binding,
      for the account of that name is not the namespace's own. */
  lemma OwnedByDue(s: Store, k: Key, q: Ref, r: Ref)
    requires Uids(s) && Edges(s) && k in s.ids && Rooted(s, k.ns) && Due(s, k, q)
    requires r in s.deps && s.deps[r].owner == Some(s.deps[q].uid)
    ensures Due(s, k, r)
  {
    assert MayOwn(q, r);
  }

  lemma {:induction false} StaysWithin(s: Store, k: Key, t: Store, refs: seq<Ref>)
    requires Uids(s) && Edges(s) && Settled(s) && k in s.ids && Rooted(s, k.ns)
    requires Within(s, k, t)
    ensures Within(s, k, CollectAll(t, refs))
    decreases |refs|
  {
    hide Uids, Edges, Settled, Rooted, Due;
    if refs != [] {
      var t' := Outside(t, Collect(refs[0]));
      if refs[0] in s.deps && s.deps[refs[0]].owner.Some? && !Due(s, k, refs[0]) {
        OwnedByTheLiving(s, k, t, refs[0]);
      }
      StaysWithin(s, k, t', refs[1..]);
    }
  }

  lemma DueIsCollectable(s: Store, k: Key, t: Store, r: Ref)
    requires Uids(s) && k in s.ids && Within(s, k, t) && Due(s, k, r) && r in t.deps
    ensures !Settled(t)
  {
    var account := AccountOf(k);
    if account in t.deps {
      assert Collectable(t, account);
    } else {
      assert Collectable(t, r);
    }
  }

  /** Whatever order the collector works in, it removes nothing but what is due,
      and once nothing is left to collect, exactly that is gone. */
  lemma ExactCascade(s: Store, k: Key, refs: seq<Ref>)
    requires Uids(s) && Edges(s) && Settled(s) && k in s.ids && Rooted(s, k.ns)
    ensures var t := CollectAll(s.(ids := s.ids - {k}), refs);
      && (forall r :: r in s.deps && !Due(s, k, r) ==> r in t.deps && t.deps[r] == s.deps[r])
      && (Settled(t) ==> forall r :: r in t.deps <==> r in s.deps && !Due(s, k, r))
  {
    var t0 := s.(ids := s.ids - {k});
    var t := CollectAll(t0, refs);
    StaysWithin(s, k, t0, refs);
    forall r | r in t.deps && Due(s, k, r) ensures !Settled(t) {
      DueIsCollectable(s, k, t, r);
    }
  }

  /** In particular the shared role, the default account and its binding, and the
      objects of every other identity survive. */
  lemma OthersSurvive(s: Store, k: Key, refs: seq<Ref>, j: Key)
    requires Uids(s) && Edges(s) && Settled(s) && k in s.ids && Rooted(s, k.ns) && j != k
    ensures var t := CollectAll(s.(ids := s.ids - {k}), refs);
      && (Role(k.ns) in s.deps ==> Role(k.ns) in t.deps)
      && Account(k.ns, "default") in t.deps
      && (Binding(k.ns, "default") in s.deps ==> Binding(k.ns, "default") in t.deps)
      && (AccountOf(j) in s.deps ==> AccountOf(j) in t.deps)
      && (BindingOf(j) in s.deps ==> BindingOf(j) in t.deps)
  {
    ExactCascade(s, k, refs);
  }
}
