/** The order of Reconcile's writes as an invariant: an identity whose metadata is
    published has everything a pod that uses it relies on. */
module WriteOrder {
  import opened Cluster
  import opened Protocol
  import opened Safety

  function Needed(ref: Ref): Content {
    match ref
    case Account(_, _) => Plain
    case Role(_) => PolicyReader
    case Binding(_, account) => Bind(account, ROLE_NAME)
  }

  /** Present with the operator's content, and nobody's or `uid`'s. */
  predicate Sound(s: Store, ref: Ref, uid: nat) {
    ref in s.deps && s.deps[ref].content == Needed(ref)
      && (s.deps[ref].owner.None? || s.deps[ref].owner == Some(uid))
  }

  predicate SoundIfAny(s: Store, ref: Ref, uid: nat) {
    ref in s.deps ==> Sound(s, ref, uid)
  }

  /** The namespace's own "default" account exists and owns, at most, the shared
      role and its own binding. */
  predicate Rooted(s: Store, ns: string) {
    var root := Account(ns, "default");
    && root in s.deps && s.deps[root].owner.None?
    && SoundIfAny(s, Role(ns), s.deps[root].uid)
    && SoundIfAny(s, Binding(ns, "default"), s.deps[root].uid)
  }

  function AccountOf(k: Key): Ref { Account(k.ns, k.name) }
  function BindingOf(k: Key): Ref { Binding(k.ns, k.name) }

  /** No leftover of an earlier identity: what is there now is there to stay. */
  predicate Owned(s: Store, k: Key, uid: nat) {
    && (AccountOf(k) in s.deps ==> s.deps[AccountOf(k)].owner.None? || s.deps[AccountOf(k)].owner == Some(uid))
    && (BindingOf(k) in s.deps ==>
          && s.deps[BindingOf(k)].content == Needed(BindingOf(k))
          && (s.deps[BindingOf(k)].owner.None?
              || (AccountOf(k) in s.deps && s.deps[BindingOf(k)].owner == Some(s.deps[AccountOf(k)].uid))))
  }

  predicate Clean(s: Store, k: Key) {
    Rooted(s, k.ns) && Owned(s, k, s.clock) && (AccountOf(k) in s.deps ==> s.deps[AccountOf(k)].owner.None?)
  }

  function StageNo(stage: Stage): nat {
    match stage
    case MakeAccount => 0
    case ReadDefault => 1
    case DefaultRole => 2
    case DefaultBinding => 3
    case ReadOwn => 4
    case OwnRole => 5
    case OwnBinding => 6
  }

  /** The objects of the first `n` stages exist. */
  predicate Built(s: Store, k: Key, n: nat) {
    && (n > 0 ==> AccountOf(k) in s.deps)
    && (n > 2 ==> Role(k.ns) in s.deps)
    && (n > 3 ==> Binding(k.ns, "default") in s.deps)
    && (n > 6 ==> BindingOf(k) in s.deps)
  }

  predicate PcBuilt(s: Store, k: Key, pc: IdPc) {
    match pc
    case Undo(c, _) => c.deleting
    case Release(c) => c.deleting
    case Ensure(stage, missing, c, _, account) =>
      && Built(s, k, StageNo(stage)) && !(missing && ReadOnly(stage))
      && (stage.DefaultRole? ==> Account(k.ns, "default") in s.deps && account == s.deps[Account(k.ns, "default")].uid)
      && (stage.OwnRole? || stage.OwnBinding? ==> account == s.deps[AccountOf(k)].uid)
    case Enroll(_, _) => Built(s, k, 7)
    case Tag(_, _) => Built(s, k, 7)
    case Publish(c, _) => Built(s, k, 7) && Labelled(c, c.provider)
    case _ => true
  }

  /** Published metadata means: label, account, role and both bindings; and the
      finalizer while the object is not being deleted. */
  predicate Published(s: Store, k: Key) {
    k in s.ids && s.ids[k].metadata != map[] ==>
      && Built(s, k, 7) && Labelled(s.ids[k], s.ids[k].provider)
      && (!s.ids[k].deleting ==> IDENTITY_FINALIZER in s.ids[k].finalizers)
  }

  predicate DepsOk(s: Store, k: Key) {
    k in s.ids ==> Rooted(s, k.ns) && Owned(s, k, s.ids[k].uid)
  }

  predicate KeyOk(w: World, k: Key) {
    DepsOk(w.store, k) && Published(w.store, k) && PcBuilt(w.store, k, PcOf(w, k))
  }

  ghost predicate OrderInv(w: World) {
    Base(w) && forall k :: KeyOk(w, k)
  }

  /** Hypotheses, step by step: nobody else deletes the dependents or writes the
      published fields, spec.provider is not edited, and an identity is created
      only once its predecessor's dependents are collected. */
  predicate Orderly(s: Store, a: Action) {
    && FinalizerDiscipline(s, a)
    && match a
       case UserCreate(k, _, _, _) => Clean(s, k)
       case UserEdit(k, _, labels, _) =>
         k in s.ids && Labelled(s.ids[k], s.ids[k].provider) ==>
           PROVIDER_LABEL in labels && labels[PROVIDER_LABEL] == s.ids[k].provider
       case UserStatus(k, _, _, metadata) => k in s.ids ==> metadata == s.ids[k].metadata
       case DepCreate(ref, owner, content) => owner.None? && content == Needed(ref)
       case DepDelete(_) => false
       case _ => true
  }

  ghost predicate OrderlyRun(w: World, actions: seq<Action>)
    decreases |actions|
  {
    actions == [] || (Orderly(w.store, actions[0]) && OrderlyRun(Do(w, actions[0]), actions[1..]))
  }

  // ---------------------------------------------------------------- steps by others

  /** The object at `k` as a step of anybody but its worker may leave it. */
  predicate Tidy(s: Store, t: Store, k: Key) {
    k in t.ids ==>
      || (k in s.ids && t.ids[k] == s.ids[k])
      || (k in s.ids && t.ids[k].uid == s.ids[k].uid && t.ids[k].provider == s.ids[k].provider
          && t.ids[k].metadata == s.ids[k].metadata
          && (s.ids[k].deleting ==> t.ids[k].deleting)
          && (Held(s, k) <==> Held(t, k))
          && (Labelled(s.ids[k], s.ids[k].provider) ==> Labelled(t.ids[k], s.ids[k].provider)))
      || (t.ids[k].metadata == map[] && Clean(s, k) && k !in s.ids)
  }

  /** New dependents are allowed, lost ones are not (except by collection). */
  lemma TidyKeeps(s: Store, t: Store, k: Key, pc: IdPc)
    requires Tidy(s, t, k) && t.deps == s.deps
    requires DepsOk(s, k) && Published(s, k) && PcBuilt(s, k, pc)
    ensures DepsOk(t, k) && Published(t, k) && PcBuilt(t, k, pc)
  {
  }

  /** `t` has one dependent more. */
  predicate Adds(s: Store, t: Store, ref: Ref) {
    t.ids == s.ids && ref !in s.deps && ref in t.deps
      && (forall r :: r in s.deps ==> r in t.deps && t.deps[r] == s.deps[r])
      && (forall r :: r in t.deps ==> r == ref || r in s.deps)
      && t.deps[ref].content == Needed(ref)
  }

  lemma AddsKeeps(s: Store, t: Store, ref: Ref, k: Key, pc: IdPc)
    requires Adds(s, t, ref) && PcOk(s, k, pc)
    requires DepsOk(s, k) && Published(s, k) && PcBuilt(s, k, pc)
    requires
      || t.deps[ref].owner.None?
      || (ref == AccountOf(k) && (k in s.ids ==> t.deps[ref].owner == Some(s.ids[k].uid)))
      || (ref == BindingOf(k) && AccountOf(k) in s.deps && t.deps[ref].owner == Some(s.deps[AccountOf(k)].uid) && k.name != "default")
      || (ref == Role(k.ns) && Account(k.ns, "default") in s.deps && t.deps[ref].owner == Some(s.deps[Account(k.ns, "default")].uid))
      || (ref != AccountOf(k) && ref != BindingOf(k) && ref != Role(k.ns) && ref != Binding(k.ns, "default"))
    ensures DepsOk(t, k) && Published(t, k) && PcBuilt(t, k, pc)
  {
  }

  /** The collector never takes anything a live identity relies on. */
  lemma CollectKeeps(s: Store, ref: Ref, k: Key, pc: IdPc)
    requires Collectable(s, ref) && PcOk(s, k, pc)
    requires DepsOk(s, k) && Published(s, k) && PcBuilt(s, k, pc)
    ensures var t := Remove(s, ref); DepsOk(t, k) && Published(t, k) && PcBuilt(t, k, pc)
  {
    if k in s.ids {
      var root := Account(k.ns, "default");
      assert Alive(s, s.deps[root].uid);
      assert Alive(s, s.ids[k].uid);
      assert AccountOf(k) in s.deps ==> Alive(s, s.deps[AccountOf(k)].uid);
    }
  }

  lemma OutsideTidy(s: Store, a: Action, k: Key)
    requires Orderly(s, a) && !a.DepCreate? && !a.Collect?
    ensures Tidy(s, Outside(s, a), k) && Outside(s, a).deps == s.deps
  {
    hide Clean, CreateDep;
  }

  lemma ProviderTidy(s: Store, p: ProviderKey, pc: PrPc, io: Io, items: seq<Key>, issuer: string, k: Key)
    ensures var t := PrStep(s, p, pc, io, items, issuer).0; Tidy(s, t, k) && t.deps == s.deps
  {
    hide Clean, UpdateProvider, UpdateProviderStatus;
    match pc
    case PRelease(c, _) => UpdateProviderFrame(s, p, c.(finalizers := c.finalizers - {PROVIDER_FINALIZER}));
    case PInit(c) => UpdateProviderFrame(s, p, c.(phase := Reconciling));
    case PClaim(c) => UpdateProviderFrame(s, p, c.(finalizers := c.finalizers + {PROVIDER_FINALIZER}));
    case PAnnounce(c) =>
      UpdateProviderFrame(s, p, c.(phase := Reconciled, issuer := if p.kind.Kubernetes? then issuer else c.issuer));
    case _ =>
  }

  lemma UpdateProviderFrame(s: Store, p: ProviderKey, sent: Provider)
    ensures var t := GetOr(UpdateProvider(s, p, sent), s); t.ids == s.ids && t.deps == s.deps
    ensures var t := GetOr(UpdateProviderStatus(s, p, sent), s); t.ids == s.ids && t.deps == s.deps
  {
  }

  lemma EnsureEffect(s: Store, j: Key, stage: Stage, missing: bool, c: Identity, helper: Backend, account: nat, io: Io)
    ensures var t := EnsureStep(s, j, stage, missing, c, helper, account, io).0;
      t == s || (missing && Adds(s, t, Target(j, stage)) && t.deps[Target(j, stage)].owner == OwnerAt(stage, c, account))
  {
  }

  /** The dependents other identities' workers make are no business of `k`. */
  lemma OtherEnsure(s: Store, t: Store, j: Key, stage: Stage, c: Identity, helper: Backend, account: nat, k: Key, pc: IdPc)
    requires j != k && PcOk(s, k, pc) && PcOk(s, j, Ensure(stage, true, c, helper, account))
    requires DepsOk(s, j) && PcBuilt(s, j, Ensure(stage, true, c, helper, account))
    requires DepsOk(s, k) && Published(s, k) && PcBuilt(s, k, pc)
    requires Adds(s, t, Target(j, stage)) && t.deps[Target(j, stage)].owner == OwnerAt(stage, c, account)
    ensures DepsOk(t, k) && Published(t, k) && PcBuilt(t, k, pc)
  {
    AddsKeeps(s, t, Target(j, stage), k, pc);
  }

  lemma OwnEnsure(s: Store, t: Store, stage: Stage, c: Identity, helper: Backend, account: nat, k: Key)
    requires PcOk(s, k, Ensure(stage, true, c, helper, account))
    requires DepsOk(s, k) && Published(s, k) && PcBuilt(s, k, Ensure(stage, true, c, helper, account))
    requires Adds(s, t, Target(k, stage)) && t.deps[Target(k, stage)].owner == OwnerAt(stage, c, account)
    ensures DepsOk(t, k) && Published(t, k)
    ensures PcBuilt(t, k, Ensure(stage, true, c, helper, account))
  {
    AddsKeeps(s, t, Target(k, stage), k, Ensure(stage, true, c, helper, account));
  }

  lemma AdvanceBuilt(t: Store, k: Key, stage: Stage, missing: bool, c: Identity, helper: Backend, account: nat)
    requires PcBuilt(t, k, Ensure(stage, missing, c, helper, account)) && Target(k, stage) in t.deps
    ensures PcBuilt(t, k, Advance(stage, c, helper, if ReadOnly(stage) then t.deps[Target(k, stage)].uid else account))
  {
  }

  lemma EnsureKeeps(s: Store, k: Key, stage: Stage, missing: bool, c: Identity, helper: Backend, account: nat, io: Io)
    requires PcOk(s, k, Ensure(stage, missing, c, helper, account))
    requires DepsOk(s, k) && Published(s, k) && PcBuilt(s, k, Ensure(stage, missing, c, helper, account))
    ensures var r := EnsureStep(s, k, stage, missing, c, helper, account, io);
      DepsOk(r.0, k) && Published(r.0, k) && PcBuilt(r.0, k, r.1)
  {
    hide DepsOk, Published, PcBuilt, CopyOk, Advance, Adds;
    var r := EnsureStep(s, k, stage, missing, c, helper, account, io);
    EnsureEffect(s, k, stage, missing, c, helper, account, io);
    IdleBuilt(r.0, k);
    if r.0 != s { OwnEnsure(s, r.0, stage, c, helper, account, k); }
    if !ReadOnly(stage) { MissingToo(r.0, k, stage, missing, c, helper, account); }
    MissingWrites(s, k, stage, missing, c, helper, account);
    if r.1 != Idle && Target(k, stage) in r.0.deps { AdvanceBuilt(r.0, k, stage, missing, c, helper, account); }
  }

  lemma IdleBuilt(s: Store, k: Key)
    ensures PcBuilt(s, k, Idle)
  {
  }

  lemma MissingWrites(s: Store, k: Key, stage: Stage, missing: bool, c: Identity, helper: Backend, account: nat)
    requires PcBuilt(s, k, Ensure(stage, missing, c, helper, account))
    ensures missing ==> !ReadOnly(stage)
  {
  }

  lemma MissingToo(s: Store, k: Key, stage: Stage, missing: bool, c: Identity, helper: Backend, account: nat)
    requires PcBuilt(s, k, Ensure(stage, missing, c, helper, account)) && !ReadOnly(stage)
    ensures PcBuilt(s, k, Ensure(stage, true, c, helper, account))
  {
  }

  /** A write of the worker of `k` over its own current copy. */
  lemma OwnWrite(s: Store, k: Key, c: Identity, sent: Identity)
    requires CopyOk(s, k, c) && Published(s, k) && DepsOk(s, k)
    requires sent.uid == c.uid && sent.rv == c.rv
    requires IDENTITY_FINALIZER in c.finalizers && !c.deleting ==> IDENTITY_FINALIZER in sent.finalizers
    requires sent.labels == c.labels || (Labelled(sent, c.provider) && sent.provider == c.provider)
    requires sent.provider == c.provider
    ensures var t := GetOr(UpdateIdentity(s, k, sent), s); Published(t, k) && DepsOk(t, k) && t.deps == s.deps
  {
  }

  lemma OwnStatusWrite(s: Store, k: Key, c: Identity, sent: Identity)
    requires CopyOk(s, k, c) && Published(s, k) && DepsOk(s, k)
    requires sent.uid == c.uid && sent.rv == c.rv
    requires sent.metadata == c.metadata
      || (Built(s, k, 7) && Labelled(c, c.provider) && IDENTITY_FINALIZER in c.finalizers)
    ensures var t := GetOr(UpdateIdentityStatus(s, k, sent), s); Published(t, k) && DepsOk(t, k) && t.deps == s.deps
  {
  }

  lemma TagCopy(s: Store, k: Key, c: Identity)
    requires CopyOk(s, k, c)
    ensures var sent := TaggedCopy(c); var answer := UpdateIdentity(s, k, sent);
      answer.Some? ==> Labelled(Stored(answer, k, sent), Stored(answer, k, sent).provider)
  {
  }

  lemma OwnStepOrder(s: Store, k: Key, pc: IdPc, io: Io)
    requires PcOk(s, k, pc) && DepsOk(s, k) && Published(s, k) && PcBuilt(s, k, pc)
    ensures var r := IdStep(s, k, pc, io); DepsOk(r.0, k) && Published(r.0, k) && PcBuilt(r.0, k, r.1)
  {
    hide UpdateIdentity, UpdateIdentityStatus, EnsureStep, DepsOk, Published, Stored, Built;
    match pc
    case Release(c) => OwnWrite(s, k, c, ReleasedCopy(c));
    case Claim(c) => OwnWrite(s, k, c, ClaimedCopy(c));
    case Init(c, _) => OwnStatusWrite(s, k, c, c.(phase := Reconciling));
    case Announce(c, helper) => OwnStatusWrite(s, k, c, AnnouncedCopy(c, helper)); NoneBuilt(s, k);
    case Ensure(stage, missing, c, helper, account) => EnsureKeeps(s, k, stage, missing, c, helper, account, io);
    case Enroll(_, helper) => RecordsAside(s, k, AddRecord(s, helper, k));
    case Undo(_, helper) => RecordsAside(s, k, DropRecord(s, helper, k));
    case Tag(c, _) => OwnWrite(s, k, c, TaggedCopy(c)); TagCopy(s, k, c); SameDeps(s, GetOr(UpdateIdentity(s, k, TaggedCopy(c)), s), k);
    case Publish(c, meta) => OwnStatusWrite(s, k, c, c.(metadata := meta));
    case _ =>
  }

  lemma NoneBuilt(s: Store, k: Key)
    ensures forall t :: Built(t, k, 0)
  {
  }

  lemma SameDeps(s: Store, t: Store, k: Key)
    requires t.deps == s.deps
    ensures Built(s, k, 7) ==> Built(t, k, 7)
  {
  }

  lemma RecordsAside(s: Store, k: Key, t: Store)
    requires t.ids == s.ids && t.deps == s.deps
    ensures DepsOk(s, k) ==> DepsOk(t, k)
    ensures Published(s, k) ==> Published(t, k)
    ensures Built(s, k, 7) ==> Built(t, k, 7)
  {
  }

  lemma OtherTidy(s: Store, j: Key, pc: IdPc, io: Io, k: Key)
    requires j != k && !pc.Ensure?
    ensures var t := IdStep(s, j, pc, io).0; Tidy(s, t, k) && t.deps == s.deps
  {
    hide UpdateIdentity, UpdateIdentityStatus, Stored, AfterRead, Clean;
    match pc
    case Release(c) => UpdateAside(s, j, ReleasedCopy(c), k);
    case Claim(c) => UpdateAside(s, j, ClaimedCopy(c), k);
    case Init(c, _) => UpdateAside(s, j, c.(phase := Reconciling), k);
    case Announce(c, helper) => UpdateAside(s, j, AnnouncedCopy(c, helper), k);
    case Tag(c, _) => UpdateAside(s, j, TaggedCopy(c), k);
    case Publish(c, meta) => UpdateAside(s, j, c.(metadata := meta), k);
    case _ =>
  }

  lemma OtherStep(w: World, j: Key, io: Io, k: Key)
    requires OrderInv(w) && j != k
    ensures var t := IdStep(w.store, j, PcOf(w, j), io).0;
      DepsOk(t, k) && Published(t, k) && PcBuilt(t, k, PcOf(w, k))
  {
    var s, pc := w.store, PcOf(w, j);
    assert KeyOk(w, k) && KeyOk(w, j) && PcOk(s, k, PcOf(w, k)) && PcOk(s, j, pc);
    hide OrderInv, Base, DepsOk, Published, PcBuilt, PcOk, IdStep, EnsureStep, Adds, Tidy;
    var t := IdStep(s, j, pc, io).0;
    match pc
    case Ensure(stage, missing, c, helper, account) =>
      EnsureIsStep(s, j, stage, missing, c, helper, account, io);
      EnsureEffect(s, j, stage, missing, c, helper, account, io);
      if t != s { OtherEnsure(s, t, j, stage, c, helper, account, k, PcOf(w, k)); }
    case _ =>
      OtherTidy(s, j, pc, io, k);
      TidyKeeps(s, t, k, PcOf(w, k));
  }

  lemma EnsureIsStep(s: Store, k: Key, stage: Stage, missing: bool, c: Identity, helper: Backend, account: nat, io: Io)
    ensures IdStep(s, k, Ensure(stage, missing, c, helper, account), io)
         == EnsureStep(s, k, stage, missing, c, helper, account, io)
  {
  }

  lemma UpdateAside(s: Store, j: Key, sent: Identity, k: Key)
    requires j != k
    ensures var t := GetOr(UpdateIdentity(s, j, sent), s); Tidy(s, t, k) && t.deps == s.deps
    ensures var t := GetOr(UpdateIdentityStatus(s, j, sent), s); Tidy(s, t, k) && t.deps == s.deps
  {
  }

  lemma OutsideStep(w: World, a: Action, k: Key)
    requires OrderInv(w) && Orderly(w.store, a)
    ensures var t := Outside(w.store, a); DepsOk(t, k) && Published(t, k) && PcBuilt(t, k, PcOf(w, k))
  {
    var s, t := w.store, Outside(w.store, a);
    assert KeyOk(w, k) && PcOk(s, k, PcOf(w, k));
    hide OrderInv, Base, DepsOk, Published, PcBuilt, PcOk, Clean, Tidy;
    match a
    case DepCreate(ref, owner, content) =>
      if ref !in s.deps {
        AddsKeeps(s, t, ref, k, PcOf(w, k));
      }
    case Collect(ref) => if Collectable(s, ref) { CollectKeeps(s, ref, k, PcOf(w, k)); }
    case _ =>
      OutsideTidy(s, a, k);
      TidyKeeps(s, t, k, PcOf(w, k));
  }

  lemma OrderKept(w: World, a: Action)
    requires OrderInv(w) && Orderly(w.store, a)
    ensures OrderInv(Do(w, a))
  {
    BaseKept(w, a);
    var w' := Do(w, a);
    hide Outside, IdStep, PrStep, PcOk, PrPcOk, IsListing, DepsOk, Published, PcBuilt, WellFormed, ProvidersOk, ProgressStep, Orderly;
    forall k ensures KeyOk(w', k) {
      assert KeyOk(w, k) && PcOk(w.store, k, PcOf(w, k));
      match a
      case IdCall(j, io) =>
        if j == k { OwnStepOrder(w.store, k, PcOf(w, k), io); } else { OtherStep(w, j, io, k); }
      case ProviderCall(p, io, items, issuer) =>
        if w' != w {
          ProviderTidy(w.store, p, PrPcOf(w, p), io, items, issuer, k);
          TidyKeeps(w.store, w'.store, k, PcOf(w, k));
        }
      case Progress(j) =>
        ProgressQuiet(w.store, j, PcOf(w, j));
        TidyKeeps(w.store, w'.store, k, PcOf(w, k));
      case Crash =>
        IdleBuilt(w.store, k);
      case _ => OutsideStep(w, a, k);
    }
  }

  /** The write-order invariant holds at the end of every orderly run. */
  lemma {:induction false} PublishedMeansComplete(w: World, actions: seq<Action>)
    requires OrderInv(w) && OrderlyRun(w, actions)
    ensures OrderInv(Run(w, actions))
    ensures forall k :: k in Run(w, actions).store.ids && Run(w, actions).store.ids[k].metadata != map[] ==>
      Complete(Run(w, actions).store, k)
    decreases |actions|
  {
    if actions == [] {
      forall k | k in w.store.ids && w.store.ids[k].metadata != map[] ensures Complete(w.store, k) {
        assert KeyOk(w, k);
      }
    } else {
      OrderKept(w, actions[0]);
      PublishedMeansComplete(Do(w, actions[0]), actions[1..]);
    }
  }

  /** What a pod that names the identity's account can count on. */
  predicate Complete(s: Store, k: Key)
    requires k in s.ids
  {
    && Labelled(s.ids[k], s.ids[k].provider)
    && AccountOf(k) in s.deps
    && Role(k.ns) in s.deps && s.deps[Role(k.ns)].content == PolicyReader
    && Binding(k.ns, "default") in s.deps && s.deps[Binding(k.ns, "default")].content == Bind("default", ROLE_NAME)
    && BindingOf(k) in s.deps && s.deps[BindingOf(k)].content == Bind(k.name, ROLE_NAME)
    && (!s.ids[k].deleting ==> IDENTITY_FINALIZER in s.ids[k].finalizers)
  }
}
