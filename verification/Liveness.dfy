/** A provider's deletion never deadlocks, call by call: from every world that a run
    reaches, wherever the workers and reconcilers stand, the calls still to come can
    release the provider. */
module Liveness {
  import opened Cluster
  import opened Protocol
  import opened Safety
  import opened Convergence
  import opened ProviderDeletion
  import Hypotheses

  // ---------------------------------------------------------------- nothing grows

  /** The actions that write the provider's label onto an identity. */
  predicate GivesLabel(w: World, p: ProviderKey, a: Action) {
    match a
    case UserCreate(_, _, labels, _) => PROVIDER_LABEL in labels && labels[PROVIDER_LABEL] == p.key.name
    case UserEdit(k, _, labels, _) =>
      k !in Left(w.store, p) && PROVIDER_LABEL in labels && labels[PROVIDER_LABEL] == p.key.name
    case IdCall(k, _) => k !in Left(w.store, p) && PcOf(w, k).Tag? && PcOf(w, k).copy.provider == p.key.name
    case _ => false
  }

  predicate Fewer(s: Store, t: Store, p: ProviderKey) {
    forall k :: k in t.ids && Labelled(t.ids[k], p.key.name) ==> k in s.ids && Labelled(s.ids[k], p.key.name)
  }

  lemma UpdateFewer(s: Store, k: Key, sent: Identity, p: ProviderKey)
    requires k in s.ids && Current(s, k, sent) && Labelled(sent, p.key.name) ==> Labelled(s.ids[k], p.key.name)
    ensures Fewer(s, GetOr(UpdateIdentity(s, k, sent), s), p)
  {
  }

  lemma StatusFewer(s: Store, k: Key, sent: Identity, p: ProviderKey)
    ensures Fewer(s, GetOr(UpdateIdentityStatus(s, k, sent), s), p)
  {
  }

  lemma DeleteFewer(s: Store, k: Key, p: ProviderKey)
    ensures Fewer(s, GetOr(DeleteIdentity(s, k), s), p)
  {
  }

  lemma SameFewer(s: Store, t: Store, p: ProviderKey)
    requires t.ids == s.ids
    ensures Fewer(s, t, p)
  {
  }

  lemma StepFewer(s: Store, k: Key, pc: IdPc, io: Io, p: ProviderKey)
    requires PcOk(s, k, pc)
    requires pc.Tag? && pc.copy.provider == p.key.name ==> k in Left(s, p)
    ensures Fewer(s, IdStep(s, k, pc, io).0, p)
  {
    hide UpdateIdentity, UpdateIdentityStatus, Stored, AfterRead, Fewer;
    SameFewer(s, s, p);
    match pc
    case Release(c) => UpdateFewer(s, k, ReleasedCopy(c), p);
    case Claim(c) => UpdateFewer(s, k, ClaimedCopy(c), p);
    case Init(c, _) => StatusFewer(s, k, c.(phase := Reconciling), p);
    case Announce(c, helper) => StatusFewer(s, k, AnnouncedCopy(c, helper), p);
    case Tag(c, _) => UpdateFewer(s, k, TaggedCopy(c), p);
    case Publish(c, meta) => StatusFewer(s, k, c.(metadata := meta), p);
    case _ => SameFewer(s, IdStep(s, k, pc, io).0, p);
  }

  lemma CallFewer(s: Store, q: ProviderKey, pc: PrPc, io: Io, items: seq<Key>, issuer: string, p: ProviderKey)
    ensures Fewer(s, PrStep(s, q, pc, io, items, issuer).0, p)
  {
    hide DeleteIdentity, Fewer;
    SameFewer(s, PrStep(s, q, pc, io, items, issuer).0.(ids := s.ids), p);
    match pc
    case PDelete(c, list, i) =>
      SameFewer(s, s, p);
      if i < |list| { DeleteFewer(s, list[i], p); }
    case _ => SameFewer(s, PrStep(s, q, pc, io, items, issuer).0, p);
  }

  lemma OutsideFewer(w: World, p: ProviderKey, a: Action)
    requires !GivesLabel(w, p, a)
    ensures Fewer(w.store, Outside(w.store, a), p)
  {
  }

  /** Whatever happens, faults and crashes included: unless somebody writes the label
      onto an identity that lacks it, no identity joins those the provider waits for. */
  lemma LeftShrinks(w: World, p: ProviderKey, a: Action)
    requires Base(w) && !GivesLabel(w, p, a)
    ensures Left(Do(w, a).store, p) <= Left(w.store, p)
  {
    hide Outside, IdStep, PrStep, IsListing, ProgressStep, PcOk, PrPcOk, WellFormed;
    var s, t := w.store, Do(w, a).store;
    match a
    case IdCall(k, io) => StepFewer(s, k, PcOf(w, k), io, p);
    case ProviderCall(q, io, items, issuer) => CallFewer(s, q, PrPcOf(w, q), io, items, issuer, p);
    case Progress(k) => ProgressQuiet(s, k, PcOf(w, k));
    case Crash =>
    case _ => OutsideFewer(w, p, a);
  }

  ghost predicate CalmRun(w: World, p: ProviderKey, actions: seq<Action>)
    decreases |actions|
  {
    actions == [] ||
      (FinalizerDiscipline(w.store, actions[0]) && !GivesLabel(w, p, actions[0]) && CalmRun(Do(w, actions[0]), p, actions[1..]))
  }

  lemma {:induction false} LeftOnRun(w: World, p: ProviderKey, actions: seq<Action>)
    requires Base(w) && CalmRun(w, p, actions)
    ensures Base(Run(w, actions)) && Left(Run(w, actions).store, p) <= Left(w.store, p)
    decreases |actions|
  {
    hide Base, Left, Do, FinalizerDiscipline, GivesLabel;
    if actions != [] {
      BaseKept(w, actions[0]);
      LeftShrinks(w, p, actions[0]);
      LeftOnRun(Do(w, actions[0]), p, actions[1..]);
    }
  }

  // ---------------------------------------------------------------- continuations without faults

  /** A call in which nothing fails but what a strict helper refuses by itself. */
  predicate Clean(w: World, a: Action) {
    match a
    case IdCall(k, io) => io == Answer(w.store, k, PcOf(w, k), io.meta)
    case ProviderCall(_, io, _, _) => io == OK
    case _ => false
  }

  ghost predicate CleanRun(w: World, actions: seq<Action>)
    decreases |actions|
  {
    actions == [] || (Clean(w, actions[0]) && CleanRun(Do(w, actions[0]), actions[1..]))
  }

  lemma {:induction false} CleanAppend(w: World, a: seq<Action>, b: seq<Action>)
    requires CleanRun(w, a) && CleanRun(Run(w, a), b)
    ensures CleanRun(w, a + b) && Run(w, a + b) == Run(Run(w, a), b)
    decreases |a|
  {
    hide Do, Clean;
    RunAppend(w, a, b);
    if a == [] {
      assert a + b == b;
    } else {
      assert (a + b)[0] == a[0] && (a + b)[1..] == a[1..] + b;
      CleanAppend(Do(w, a[0]), a[1..], b);
    }
  }

  lemma {:induction false} CleanKeepsBase(w: World, actions: seq<Action>)
    requires Base(w) && CleanRun(w, actions)
    ensures Base(Run(w, actions))
    decreases |actions|
  {
    hide Base, Do;
    if actions != [] {
      BaseKept(w, actions[0]);
      CleanKeepsBase(Do(w, actions[0]), actions[1..]);
    }
  }

  /** Nobody but the worker of `k` has moved. */
  ghost predicate OnlyWorker(w: World, v: World, k: Key) {
    && (forall j :: j != k ==> PcOf(v, j) == PcOf(w, j))
    && (forall q :: PrPcOf(v, q) == PrPcOf(w, q))
  }

  ghost predicate OnlyReconciler(w: World, v: World, p: ProviderKey) {
    && (forall j :: PcOf(v, j) == PcOf(w, j))
    && (forall q :: q != p ==> PrPcOf(v, q) == PrPcOf(w, q))
  }

  /** The Reconcile that the worker of `k` is in, brought to its end. */
  lemma {:induction false} Drain(w: World, k: Key) returns (actions: seq<Action>)
    ensures CleanRun(w, actions)
    ensures var v := Run(w, actions);
      v.store == Settle(w.store, k, PcOf(w, k), map[]) && PcOf(v, k) == Idle && OnlyWorker(w, v, k)
    decreases Rank(PcOf(w, k))
  {
    hide IdStep;
    if PcOf(w, k) == Idle {
      actions := [];
    } else {
      var a := IdCall(k, Answer(w.store, k, PcOf(w, k), map[]));
      RankFalls(w.store, k, PcOf(w, k), a.io);
      var rest := Drain(Do(w, a), k);
      actions := [a] + rest;
      assert actions[1..] == rest;
    }
  }

  lemma FreshReconcile(w: World, k: Key) returns (actions: seq<Action>)
    requires PcOf(w, k) == Idle
    ensures CleanRun(w, actions)
    ensures var v := Run(w, actions);
      v.store == Reconcile(w.store, k, map[]) && PcOf(v, k) == Idle && OnlyWorker(w, v, k)
  {
    hide IdStep, Settle;
    var a := IdCall(k, OK);
    assert OK == Answer(w.store, k, Idle, map[]);
    IdleReads(w.store, k);
    var rest := Drain(Do(w, a), k);
    actions := [a] + rest;
    assert actions[1..] == rest;
  }

  lemma IdleReads(s: Store, k: Key)
    ensures IdStep(s, k, Idle, OK).0 == s
  {
  }

  /** The pass that the reconciler of `p` is in, brought to its end. */
  lemma {:induction false} DrainProvider(w: World, p: ProviderKey, items: seq<Key>) returns (actions: seq<Action>)
    requires PrPcOf(w, p).PList? ==> IsListing(w.store, p.key.name, items)
    ensures CleanRun(w, actions)
    ensures var v := Run(w, actions);
      v.store == PSettle(w.store, p, PrPcOf(w, p), items, "") && PrPcOf(v, p) == PIdle && OnlyReconciler(w, v, p)
    decreases PRank(PrPcOf(w, p), items)
  {
    hide PrStep, IsListing;
    if PrPcOf(w, p) == PIdle {
      actions := [];
    } else {
      var a := ProviderCall(p, OK, items, "");
      PRankFalls(w.store, p, PrPcOf(w, p), OK, items, "");
      NoListAgain(w.store, p, PrPcOf(w, p), OK, items);
      var rest := DrainProvider(Do(w, a), p, items);
      actions := [a] + rest;
      assert actions[1..] == rest;
    }
  }

  lemma NoListAgain(s: Store, p: ProviderKey, pc: PrPc, io: Io, items: seq<Key>)
    ensures pc != PIdle ==> !PrStep(s, p, pc, io, items, "").1.PList?
    ensures pc == PIdle ==> PrStep(s, p, pc, io, items, "").0 == s
  {
    hide UpdateProvider, UpdateProviderStatus, DeleteIdentity;
  }

  lemma FreshPass(w: World, p: ProviderKey, items: seq<Key>) returns (actions: seq<Action>)
    requires PrPcOf(w, p) == PIdle && IsListing(w.store, p.key.name, items)
    ensures CleanRun(w, actions)
    ensures var v := Run(w, actions);
      v.store == ProviderPass(w.store, p, items) && PrPcOf(v, p) == PIdle && OnlyReconciler(w, v, p)
  {
    hide PrStep, IsListing, PSettle;
    var a := ProviderCall(p, OK, items, "");
    NoListAgain(w.store, p, PIdle, OK, items);
    var rest := DrainProvider(Do(w, a), p, items);
    actions := [a] + rest;
    assert actions[1..] == rest;
  }

  lemma {:induction false} Enumerate(ks: set<Key>) returns (items: seq<Key>)
    ensures Distinct(items) && forall k :: k in items <==> k in ks
  {
    items := [];
    if ks != {} {
      var k :| k in ks;
      var rest := Enumerate(ks - {k});
      items := [k] + rest;
    }
  }

  lemma SomeListing(s: Store, p: ProviderKey) returns (items: seq<Key>)
    ensures IsListing(s, p.key.name, items)
  {
    items := Enumerate(Left(s, p));
  }

  // ---------------------------------------------------------------- finishable, wherever the worker stands

  /** The worker's copy is what is stored, and that is being deleted. */
  predicate OnTime(s: Store, k: Key, c: Identity) {
    c.deleting && Current(s, k, c)
  }

  /** Finishable although a Reconcile is under way.  A deletion in flight on an
      outdated copy would take the record away and then fail to take the finalizer
      off, which only a lenient helper forgives.  A creation in flight will leave the
      record that the deletion needs. */
  predicate FinishableAt(s: Store, k: Key, pc: IdPc) {
    k in s.ids && s.ids[k].finalizers != {} ==>
      && s.ids[k].finalizers == {IDENTITY_FINALIZER}
      && var b := Resolve(s, Key(k.ns, s.ids[k].provider));
      && b.Some?
      && match pc
         case Find(_, c) => Accepts(s, k, b.value) && (c.deleting ==> OnTime(s, k, c) || !Strict(b.value))
         case Undo(c, helper) => Accepts(s, k, b.value) && (OnTime(s, k, c) || !Strict(b.value) || helper != b.value)
         case Release(c) => OnTime(s, k, c) || Accepts(s, k, b.value)
         case Enroll(_, helper) => helper == b.value || Accepts(s, k, b.value)
         case _ => Accepts(s, k, b.value)
  }

  /** Marked for deletion and held by the operator alone, if it is there at all. */
  predicate Dying(s: Store, k: Key) {
    k in s.ids ==> s.ids[k].deleting && s.ids[k].finalizers == {IDENTITY_FINALIZER}
  }

  lemma UpdateDying(s: Store, k: Key, c: Identity, sent: Identity)
    requires Dying(s, k) && CopyOk(s, k, c) && sent.uid == c.uid && sent.rv == c.rv && sent.provider == c.provider
    requires sent.finalizers == c.finalizers || sent.finalizers == c.finalizers + {IDENTITY_FINALIZER}
    ensures var t := GetOr(UpdateIdentity(s, k, sent), s);
      Dying(t, k) && (k in t.ids <==> k in s.ids) && (k in s.ids ==> t.ids[k].provider == s.ids[k].provider) && OnlyIds(s, t)
    ensures var t := GetOr(UpdateIdentityStatus(s, k, sent), s);
      Dying(t, k) && (k in t.ids <==> k in s.ids) && (k in s.ids ==> t.ids[k].provider == s.ids[k].provider) && OnlyIds(s, t)
  {
  }

  /** What a finishable identity's worker goes on to do keeps it so. */
  lemma StepKeepsFinishable(s: Store, k: Key, pc: IdPc)
    requires PcOk(s, k, pc) && Dying(s, k) && FinishableAt(s, k, pc)
    ensures var r := IdStep(s, k, pc, Answer(s, k, pc, map[]));
      Dying(r.0, k) && FinishableAt(r.0, k, r.1)
  {
    hide UpdateIdentity, UpdateIdentityStatus, Stored, Resolve, EnsureStep;
    var io := Answer(s, k, pc, map[]);
    var t := IdStep(s, k, pc, io).0;
    if k in s.ids { ResolveDepends(s, t, Key(k.ns, s.ids[k].provider)); }
    match pc
    case Claim(c) => UpdateDying(s, k, c, ClaimedCopy(c));
    case Init(c, _) => UpdateDying(s, k, c, c.(phase := Reconciling));
    case Announce(c, helper) => UpdateDying(s, k, c, AnnouncedCopy(c, helper));
    case Tag(c, _) => UpdateDying(s, k, c, TaggedCopy(c));
    case Publish(c, meta) => UpdateDying(s, k, c, c.(metadata := meta));
    case Release(c) => ReleaseDying(s, k, c);
    case Ensure(stage, missing, c, helper, account) => EnsureDying(s, k, stage, missing, c, helper, account, io);
    case _ =>
  }

  lemma ReleaseDying(s: Store, k: Key, c: Identity)
    requires CopyOk(s, k, c) && Dying(s, k)
    ensures var answer := UpdateIdentity(s, k, ReleasedCopy(c));
      && (answer.Some? ==> k !in answer.value.ids && k in s.ids)
      && (k in s.ids && OnTime(s, k, c) ==> answer.Some?)
  {
    if Current(s, k, c) {
      assert s.ids[k] == c && c.finalizers - {IDENTITY_FINALIZER} == {};
    }
  }

  lemma EnsureDying(s: Store, k: Key, stage: Stage, missing: bool, c: Identity, helper: Backend, account: nat, io: Io)
    requires !io.fault
    ensures var r := EnsureStep(s, k, stage, missing, c, helper, account, io);
      OnlyIds(s, r.0) && r.0.ids == s.ids && !r.1.Find? && !r.1.Undo? && !r.1.Release?
  {
  }

  lemma {:induction false} SettleKeepsFinishable(s: Store, k: Key, pc: IdPc)
    requires WellFormed(s) && PcOk(s, k, pc) && Dying(s, k) && FinishableAt(s, k, pc)
    ensures var t := Settle(s, k, pc, map[]); Dying(t, k) && Finishable(t, k)
    decreases Rank(pc)
  {
    hide IdStep, PcOk, WellFormed, Dying;
    if pc != Idle {
      hide FinishableAt;
      var io := Answer(s, k, pc, map[]);
      RankFalls(s, k, pc, io);
      StepKeepsFinishable(s, k, pc);
      OwnStep(s, k, pc, io);
      StepKeepsStore(s, k, pc, io);
      var r := IdStep(s, k, pc, io);
      SettleKeepsFinishable(r.0, k, r.1);
    }
  }

  /** The worker's Reconcile ends, and one more finishes the identity. */
  lemma DrainAndFinish(w: World, k: Key) returns (actions: seq<Action>)
    requires Base(w) && Dying(w.store, k) && FinishableAt(w.store, k, PcOf(w, k))
    ensures CleanRun(w, actions)
    ensures var v := Run(w, actions);
      k !in v.store.ids && OnlyOne(w.store, v.store, k) && OnlyWorker(w, v, k)
  {
    hide PcOk, WellFormed, ProvidersOk, PrPcOk, Settle, Reconcile, FinishableAt, CleanRun, Run, OnlyOne;
    var first := Drain(w, k);
    SettleKeepsFinishable(w.store, k, PcOf(w, k));
    SettleOnly(w.store, k, PcOf(w, k), map[]);
    var w1 := Run(w, first);
    var second := FreshReconcile(w1, k);
    ReconcileOnly(w1.store, k, map[]);
    if k in w1.store.ids { MarkedIsFinished(w1.store, k, map[]); }
    CleanAppend(w, first, second);
    actions := first + second;
    OnlyOneTwice(w.store, w1.store, Run(w, actions).store, k);
  }

  lemma OnlyOneTwice(s: Store, t: Store, u: Store, k: Key)
    requires OnlyOne(s, t, k) && OnlyOne(t, u, k)
    ensures OnlyOne(s, u, k)
  {
  }

  // ---------------------------------------------------------------- the whole deletion

  /** Everybody with the label is marked and finishable where its worker stands. */
  ghost predicate AllDying(w: World, p: ProviderKey) {
    forall k :: k in Left(w.store, p) ==> Dying(w.store, k) && FinishableAt(w.store, k, PcOf(w, k))
  }

  lemma AtDepends(s: Store, t: Store, k: Key, pc: IdPc)
    requires t.providers == s.providers && k in s.ids && k in t.ids && t.ids[k] == s.ids[k]
    requires forall b :: Record(b, k) in t.ext <==> Record(b, k) in s.ext
    ensures FinishableAt(s, k, pc) ==> FinishableAt(t, k, pc)
  {
    ResolveDepends(s, t, Key(k.ns, s.ids[k].provider));
  }

  lemma {:induction false} FinishAll(w: World, p: ProviderKey) returns (actions: seq<Action>)
    requires Base(w) && AllDying(w, p)
    ensures CleanRun(w, actions)
    ensures var v := Run(w, actions);
      Left(v.store, p) == {} && v.store.providers == w.store.providers && forall q :: PrPcOf(v, q) == PrPcOf(w, q)
    decreases |Left(w.store, p)|
  {
    hide Base, FinishableAt, Dying, CleanRun, Run;
    if Left(w.store, p) == {} {
      actions := [];
      EmptyRun(w);
    } else {
      var k :| k in Left(w.store, p);
      var first := DrainAndFinish(w, k);
      var w1 := Run(w, first);
      CleanKeepsBase(w, first);
      assert Left(w1.store, p) == Left(w.store, p) - {k};
      forall j | j in Left(w1.store, p) ensures Dying(w1.store, j) && FinishableAt(w1.store, j, PcOf(w1, j)) {
        AtDepends(w.store, w1.store, j, PcOf(w, j));
        SameDying(w.store, w1.store, j);
      }
      var rest := FinishAll(w1, p);
      CleanAppend(w, first, rest);
      actions := first + rest;
    }
  }

  lemma EmptyRun(w: World)
    ensures CleanRun(w, []) && Run(w, []) == w
  {
  }

  lemma SameDying(s: Store, t: Store, k: Key)
    requires Dying(s, k) && k in s.ids && k in t.ids && t.ids[k] == s.ids[k]
    ensures Dying(t, k)
  {
  }

  /** Unwritten, or newly marked. */
  predicate AsBefore(s: Store, t: Store, k: Key)
    requires k in t.ids
  {
    && k in s.ids
    && (t.ids[k] == s.ids[k] || (!s.ids[k].deleting && t.ids[k] == s.ids[k].(deleting := true, rv := t.ids[k].rv)))
  }

  /** What a step of the deleted provider's reconciler may do. */
  ghost predicate Onward(s: Store, t: Store, p: ProviderKey) {
    && t.ext == s.ext && s.clock <= t.clock
    && (forall k :: k in t.ids ==> AsBefore(s, t, k) && (t.ids[k] == s.ids[k] || s.clock <= t.ids[k].rv))
    && (p in t.providers ==> Going(t, p) && t.providers.Keys == s.providers.Keys)
    && (p in t.providers ==> forall q :: q in t.providers && q in s.providers ==> t.providers[q].endpoint == s.providers[q].endpoint)
  }

  lemma OnwardTwice(s: Store, t: Store, u: Store, p: ProviderKey)
    requires Onward(s, t, p) && Onward(t, u, p) && p in t.providers
    ensures Onward(s, u, p)
  {
    hide Going;
  }

  lemma PutOnward(s: Store, p: ProviderKey, c: Provider, sent: Provider)
    requires Going(s, p) && PCopyOk(s, p, c) && sent.uid == c.uid && sent.rv == c.rv && sent.endpoint == c.endpoint
    requires sent.finalizers == c.finalizers || sent.finalizers == c.finalizers + {PROVIDER_FINALIZER}
      || sent.finalizers == c.finalizers - {PROVIDER_FINALIZER}
    ensures Onward(s, GetOr(UpdateProvider(s, p, sent), s), p)
    ensures Onward(s, GetOr(UpdateProviderStatus(s, p, sent), s), p)
  {
  }

  lemma DeleteOnward(s: Store, p: ProviderKey, k: Key)
    requires Going(s, p)
    ensures Onward(s, GetOr(DeleteIdentity(s, k), s), p)
  {
  }

  lemma SameOnward(s: Store, p: ProviderKey)
    requires Going(s, p)
    ensures Onward(s, s, p)
  {
  }

  lemma PStepOnward(s: Store, p: ProviderKey, pc: PrPc, items: seq<Key>)
    requires Going(s, p) && PrPcOk(s, p, pc)
    ensures Onward(s, PrStep(s, p, pc, OK, items, "").0, p)
  {
    hide UpdateProvider, UpdateProviderStatus, DeleteIdentity, Onward, Going;
    SameOnward(s, p);
    match pc
    case PDelete(c, list, i) => if i < |list| { DeleteOnward(s, p, list[i]); }
    case PRelease(c, _) => PutOnward(s, p, c, c.(finalizers := c.finalizers - {PROVIDER_FINALIZER}));
    case PInit(c) => PutOnward(s, p, c, c.(phase := Reconciling));
    case PClaim(c) => PutOnward(s, p, c, c.(finalizers := c.finalizers + {PROVIDER_FINALIZER}));
    case PAnnounce(c) =>
      PutOnward(s, p, c, c.(phase := Reconciled, issuer := if p.kind.Kubernetes? then "" else c.issuer));
    case _ =>
  }

  /** Once gone, the provider's reconciler changes nothing but identities. */
  lemma GoneStaysGone(s: Store, p: ProviderKey, pc: PrPc, items: seq<Key>)
    requires p !in s.providers
    ensures p !in PrStep(s, p, pc, OK, items, "").0.providers
  {
    DeleteKeepsProviders(s);
    hide DeleteIdentity;
  }

  lemma {:induction false} PSettleOnward(s: Store, p: ProviderKey, pc: PrPc, items: seq<Key>)
    requires ProvidersOk(s) && PrPcOk(s, p, pc) && (p in s.providers ==> Going(s, p))
    ensures var t := PSettle(s, p, pc, items, "");
      (p in t.providers ==> p in s.providers) && (p in s.providers && p in t.providers ==> Onward(s, t, p))
    decreases PRank(pc, items)
  {
    hide PrStep, Onward, Going, PrPcOk;
    if pc == PIdle {
      if p in s.providers { SameOnward(s, p); }
    } else {
      var r := PrStep(s, p, pc, OK, items, "");
      PRankFalls(s, p, pc, OK, items, "");
      ProviderCopyOk(s, p, pc, OK, items, "");
      ProviderStepOk(s, p, pc, OK, items, "", p);
      if p in s.providers {
        PStepOnward(s, p, pc, items);
        OnwardGoing(s, r.0, p);
        PSettleOnward(r.0, p, r.1, items);
        if p in r.0.providers && p in PSettle(s, p, pc, items, "").providers { OnwardTwice(s, r.0, PSettle(s, p, pc, items, ""), p); }
      } else {
        GoneStaysGone(s, p, pc, items);
        PSettleOnward(r.0, p, r.1, items);
      }
    }
  }

  lemma OnwardGoing(s: Store, t: Store, p: ProviderKey)
    requires Onward(s, t, p)
    ensures p in t.providers ==> Going(t, p)
  {
  }

  /** Such steps keep everybody finishable: deletions in flight are on time only if
      the object is marked already, and then it is not written. */
  lemma OnwardKeeps(s: Store, t: Store, p: ProviderKey, k: Key, pc: IdPc)
    requires Onward(s, t, p) && p in t.providers && PcOk(s, k, pc) && FinishableAt(s, k, pc)
    ensures FinishableAt(t, k, pc)
    ensures k in Left(t, p) ==> k in Left(s, p)
  {
    if k in t.ids { OnwardResolve(s, t, p, Key(k.ns, s.ids[k].provider)); }
  }

  lemma OnwardResolve(s: Store, t: Store, p: ProviderKey, key: Key)
    requires Onward(s, t, p) && p in t.providers
    ensures Resolve(t, key) == Resolve(s, key)
  {
    assert forall q :: q in t.providers <==> q in s.providers;
  }

  lemma AllKept(w: World, v: World, p: ProviderKey)
    requires Base(w) && Onward(w.store, v.store, p) && p in v.store.providers && OnlyReconciler(w, v, p)
    requires forall k :: k in Left(w.store, p) ==> FinishableAt(w.store, k, PcOf(w, k))
    ensures forall k :: k in Left(v.store, p) ==> k in Left(w.store, p) && FinishableAt(v.store, k, PcOf(v, k))
  {
    hide FinishableAt, PcOk, PrPcOk, WellFormed, ProvidersOk, Going, Has;
    forall k | k in Left(v.store, p) ensures k in Left(w.store, p) && FinishableAt(v.store, k, PcOf(v, k)) {
      assert k in Left(w.store, p);
      OnwardKeeps(w.store, v.store, p, k, PcOf(w, k));
    }
  }

  /** First the pass that is under way, then a new one that marks everybody. */
  lemma MarkAll(w: World, p: ProviderKey) returns (actions: seq<Action>)
    requires Base(w) && Going(w.store, p)
    requires forall k :: k in Left(w.store, p) ==> FinishableAt(w.store, k, PcOf(w, k))
    ensures CleanRun(w, actions)
    ensures var v := Run(w, actions);
      p in v.store.providers ==> Base(v) && AllDying(v, p) && Going(v.store, p) && PrPcOf(v, p) == PIdle
  {
    hide Base, Going, FinishableAt, CleanRun, Run, PSettle, ProviderPass, Onward, Left, Dying;
    var items := SomeListing(w.store, p);
    var first := DrainProvider(w, p, items);
    var w1 := Run(w, first);
    CleanKeepsBase(w, first);
    BaseParts(w, p);
    PSettleOnward(w.store, p, PrPcOf(w, p), items);
    actions := first;
    if p in w1.store.providers {
      AllKept(w, w1, p);
      OnwardGoing(w.store, w1.store, p);
      var second := MarkOnce(w1, p);
      CleanAppend(w, first, second);
      actions := first + second;
    }
  }

  lemma BaseParts(w: World, p: ProviderKey)
    requires Base(w)
    ensures ProvidersOk(w.store) && PrPcOk(w.store, p, PrPcOf(w, p)) && WellFormed(w.store)
  {
  }

  lemma MarkOnce(w: World, p: ProviderKey) returns (actions: seq<Action>)
    requires Base(w) && Going(w.store, p) && PrPcOf(w, p) == PIdle
    requires forall k :: k in Left(w.store, p) ==> FinishableAt(w.store, k, PcOf(w, k))
    ensures CleanRun(w, actions)
    ensures var v := Run(w, actions);
      p in v.store.providers ==> Base(v) && AllDying(v, p) && Going(v.store, p) && PrPcOf(v, p) == PIdle
  {
    hide Base, Going, FinishableAt, CleanRun, Run, PSettle, ProviderPass, Onward, Left, IsListing, WellFormed, Doomed, Finishable;
    var items := SomeListing(w.store, p);
    actions := FreshPass(w, p, items);
    var v := Run(w, actions);
    CleanKeepsBase(w, actions);
    BaseParts(w, p);
    PassOnward(w.store, p, items);
    if p in v.store.providers {
      AllKept(w, v, p);
      OnwardGoing(w.store, v.store, p);
      FirstPassDooms(w.store, p, items);
      forall k | k in Left(v.store, p) ensures Dying(v.store, k) && FinishableAt(v.store, k, PcOf(v, k)) {
        DoomedDying(v.store, p, k, PcOf(v, k));
      }
    }
  }

  lemma PassOnward(s: Store, p: ProviderKey, items: seq<Key>)
    requires ProvidersOk(s) && Going(s, p)
    ensures var t := ProviderPass(s, p, items); p in t.providers ==> Onward(s, t, p)
  {
    hide PSettle, Onward;
    PSettleOnward(s, p, PrStep(s, p, PIdle, OK, items, "").1, items);
  }

  lemma DoomedDying(s: Store, p: ProviderKey, k: Key, pc: IdPc)
    requires Doomed(s, p) && k in Left(s, p) && FinishableAt(s, k, pc)
    ensures Dying(s, k)
  {
  }

  // ---------------------------------------------------------------- identities without a record yet

  /** Not marked, and nobody but the operator holds it. */
  predicate Live(s: Store, k: Key) {
    k in s.ids && !s.ids[k].deleting && s.ids[k].finalizers <= {IDENTITY_FINALIZER}
  }

  /** Live, and a Reconcile could make its record. */
  predicate Creatable(s: Store, k: Key) {
    Live(s, k) && Account(k.ns, "default") in s.deps && Resolve(s, Key(k.ns, s.ids[k].provider)).Some?
  }

  /** The operator can bring `k` to its end, wherever its worker stands. */
  predicate CanEnd(s: Store, k: Key, pc: IdPc) {
    FinishableAt(s, k, pc) || Creatable(s, k)
  }

  lemma UpdateLive(s: Store, k: Key, c: Identity, sent: Identity)
    requires Live(s, k) && CopyOk(s, k, c) && sent.uid == c.uid && sent.rv == c.rv && sent.provider == c.provider
    requires sent.finalizers == c.finalizers || sent.finalizers == c.finalizers + {IDENTITY_FINALIZER}
      || sent.finalizers == c.finalizers - {IDENTITY_FINALIZER}
    ensures var t := GetOr(UpdateIdentity(s, k, sent), s); Live(t, k) && t.ids[k].provider == s.ids[k].provider
    ensures var t := GetOr(UpdateIdentityStatus(s, k, sent), s); Live(t, k) && t.ids[k].provider == s.ids[k].provider
  {
  }

  lemma StepKeepsLive(s: Store, k: Key, pc: IdPc, io: Io)
    requires PcOk(s, k, pc) && Live(s, k)
    ensures var t := IdStep(s, k, pc, io).0; Live(t, k) && t.ids[k].provider == s.ids[k].provider
  {
    hide UpdateIdentity, UpdateIdentityStatus, Stored, AfterRead;
    match pc
    case Release(c) => UpdateLive(s, k, c, ReleasedCopy(c));
    case Claim(c) => UpdateLive(s, k, c, ClaimedCopy(c));
    case Init(c, _) => UpdateLive(s, k, c, c.(phase := Reconciling));
    case Announce(c, helper) => UpdateLive(s, k, c, AnnouncedCopy(c, helper));
    case Tag(c, _) => UpdateLive(s, k, c, TaggedCopy(c));
    case Publish(c, meta) => UpdateLive(s, k, c, c.(metadata := meta));
    case _ =>
  }

  lemma {:induction false} SettleKeepsLive(s: Store, k: Key, pc: IdPc)
    requires WellFormed(s) && PcOk(s, k, pc) && Live(s, k)
    ensures var t := Settle(s, k, pc, map[]); Live(t, k) && t.ids[k].provider == s.ids[k].provider
    decreases Rank(pc)
  {
    hide IdStep, PcOk, WellFormed;
    if pc != Idle {
      var io := Answer(s, k, pc, map[]);
      RankFalls(s, k, pc, io);
      StepKeepsLive(s, k, pc, io);
      OwnStep(s, k, pc, io);
      StepKeepsStore(s, k, pc, io);
      var r := IdStep(s, k, pc, io);
      SettleKeepsLive(r.0, k, r.1);
    }
  }

  lemma ReconcileKeepsLive(s: Store, k: Key)
    requires WellFormed(s) && Live(s, k)
    ensures var t := Reconcile(s, k, map[]); Live(t, k) && t.ids[k].provider == s.ids[k].provider
  {
    hide Settle;
    IdleOk(s, k);
    OwnStep(s, k, Idle, OK);
    SettleKeepsLive(s, k, IdStep(s, k, Idle, OK).1);
  }

  /** The worker's Reconcile ends, and if the identity is claimed by then, one more
      makes its record. */
  lemma MakeRecord(w: World, k: Key) returns (actions: seq<Action>)
    requires Base(w) && Creatable(w.store, k)
    ensures CleanRun(w, actions)
    ensures var v := Run(w, actions);
      FinishableAt(v.store, k, PcOf(v, k)) && OnlyOne(w.store, v.store, k) && OnlyWorker(w, v, k)
      && Hypotheses.Grows(w.store, v.store)
  {
    hide PcOk, WellFormed, ProvidersOk, PrPcOk, Settle, Reconcile, CleanRun, Run, OnlyOne, Resolve, FinishableAt, Goal, Hypotheses.Grows;
    var first := Drain(w, k);
    SettleKeepsLive(w.store, k, PcOf(w, k));
    SettleOnly(w.store, k, PcOf(w, k), map[]);
    Hypotheses.SettleGrows(w.store, k, PcOf(w, k), map[]);
    var w1 := Run(w, first);
    actions := first;
    if w1.store.ids[k].finalizers == {} {
      NoFinalizerEnds(w1.store, k, Idle);
    } else {
      var second := FreshReconcile(w1, k);
      CleanKeepsBase(w, first);
      ReconcileOnly(w1.store, k, map[]);
      Hypotheses.ReconcileGrows(w1.store, k, map[]);
      ReconcileKeepsLive(w1.store, k);
      RecordMade(w.store, w1.store, k);
      CleanAppend(w, first, second);
      actions := first + second;
      OnlyOneTwice(w.store, w1.store, Run(w, actions).store, k);
      Hypotheses.GrowsOn(w.store, w1.store, Run(w, actions).store);
    }
  }

  lemma NoFinalizerEnds(s: Store, k: Key, pc: IdPc)
    requires k in s.ids && s.ids[k].finalizers == {}
    ensures FinishableAt(s, k, pc)
  {
  }

  lemma RecordMade(s: Store, t: Store, k: Key)
    requires Creatable(s, k) && Live(t, k) && t.ids[k].finalizers != {}
    requires OnlyOne(s, t, k) && t.ids[k].provider == s.ids[k].provider && Hypotheses.Grows(s, t)
    requires Live(Reconcile(t, k, map[]), k)
    ensures FinishableAt(Reconcile(t, k, map[]), k, Idle)
  {
    hide Reconcile;
    var b := Resolve(s, Key(k.ns, s.ids[k].provider)).value;
    ResolveDepends(s, t, Key(k.ns, s.ids[k].provider));
    ClaimedReachesGoal(t, k, b, map[]);
  }

  lemma CreatableDepends(s: Store, t: Store, k: Key)
    requires Creatable(s, k) && t.providers == s.providers && k in t.ids && t.ids[k] == s.ids[k] && Hypotheses.Grows(s, t)
    ensures Creatable(t, k)
  {
    ResolveDepends(s, t, Key(k.ns, s.ids[k].provider));
  }

  function Unfinished(w: World, p: ProviderKey): set<Key> {
    set k | k in Left(w.store, p) && !FinishableAt(w.store, k, PcOf(w, k))
  }

  lemma {:induction false} MakeRecords(w: World, p: ProviderKey) returns (actions: seq<Action>)
    requires Base(w) && forall k :: k in Left(w.store, p) ==> CanEnd(w.store, k, PcOf(w, k))
    ensures CleanRun(w, actions)
    ensures var v := Run(w, actions);
      && v.store.providers == w.store.providers && (forall q :: PrPcOf(v, q) == PrPcOf(w, q))
      && forall k :: k in Left(v.store, p) ==> FinishableAt(v.store, k, PcOf(v, k))
    decreases |Unfinished(w, p)|
  {
    hide Base, FinishableAt, Creatable, CleanRun, Run, Hypotheses.Grows;
    if Unfinished(w, p) == {} {
      actions := [];
      EmptyRun(w);
      forall k | k in Left(w.store, p) ensures FinishableAt(w.store, k, PcOf(w, k)) { assert k !in Unfinished(w, p); }
    } else {
      var k :| k in Unfinished(w, p);
      var first := MakeRecord(w, k);
      var w1 := Run(w, first);
      CleanKeepsBase(w, first);
      forall j | j in Left(w1.store, p) && j != k
        ensures j in Left(w.store, p) && CanEnd(w1.store, j, PcOf(w1, j))
        ensures FinishableAt(w.store, j, PcOf(w, j)) ==> FinishableAt(w1.store, j, PcOf(w1, j))
      {
        AtDepends(w.store, w1.store, j, PcOf(w, j));
        if Creatable(w.store, j) { CreatableDepends(w.store, w1.store, j); }
      }
      assert Unfinished(w1, p) <= Unfinished(w, p) - {k};
      SmallerSet(Unfinished(w1, p), Unfinished(w, p), k);
      var rest := MakeRecords(w1, p);
      CleanAppend(w, first, rest);
      actions := first + rest;
    }
  }

  lemma SmallerSet(a: set<Key>, b: set<Key>, k: Key)
    requires a <= b - {k} && k in b
    ensures |a| < |b|
  {
    var rest := b - a - {k};
    assert b == a + {k} + rest;
  }

  lemma ReleaseFinishable(w: World, p: ProviderKey) returns (actions: seq<Action>)
    requires Base(w) && Going(w.store, p)
    requires forall k :: k in Left(w.store, p) ==> FinishableAt(w.store, k, PcOf(w, k))
    ensures CleanRun(w, actions) && p !in Run(w, actions).store.providers
  {
    hide Base, FinishableAt, CleanRun, Run, ProviderPass, AllDying, Left;
    var first := MarkAll(w, p);
    var w1 := Run(w, first);
    actions := first;
    if p in w1.store.providers {
      var second := FinishAll(w1, p);
      var w2 := Run(w1, second);
      EmptyListing(w2.store, p);
      var third := FreshPass(w2, p, []);
      EmptyPass(w2.store, p);
      CleanAppend(w1, second, third);
      CleanAppend(w, first, second + third);
      actions := first + (second + third);
    }
  }

  /** The provider can always still be released: wherever its reconciler and all
      workers stand, as long as the operator can bring every labelled identity to its
      end, calls without faults lead to the release. */
  lemma ReleaseInReach(w: World, p: ProviderKey) returns (actions: seq<Action>)
    requires Base(w) && Going(w.store, p)
    requires forall k :: k in Left(w.store, p) ==> CanEnd(w.store, k, PcOf(w, k))
    ensures CleanRun(w, actions) && p !in Run(w, actions).store.providers
  {
    hide Base, FinishableAt, CanEnd, CleanRun, Run, Left;
    var first := MakeRecords(w, p);
    CleanKeepsBase(w, first);
    var second := ReleaseFinishable(Run(w, first), p);
    CleanAppend(w, first, second);
    actions := first + second;
  }

  lemma EmptyListing(s: Store, p: ProviderKey)
    requires Left(s, p) == {}
    ensures IsListing(s, p.key.name, [])
  {
    assert forall k :: k in s.ids && Labelled(s.ids[k], p.key.name) ==> k in Left(s, p);
  }

  /** Provider deletion never deadlocks.  Over any run, with faults, lost replies,
      crashes and any other identity reconciling, the identities it waits for do not
      grow in number; and from where the run ends it can be carried on to the release. */
  lemma DeletionNeverDeadlocks(w: World, past: seq<Action>, p: ProviderKey) returns (future: seq<Action>)
    requires Base(w) && CalmRun(w, p, past) && Going(Run(w, past).store, p)
    requires var v := Run(w, past); forall k :: k in Left(v.store, p) ==> CanEnd(v.store, k, PcOf(v, k))
    ensures Left(Run(w, past).store, p) <= Left(w.store, p)
    ensures CleanRun(Run(w, past), future) && p !in Run(w, past + future).store.providers
  {
    hide Base, CalmRun, CleanRun, Run, Left, CanEnd, Going;
    LeftOnRun(w, p, past);
    future := ReleaseInReach(Run(w, past), p);
    RunAppend(w, past, future);
  }
}
