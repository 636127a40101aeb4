/** The life of a provider before its deletion: two Reconciles claim it and mark it
    reconciled, and a provider so marked is held until its own release. */
module ProviderSetup {
  import opened Cluster
  import opened Protocol
  import opened Safety
  import opened ProviderDeletion

  /** A Reconcile without faults of a provider that is not being deleted; `issuer` is
      what the KubernetesProvider controller reads from its token. */
  function LivePass(s: Store, p: ProviderKey, issuer: string): Store {
    PassOf(s, p, [], issuer)
  }

  predicate Live(s: Store, p: ProviderKey) {
    p in s.providers && !s.providers[p].deleting
  }

  /** Nothing but the provider differs. */
  predicate OnlyProvider(s: Store, t: Store, p: ProviderKey) {
    && t == s.(providers := t.providers, clock := t.clock) && t.providers.Keys == s.providers.Keys
    && forall q :: q in s.providers && q != p ==> t.providers[q] == s.providers[q]
  }

  function Same(o: Provider): Provider { o.(rv := 0) }

  lemma PutLive(s: Store, p: ProviderKey, sent: Provider)
    requires Live(s, p) && CurrentProvider(s, p, sent)
    ensures var answer := UpdateProvider(s, p, sent);
      && answer.Some? && Live(answer.value, p) && OnlyProvider(s, answer.value, p)
      && Same(answer.value.providers[p]) == Same(s.providers[p].(finalizers := sent.finalizers, endpoint := sent.endpoint))
    ensures var answer := UpdateProviderStatus(s, p, sent);
      && answer.Some? && Live(answer.value, p) && OnlyProvider(s, answer.value, p)
      && Same(answer.value.providers[p]) == Same(s.providers[p].(phase := sent.phase, issuer := sent.issuer))
  {
  }

  lemma PStepTo(s: Store, p: ProviderKey, pc: PrPc, issuer: string)
    requires pc != PIdle
    ensures var r := PrStep(s, p, pc, OK, [], issuer);
      && PSettle(s, p, pc, [], issuer) == PSettle(r.0, p, r.1, [], issuer)
      && PEnds(s, p, pc, [], issuer) == (if r.1 == PIdle then PrResult(s, p, pc, OK) else PEnds(r.0, p, r.1, [], issuer))
  {
    PRankFalls(s, p, pc, OK, [], issuer);
  }

  lemma ClaimEnds(s: Store, p: ProviderKey, issuer: string)
    requires Live(s, p)
    ensures var c := s.providers[p]; var t := PSettle(s, p, PClaim(c), [], issuer);
      && Live(t, p) && OnlyProvider(s, t, p) && PEnds(s, p, PClaim(c), [], issuer) == Requeue
      && Same(t.providers[p]) == Same(c.(finalizers := c.finalizers + {"idprovider.aegis.aegisproxy.io"}))
  {
    var c := s.providers[p];
    PutLive(s, p, c.(finalizers := c.finalizers + {PROVIDER_FINALIZER}));
    PStepTo(s, p, PClaim(c), issuer);
  }

  lemma AnnounceEnds(s: Store, p: ProviderKey, issuer: string)
    requires Live(s, p)
    ensures var c := s.providers[p]; var t := PSettle(s, p, PAnnounce(c), [], issuer);
      && Live(t, p) && OnlyProvider(s, t, p) && PEnds(s, p, PAnnounce(c), [], issuer) == Done
      && Same(t.providers[p]) == Same(c.(phase := Reconciled, issuer := if p.kind.Kubernetes? then issuer else c.issuer))
  {
    var c := s.providers[p];
    PutLive(s, p, c.(phase := Reconciled, issuer := if p.kind.Kubernetes? then issuer else c.issuer));
    PStepTo(s, p, PAnnounce(c), issuer);
  }

  lemma AdmitEnds(s: Store, p: ProviderKey, issuer: string)
    requires Live(s, p)
    ensures var c := s.providers[p]; var t := PSettle(s, p, PAdmit(c), [], issuer);
      Passed(s, t, p, issuer, c) && PEnds(s, p, PAdmit(c), [], issuer) == (if Claimed(c) then Done else Requeue)
  {
    if Claimed(s.providers[p]) { AnnounceEnds(s, p, issuer); } else { ClaimEnds(s, p, issuer); }
  }

  predicate Claimed(o: Provider) {
    "idprovider.aegis.aegisproxy.io" in o.finalizers
  }

  /** A provider that is claimed comes out reconciled, the Kubernetes one with its
      issuer; one that is not comes out claimed. */
  predicate Passed(s: Store, t: Store, p: ProviderKey, issuer: string, c: Provider) {
    && Live(t, p) && OnlyProvider(s, t, p)
    && Same(t.providers[p]) == Same(
         if Claimed(c) then c.(phase := Reconciled, issuer := if p.kind.Kubernetes? then issuer else c.issuer)
         else c.(finalizers := c.finalizers + {"idprovider.aegis.aegisproxy.io"}))
  }

  /** One pass: a new provider is first marked as being reconciled. */
  lemma PassEnds(s: Store, p: ProviderKey, issuer: string)
    requires Live(s, p)
    ensures var c := s.providers[p];
      var c' := if c.phase.Unset? then c.(phase := Reconciling) else c;
      && Passed(s, LivePass(s, p, issuer), p, issuer, c')
      && PEnds(s, p, PDispatch(c), [], issuer) == (if Claimed(c) then Done else Requeue)
  {
    hide PSettle, PEnds, Passed;
    var c := s.providers[p];
    if c.phase.Unset? {
      PutLive(s, p, c.(phase := Reconciling));
      PStepTo(s, p, PInit(c), issuer);
      var s1 := PrStep(s, p, PInit(c), OK, [], issuer).0;
      PStepTo(s1, p, PRefetch, issuer);
      AdmitEnds(s1, p, issuer);
      PassedFrom(s, s1, LivePass(s, p, issuer), p, issuer, c.(phase := Reconciling));
    } else {
      AdmitEnds(s, p, issuer);
    }
  }

  lemma PassedFrom(s: Store, s1: Store, t: Store, p: ProviderKey, issuer: string, c: Provider)
    requires Live(s1, p) && OnlyProvider(s, s1, p) && Same(s1.providers[p]) == Same(c) && Passed(s1, t, p, issuer, s1.providers[p])
    ensures Passed(s, t, p, issuer, c)
  {
  }

  /** From any live provider: the first pass ends with the finalizer in place and asks
      for another, the second ends reconciled, and every later one is the identity on
      the store. */
  lemma TwoPassesSetUp(s: Store, p: ProviderKey, issuer: string)
    requires Live(s, p)
    ensures var t1 := LivePass(s, p, issuer);
      var t2 := LivePass(t1, p, issuer);
      && PHeld(t1, p) && Live(t1, p) && OnlyProvider(s, t1, p)
      && (!Claimed(s.providers[p]) ==> PEnds(s, p, PDispatch(s.providers[p]), [], issuer) == Requeue)
      && PHeld(t2, p) && Live(t2, p) && OnlyProvider(t1, t2, p)
      && t2.providers[p].phase.Reconciled? && PEnds(t1, p, PDispatch(t1.providers[p]), [], issuer) == Done
      && (if p.kind.Kubernetes? then t2.providers[p].issuer == issuer else t2.providers[p].issuer == s.providers[p].issuer)
      && t2.providers[p].endpoint == s.providers[p].endpoint
      && LivePass(t2, p, issuer) == t2
  {
    hide LivePass, PEnds;
    var t1 := LivePass(s, p, issuer);
    PassEnds(s, p, issuer);
    PassEnds(t1, p, issuer);
    SetUpIsStable(LivePass(t1, p, issuer), p, issuer);
  }

  lemma SetUpIsStable(s: Store, p: ProviderKey, issuer: string)
    requires Live(s, p) && Claimed(s.providers[p]) && s.providers[p].phase.Reconciled?
    requires p.kind.Kubernetes? ==> s.providers[p].issuer == issuer
    ensures LivePass(s, p, issuer) == s
  {
    var c := s.providers[p];
    PStepTo(s, p, PAnnounce(c), issuer);
    assert UpdateProviderStatus(s, p, c.(phase := Reconciled)) == Some(s);
  }

  // ---------------------------------------------------------------- over runs

  /** A reconciler announces only what is claimed and releases only what is deleted. */
  predicate PointOk(pc: PrPc) {
    match pc
    case PAnnounce(c) => Claimed(c)
    case PRelease(c, _) => c.deleting
    case PList(c) => c.deleting
    case PDelete(c, _, _) => c.deleting
    case PCheck(c, _, _) => c.deleting
    case _ => true
  }

  /** A provider that is not being deleted and is marked reconciled has the finalizer. */
  predicate ReconciledIsHeld(s: Store, p: ProviderKey) {
    Live(s, p) && s.providers[p].phase.Reconciled? ==> PHeld(s, p)
  }

  ghost predicate SetupInv(w: World, p: ProviderKey) {
    Base(w) && PointOk(PrPcOf(w, p)) && ReconciledIsHeld(w.store, p)
  }

  lemma OwnPass(s: Store, p: ProviderKey, pc: PrPc, io: Io, items: seq<Key>, issuer: string)
    requires PrPcOk(s, p, pc) && PointOk(pc) && ReconciledIsHeld(s, p)
    ensures var r := PrStep(s, p, pc, io, items, issuer); PointOk(r.1) && ReconciledIsHeld(r.0, p)
  {
    DeleteKeepsProviders(s);
    hide DeleteIdentity;
  }

  lemma OtherPass(s: Store, q: ProviderKey, pc: PrPc, io: Io, items: seq<Key>, issuer: string, p: ProviderKey)
    requires q != p && ReconciledIsHeld(s, p)
    ensures ReconciledIsHeld(PrStep(s, q, pc, io, items, issuer).0, p)
  {
    DeleteKeepsProviders(s);
    hide DeleteIdentity;
  }

  lemma OthersKeepHeld(s: Store, p: ProviderKey, a: Action)
    requires ReconciledIsHeld(s, p) && ProviderDiscipline(s, p, a)
    ensures ReconciledIsHeld(Outside(s, a), p)
  {
    if !a.ProviderCreate? && !a.ProviderEdit? && !a.ProviderDelete? { IdentityWritesAside(s, a); }
    hide UpdateIdentity, UpdateIdentityStatus, DeleteIdentity, CreateDep;
  }

  lemma IdentityWritesAside(s: Store, a: Action)
    requires !a.ProviderCreate? && !a.ProviderEdit? && !a.ProviderDelete?
    ensures Outside(s, a).providers == s.providers
  {
  }

  lemma SetupKept(w: World, p: ProviderKey, a: Action)
    requires SetupInv(w, p) && FinalizerDiscipline(w.store, a) && ProviderDiscipline(w.store, p, a)
    ensures SetupInv(Do(w, a), p)
  {
    BaseKept(w, a);
    hide IdStep, ProgressStep, IsListing, PcOk, PrPcOk, PrStep, WellFormed, ProvidersOk, Outside, ReconciledIsHeld, PointOk;
    match a
    case IdCall(k, io) =>
      StepKeepsStore(w.store, k, PcOf(w, k), io);
      SameHeld(w.store, Do(w, a).store, p);
    case Progress(k) =>
      ProgressQuiet(w.store, k, PcOf(w, k));
      SameHeld(w.store, Do(w, a).store, p);
    case ProviderCall(q, io, items, issuer) =>
      if q == p {
        OwnPass(w.store, p, PrPcOf(w, p), io, items, issuer);
      } else {
        OtherPass(w.store, q, PrPcOf(w, q), io, items, issuer, p);
      }
    case Crash => IdlePointOk();
    case _ => OthersKeepHeld(w.store, p, a);
  }

  lemma SameHeld(s: Store, t: Store, p: ProviderKey)
    requires t.providers == s.providers && ReconciledIsHeld(s, p)
    ensures ReconciledIsHeld(t, p)
  {
  }

  lemma IdlePointOk()
    ensures PointOk(PIdle)
  {
  }

  ghost predicate SetupRun(w: World, p: ProviderKey, actions: seq<Action>)
    decreases |actions|
  {
    actions == [] ||
      (FinalizerDiscipline(w.store, actions[0]) && ProviderDiscipline(w.store, p, actions[0])
       && SetupRun(Do(w, actions[0]), p, actions[1..]))
  }

  /** Over every run in which nobody else takes the finalizer off, a live provider that
      the operator has marked reconciled is held; so a DELETE only marks it. */
  lemma {:induction false} MarkedIsHeld(w: World, p: ProviderKey, actions: seq<Action>)
    requires SetupInv(w, p) && SetupRun(w, p, actions)
    ensures var s := Run(w, actions).store;
      && SetupInv(Run(w, actions), p)
      && (Live(s, p) && s.providers[p].phase.Reconciled? ==>
            PHeld(s, p) && p in Outside(s, ProviderDelete(p)).providers)
    decreases |actions|
  {
    hide Base, Do, FinalizerDiscipline, ProviderDiscipline;
    if actions != [] {
      SetupKept(w, p, actions[0]);
      MarkedIsHeld(Do(w, actions[0]), p, actions[1..]);
    }
  }

  /** Every cluster the operator has not touched satisfies the invariant. */
  lemma NewProviders(w: World, p: ProviderKey)
    requires Base(w) && w.reconcilers == map[] && (p in w.store.providers ==> w.store.providers[p].phase.Unset?)
    ensures SetupInv(w, p)
  {
  }
}
