/** Reconcile run to its end without faults or interference: it terminates, two
    calls bring a new identity to its goal, and from there on it changes nothing. */
module Convergence {
  import opened Cluster
  import opened Protocol
  import opened WriteOrder

  /** An upper bound on the API calls left in the running Reconcile. */
  function Rank(pc: IdPc): nat {
    match pc
    case Idle => 0
    case Find(kind, _) => (match kind case Vault => 36 case Azure => 35 case Kubernetes => 34 case Aws => 33)
    case Init(_, _) => 21
    case Refetch(_) => 20
    case Announce(_, _) => 19
    case Ensure(stage, missing, _, _, _) => 17 - 2 * StageNo(stage) + (if missing then 0 else 1)
    case Enroll(_, _) => 3
    case Tag(_, _) => 2
    case Publish(_, _) => 1
    case Undo(_, _) => 2
    case Release(_) => 1
    case Claim(_) => 1
  }

  /** Every API call, whatever its outcome, brings Reconcile closer to its end. */
  lemma RankFalls(s: Store, k: Key, pc: IdPc, io: Io)
    requires pc != Idle
    ensures Rank(IdStep(s, k, pc, io).1) < Rank(pc)
  {
    hide UpdateIdentity, UpdateIdentityStatus, CreateDep;
  }

  /** The running Reconcile of `k` carried to its end: every call succeeds, except
      the deletion of a record that a strict helper does not have. */
  function Settle(s: Store, k: Key, pc: IdPc, meta: map<string, string>): Store
    decreases Rank(pc)
  {
    if pc == Idle then s
    else
      var io := Answer(s, k, pc, meta);
      var r := IdStep(s, k, pc, io);
      RankFalls(s, k, pc, io);
      Settle(r.0, k, r.1, meta)
  }

  function Reconcile(s: Store, k: Key, meta: map<string, string>): Store {
    var r := IdStep(s, k, Idle, Io(false, true, meta));
    Settle(r.0, k, r.1, meta)
  }

  /** Such a pass is a run of the protocol in which only the worker of `k` moves. */
  lemma {:induction false} SettleIsRun(w: World, k: Key, meta: map<string, string>) returns (actions: seq<Action>)
    ensures Run(w, actions).store == Settle(w.store, k, PcOf(w, k), meta)
    ensures PcOf(Run(w, actions), k) == Idle
    ensures |actions| <= Rank(PcOf(w, k))
    ensures forall i :: 0 <= i < |actions| ==> actions[i].IdCall? && actions[i].k == k
    decreases Rank(PcOf(w, k))
  {
    if PcOf(w, k) == Idle {
      actions := [];
    } else {
      var a := IdCall(k, Answer(w.store, k, PcOf(w, k), meta));
      RankFalls(w.store, k, PcOf(w, k), a.io);
      var rest := SettleIsRun(Do(w, a), k, meta);
      actions := [a] + rest;
      assert actions[1..] == rest;
    }
  }

  lemma ReconcileIsRun(w: World, k: Key, meta: map<string, string>) returns (actions: seq<Action>)
    requires PcOf(w, k) == Idle
    ensures Run(w, actions).store == Reconcile(w.store, k, meta) && PcOf(Run(w, actions), k) == Idle
    ensures forall i :: 0 <= i < |actions| ==> actions[i].IdCall? && actions[i].k == k
  {
    hide Settle;
    var a := IdCall(k, Io(false, true, meta));
    var rest := SettleIsRun(Do(w, a), k, meta);
    actions := [a] + rest;
    assert actions[1..] == rest;
  }

  /** What the running Reconcile returns in the end. */
  function Ends(s: Store, k: Key, pc: IdPc, meta: map<string, string>): Outcome
    decreases Rank(pc)
  {
    var io := Answer(s, k, pc, meta);
    var r := IdStep(s, k, pc, io);
    if pc == Idle || r.1 == Idle then IdResult(s, k, pc, io)
    else
      RankFalls(s, k, pc, io);
      Ends(r.0, k, r.1, meta)
  }

  /** ... and a whole one. */
  function Returns(s: Store, k: Key, meta: map<string, string>): Outcome {
    var r := IdStep(s, k, Idle, Io(false, true, meta));
    if r.1 == Idle then IdResult(s, k, Idle, Io(false, true, meta)) else Ends(r.0, k, r.1, meta)
  }

  /** A call that fails or is rejected and ends the Reconcile is reported as an error;
      only an accepted claim asks for another run. */
  lemma FailuresAreReported(s: Store, k: Key, pc: IdPc, io: Io)
    requires IdStep(s, k, pc, io).1 == Idle
    ensures io.fault ==> IdResult(s, k, pc, io) == Error
    ensures IdResult(s, k, pc, io) == Requeue <==> pc.Claim? && !io.fault && UpdateIdentity(s, k, ClaimedCopy(pc.copy)).Some?
    ensures IdResult(s, k, pc, io) == Done ==> pc.Idle? || pc.Undo? || pc.Release? || pc.Publish?
  {
  }

  // ---------------------------------------------------------------- provider resolution

  predicate Has(s: Store, kind: Kind, key: Key) {
    ProviderKey(kind, key) in s.providers
  }

  function Resolve(s: Store, key: Key): Option<Backend> {
    if Has(s, Vault, key) then Some(BackendOf(Vault, s.providers[ProviderKey(Vault, key)]))
    else if Has(s, Azure, key) then Some(BackendOf(Azure, s.providers[ProviderKey(Azure, key)]))
    else if Has(s, Kubernetes, key) then Some(Backend(Kubernetes, ""))
    else if Has(s, Aws, key) then Some(BackendOf(Aws, s.providers[ProviderKey(Aws, key)]))
    else None
  }

  /** The rest of findProvider from the read of `kind` on. */
  predicate Ahead(s: Store, key: Key, kind: Kind, b: Backend) {
    && Resolve(s, key) == Some(b)
    && (match kind
        case Vault => true
        case Azure => !Has(s, Vault, key)
        case Kubernetes => !Has(s, Vault, key) && !Has(s, Azure, key)
        case Aws => !Has(s, Vault, key) && !Has(s, Azure, key) && !Has(s, Kubernetes, key))
  }

  lemma {:induction false} FindSettles(s: Store, k: Key, kind: Kind, c: Identity, b: Backend, meta: map<string, string>)
    requires Ahead(s, Key(k.ns, c.provider), kind, b)
    ensures Settle(s, k, Find(kind, c), meta) == Settle(s, k, Dispatch(c, b), meta)
    decreases Rank(Find(kind, c))
  {
    var io := Io(false, true, meta);
    match kind
    case Vault => if !Has(s, Vault, Key(k.ns, c.provider)) { FindSettles(s, k, Azure, c, b, meta); }
    case Azure => if !Has(s, Azure, Key(k.ns, c.provider)) { FindSettles(s, k, Kubernetes, c, b, meta); }
    case Kubernetes => if !Has(s, Kubernetes, Key(k.ns, c.provider)) { FindSettles(s, k, Aws, c, b, meta); }
    case Aws =>
  }

  // ---------------------------------------------------------------- convergence

  function MetaOf(b: Backend, meta: map<string, string>): map<string, string> {
    if b.kind.Kubernetes? then map[] else meta
  }

  /** Where Reconcile wants an identity that is not being deleted. */
  predicate Goal(s: Store, k: Key, b: Backend, meta: map<string, string>) {
    && k in s.ids && !s.ids[k].deleting && IDENTITY_FINALIZER in s.ids[k].finalizers
    && s.ids[k].phase.Reconciled? && s.ids[k].statusProvider == KindName(b.kind)
    && Built(s, k, 7)
    && s.ids[k].labels == map[PROVIDER_LABEL := s.ids[k].provider]
    && s.ids[k].metadata == MetaOf(b, meta)
    && (b.kind.Kubernetes? || Record(b, k) in s.ext)
  }

  /** The worker's copy is current and it goes for `b`. */
  predicate OnTrack(s: Store, k: Key, pc: IdPc, b: Backend, meta: map<string, string>) {
    && k in s.ids && !s.ids[k].deleting && IDENTITY_FINALIZER in s.ids[k].finalizers
    && Account(k.ns, "default") in s.deps
    && Resolve(s, Key(k.ns, s.ids[k].provider)) == Some(b)
    && match pc
       case Init(c, h) => c == s.ids[k] && h == b
       case Refetch(h) => h == b
       case Announce(c, h) => c == s.ids[k] && h == b
       case Ensure(stage, missing, c, h, _) =>
         && c == s.ids[k] && h == b && Announced(c, b) && Built(s, k, StageNo(stage))
         && (missing ==> !ReadOnly(stage) && Target(k, stage) !in s.deps)
       case Enroll(c, h) => c == s.ids[k] && h == b && Announced(c, b) && Built(s, k, 7)
       case Tag(c, m) =>
         && c == s.ids[k] && m == MetaOf(b, meta) && Announced(c, b) && Built(s, k, 7)
         && (b.kind.Kubernetes? || Record(b, k) in s.ext)
       case Publish(c, m) =>
         && c == s.ids[k] && m == MetaOf(b, meta) && Announced(c, b) && Built(s, k, 7)
         && c.labels == map[PROVIDER_LABEL := c.provider]
         && (b.kind.Kubernetes? || Record(b, k) in s.ext)
       case _ => false
  }

  predicate Announced(c: Identity, b: Backend) {
    c.phase.Reconciled? && c.statusProvider == KindName(b.kind)
  }

  lemma ResolveDepends(s: Store, t: Store, key: Key)
    ensures t.providers == s.providers ==> Resolve(t, key) == Resolve(s, key)
  {
  }

  lemma EnsureOnTrack(s: Store, k: Key, stage: Stage, missing: bool, c: Identity, h: Backend, account: nat, b: Backend, meta: map<string, string>)
    requires OnTrack(s, k, Ensure(stage, missing, c, h, account), b, meta)
    ensures var r := EnsureStep(s, k, stage, missing, c, h, account, Io(false, true, meta));
      OnTrack(r.0, k, r.1, b, meta) && r.0.ids == s.ids && r.0.providers == s.providers
  {
  }

  /** A write over a current, live copy is accepted and hands back what is stored. */
  lemma StatusAccepted(s: Store, k: Key, sent: Identity)
    requires k in s.ids && !s.ids[k].deleting && Current(s, k, sent)
    ensures var answer := UpdateIdentityStatus(s, k, sent);
      && answer.Some? && k in answer.value.ids && Stored(answer, k, sent) == answer.value.ids[k]
      && answer.value == s.(ids := answer.value.ids, clock := answer.value.clock)
      && answer.value.ids[k] == s.ids[k].(phase := sent.phase, statusProvider := sent.statusProvider,
           metadata := sent.metadata, rv := answer.value.ids[k].rv)
  {
  }

  lemma UpdateAccepted(s: Store, k: Key, sent: Identity)
    requires k in s.ids && !s.ids[k].deleting && Current(s, k, sent)
    ensures var answer := UpdateIdentity(s, k, sent);
      && answer.Some? && k in answer.value.ids && Stored(answer, k, sent) == answer.value.ids[k]
      && answer.value == s.(ids := answer.value.ids, clock := answer.value.clock)
      && answer.value.ids[k] == s.ids[k].(finalizers := sent.finalizers, labels := sent.labels,
           provider := sent.provider, rv := answer.value.ids[k].rv)
  {
  }

  lemma StaysOnTrack(s: Store, k: Key, pc: IdPc, b: Backend, meta: map<string, string>)
    requires OnTrack(s, k, pc, b, meta)
    ensures var r := IdStep(s, k, pc, Io(false, true, meta));
      if pc.Publish? then r.1 == Idle && Goal(r.0, k, b, meta) else OnTrack(r.0, k, r.1, b, meta)
    ensures var t := IdStep(s, k, pc, Io(false, true, meta)).0;
      && t.providers == s.providers && k in t.ids && t.ids[k].provider == s.ids[k].provider
      && Account(k.ns, "default") in t.deps
  {
    hide EnsureStep, Resolve, UpdateIdentity, UpdateIdentityStatus, Stored;
    ResolveDepends(s, IdStep(s, k, pc, Io(false, true, meta)).0, Key(k.ns, s.ids[k].provider));
    match pc
    case Init(c, _) => StatusAccepted(s, k, c.(phase := Reconciling));
    case Announce(c, h) => StatusAccepted(s, k, AnnouncedCopy(c, h));
    case Ensure(stage, missing, c, h, account) => EnsureOnTrack(s, k, stage, missing, c, h, account, b, meta);
    case Tag(c, _) => UpdateAccepted(s, k, TaggedCopy(c));
    case Publish(c, m) => StatusAccepted(s, k, c.(metadata := m));
    case _ =>
  }

  lemma {:induction false} TrackEndsAtGoal(s: Store, k: Key, pc: IdPc, b: Backend, meta: map<string, string>)
    requires OnTrack(s, k, pc, b, meta)
    ensures var t := Settle(s, k, pc, meta);
      && Goal(t, k, b, meta) && Account(k.ns, "default") in t.deps
      && t.providers == s.providers && k in t.ids && t.ids[k].provider == s.ids[k].provider
    decreases Rank(pc)
  {
    hide OnTrack, Goal, IdStep;
    var r := IdStep(s, k, pc, Io(false, true, meta));
    NotIdle(s, k, pc, b, meta);
    RankFalls(s, k, pc, Io(false, true, meta));
    StaysOnTrack(s, k, pc, b, meta);
    if !pc.Publish? {
      TrackEndsAtGoal(r.0, k, r.1, b, meta);
    }
  }

  lemma NotIdle(s: Store, k: Key, pc: IdPc, b: Backend, meta: map<string, string>)
    requires OnTrack(s, k, pc, b, meta)
    ensures pc != Idle && !pc.Undo?
  {
  }

  /** A live identity with a provider to be found and the namespace's own account. */
  predicate Ready(s: Store, k: Key, b: Backend) {
    && k in s.ids && !s.ids[k].deleting
    && Account(k.ns, "default") in s.deps
    && Resolve(s, Key(k.ns, s.ids[k].provider)) == Some(b)
  }

  lemma AfterFind(s: Store, k: Key, b: Backend, meta: map<string, string>)
    requires k in s.ids && Resolve(s, Key(k.ns, s.ids[k].provider)) == Some(b)
    ensures Reconcile(s, k, meta) == Settle(s, k, Dispatch(s.ids[k], b), meta)
  {
    FindSettles(s, k, Vault, s.ids[k], b, meta);
  }

  lemma SameProvider(s: Store, t: Store, k: Key, b: Backend, meta: map<string, string>)
    requires Ready(s, k, b) && t.providers == s.providers
    requires k in t.ids && !t.ids[k].deleting && t.ids[k].provider == s.ids[k].provider
    requires Account(k.ns, "default") in t.deps
    ensures Ready(t, k, b)
  {
  }

  /** With the finalizer in place one call reaches the goal. */
  lemma ClaimedReachesGoal(s: Store, k: Key, b: Backend, meta: map<string, string>)
    requires Ready(s, k, b) && IDENTITY_FINALIZER in s.ids[k].finalizers
    ensures Goal(Reconcile(s, k, meta), k, b, meta) && Ready(Reconcile(s, k, meta), k, b)
    ensures Returns(s, k, meta) == Done
  {
    FindEnds(s, k, Vault, s.ids[k], b, meta);
    hide Resolve;
    TrackEndsDone(s, k, Dispatch(s.ids[k], b), b, meta);
    AfterFind(s, k, b, meta);
    TrackEndsAtGoal(s, k, Dispatch(s.ids[k], b), b, meta);
    SameProvider(s, Reconcile(s, k, meta), k, b, meta);
  }

  /** Without it the first call adds it, marks a new identity as being reconciled,
      changes nothing else, and asks for the second. */
  lemma FirstCallClaims(s: Store, k: Key, b: Backend, meta: map<string, string>)
    requires Ready(s, k, b) && IDENTITY_FINALIZER !in s.ids[k].finalizers
    ensures var t := Reconcile(s, k, meta);
      Ready(t, k, b) && OnlyClaimed(s, t, k) && Returns(s, k, meta) == Requeue
  {
    AfterFind(s, k, b, meta);
    FindEnds(s, k, Vault, s.ids[k], b, meta);
    var pc := Dispatch(s.ids[k], b);
    if pc.Init? {
      InitThenClaim(s, k, b, meta);
    } else {
      ClaimSettles(s, k, meta);
    }
  }

  predicate OnlyClaimed(s: Store, t: Store, k: Key) {
    && k in s.ids && t == s.(ids := t.ids, clock := t.clock) && t.ids.Keys == s.ids.Keys
    && (forall j :: j in s.ids && j != k ==> t.ids[j] == s.ids[j])
    && t.ids[k] == s.ids[k].(finalizers := s.ids[k].finalizers + {"identity.aegis.aegisproxy.io"},
         phase := if s.ids[k].phase.Unset? then Reconciling else s.ids[k].phase, rv := t.ids[k].rv)
  }

  lemma ClaimSettles(s: Store, k: Key, meta: map<string, string>)
    requires k in s.ids && !s.ids[k].deleting && !s.ids[k].phase.Unset?
    ensures OnlyClaimed(s, Settle(s, k, Claim(s.ids[k]), meta), k)
    ensures Ends(s, k, Claim(s.ids[k]), meta) == Requeue
  {
  }

  lemma InitThenClaim(s: Store, k: Key, b: Backend, meta: map<string, string>)
    requires k in s.ids && !s.ids[k].deleting && s.ids[k].phase.Unset? && IDENTITY_FINALIZER !in s.ids[k].finalizers
    ensures OnlyClaimed(s, Settle(s, k, Init(s.ids[k], b), meta), k)
    ensures Ends(s, k, Init(s.ids[k], b), meta) == Requeue
  {
    var io := Io(false, true, meta);
    var s1 := IdStep(s, k, Init(s.ids[k], b), io).0;
    assert Settle(s, k, Init(s.ids[k], b), meta) == Settle(s1, k, Refetch(b), meta);
    assert Settle(s1, k, Refetch(b), meta) == Settle(s1, k, Claim(s1.ids[k]), meta);
    assert Ends(s, k, Init(s.ids[k], b), meta) == Ends(s1, k, Refetch(b), meta) == Ends(s1, k, Claim(s1.ids[k]), meta);
    ClaimSettles(s1, k, meta);
  }

  lemma {:induction false} FindEnds(s: Store, k: Key, kind: Kind, c: Identity, b: Backend, meta: map<string, string>)
    requires Ahead(s, Key(k.ns, c.provider), kind, b) && !c.deleting
    ensures Ends(s, k, Find(kind, c), meta) == Ends(s, k, Dispatch(c, b), meta)
    decreases Rank(Find(kind, c))
  {
    match kind
    case Vault => if !Has(s, Vault, Key(k.ns, c.provider)) { FindEnds(s, k, Azure, c, b, meta); }
    case Azure => if !Has(s, Azure, Key(k.ns, c.provider)) { FindEnds(s, k, Kubernetes, c, b, meta); }
    case Kubernetes => if !Has(s, Kubernetes, Key(k.ns, c.provider)) { FindEnds(s, k, Aws, c, b, meta); }
    case Aws =>
  }

  lemma {:induction false} TrackEndsDone(s: Store, k: Key, pc: IdPc, b: Backend, meta: map<string, string>)
    requires OnTrack(s, k, pc, b, meta)
    ensures Ends(s, k, pc, meta) == Done
    decreases Rank(pc)
  {
    hide OnTrack, Goal, IdStep;
    NotIdle(s, k, pc, b, meta);
    var io := Io(false, true, meta);
    var r := IdStep(s, k, pc, io);
    RankFalls(s, k, pc, io);
    StaysOnTrack(s, k, pc, b, meta);
    if pc.Publish? {
      PublishIsDone(s, k, pc, b, meta);
    } else {
      NotIdle(r.0, k, r.1, b, meta);
      TrackEndsDone(r.0, k, r.1, b, meta);
    }
  }

  lemma PublishIsDone(s: Store, k: Key, pc: IdPc, b: Backend, meta: map<string, string>)
    requires OnTrack(s, k, pc, b, meta) && pc.Publish?
    ensures IdResult(s, k, pc, Io(false, true, meta)) == Done
  {
  }

  lemma GoalStep(s: Store, k: Key, pc: IdPc, b: Backend, meta: map<string, string>)
    requires OnTrack(s, k, pc, b, meta) && Goal(s, k, b, meta)
    requires !pc.Init?
    ensures var r := IdStep(s, k, pc, Io(false, true, meta)); r.0 == s && !r.1.Init?
  {
    if pc.Enroll? && !b.kind.Kubernetes? {
      assert s.ext + {Record(b, k)} == s.ext;
    }
  }

  lemma {:induction false} GoalIsFixed(s: Store, k: Key, pc: IdPc, b: Backend, meta: map<string, string>)
    requires OnTrack(s, k, pc, b, meta) && Goal(s, k, b, meta) && !pc.Init?
    ensures Settle(s, k, pc, meta) == s
    decreases Rank(pc)
  {
    hide OnTrack, Goal, IdStep;
    NotIdle(s, k, pc, b, meta);
    RankFalls(s, k, pc, Io(false, true, meta));
    GoalStep(s, k, pc, b, meta);
    StaysOnTrack(s, k, pc, b, meta);
    if !pc.Publish? {
      GoalIsFixed(s, k, IdStep(s, k, pc, Io(false, true, meta)).1, b, meta);
    }
  }

  /** At the goal a further Reconcile leaves the whole store as it is. */
  lemma GoalIsStable(s: Store, k: Key, b: Backend, meta: map<string, string>)
    requires Ready(s, k, b) && Goal(s, k, b, meta)
    ensures Reconcile(s, k, meta) == s
  {
    AfterFind(s, k, b, meta);
    GoalIsFixed(s, k, Dispatch(s.ids[k], b), b, meta);
  }

  /** From any live identity with a provider, two calls reach the goal, and every
      call after that is the identity on the store. */
  lemma TwoCallsConverge(s: Store, k: Key, b: Backend, meta: map<string, string>)
    requires Ready(s, k, b)
    ensures var t := Reconcile(Reconcile(s, k, meta), k, meta);
      Goal(t, k, b, meta) && Reconcile(t, k, meta) == t && Returns(t, k, meta) == Done
  {
    hide Reconcile, Resolve, Goal, Returns;
    var t1 := Reconcile(s, k, meta);
    if IDENTITY_FINALIZER in s.ids[k].finalizers {
      ClaimedReachesGoal(s, k, b, meta);
      GoalIsStable(t1, k, b, meta);
      GoalIsDone(t1, k, b, meta);
    } else {
      FirstCallClaims(s, k, b, meta);
      ClaimedReachesGoal(t1, k, b, meta);
      GoalIsStable(Reconcile(t1, k, meta), k, b, meta);
      GoalIsDone(Reconcile(t1, k, meta), k, b, meta);
    }
  }

  lemma GoalIsDone(s: Store, k: Key, b: Backend, meta: map<string, string>)
    requires Ready(s, k, b) && Goal(s, k, b, meta)
    ensures Returns(s, k, meta) == Done
  {
    ClaimedReachesGoal(s, k, b, meta);
  }
}
