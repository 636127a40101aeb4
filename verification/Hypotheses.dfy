/** Why the theorems carry their hypotheses: dropping one of them, some run leaves a
    record behind, an identity that cannot go, or a published one without its
    account.  Each lemma covers every cluster in the situation it describes, not one
    example. */
module Hypotheses {
  import opened Cluster
  import opened Protocol
  import opened Safety
  import opened Convergence
  import opened Resolvers
  import PodWebhook
  import WriteOrder

  const FAULT := Io(true, false, map[])

  /** A record of an identity that no longer holds the finalizer. */
  ghost predicate Orphan(s: Store, r: Record) {
    r in s.ext && !Held(s, r.key)
  }

  function Calls(k: Key, ios: seq<Io>): seq<Action> {
    if ios == [] then [] else [IdCall(k, ios[0])] + Calls(k, ios[1..])
  }

  lemma Unfold(w: World, a: Action, rest: seq<Action>)
    ensures Run(w, [a] + rest) == Run(Do(w, a), rest)
  {
    assert ([a] + rest)[1..] == rest;
  }

  /** One call of the worker of `k`, then the others. */
  lemma Call(w: World, k: Key, io: Io, rest: seq<Io>)
    ensures Run(w, Calls(k, [io] + rest)) == Run(Do(w, IdCall(k, io)), Calls(k, rest))
    ensures var r := IdStep(w.store, k, PcOf(w, k), io);
      Do(w, IdCall(k, io)).store == r.0 && PcOf(Do(w, IdCall(k, io)), k) == r.1
  {
    assert ([io] + rest)[1..] == rest;
    Unfold(w, IdCall(k, io), Calls(k, rest));
  }

  /** Idle worker, and only the operator's finalizer keeps the deleted object. */
  predicate Dying(w: World, k: Key) {
    && PcOf(w, k) == Idle && k in w.store.ids
    && w.store.ids[k].deleting && w.store.ids[k].finalizers == {IDENTITY_FINALIZER}
  }

  /** The last two calls of a deletion through `helper`. */
  lemma UndoAndRelease(w: World, k: Key, helper: Backend)
    requires k in w.store.ids && w.store.ids[k].deleting && w.store.ids[k].finalizers == {IDENTITY_FINALIZER}
    requires PcOf(w, k) == Undo(w.store.ids[k], helper)
    ensures var t := Run(w, Calls(k, [OK, OK])).store;
      k !in t.ids && t.ext == w.store.ext - {Record(helper, k)}
  {
    Call(w, k, OK, [OK]);
    assert [OK] + [OK] == [OK, OK] && [OK] + [] == [OK];
    Call(Do(w, IdCall(k, OK)), k, OK, []);
  }

  // ---------------------------------------------------------------- the wrong helper

  lemma {:induction false} CallsAppend(k: Key, a: seq<Io>, b: seq<Io>)
    ensures Calls(k, a + b) == Calls(k, a) + Calls(k, b)
  {
    if a == [] {
      assert a + b == b;
    } else {
      assert (a + b)[0] == a[0] && (a + b)[1..] == a[1..] + b;
      CallsAppend(k, a[1..], b);
    }
  }

  /** The provider reads of one lookup, with the outcomes that `v` gives them. */
  function Lookup(v: PodWebhook.View, key: Key, kind: Kind, c: Identity): seq<Io>
    decreases Rank(Find(kind, c))
  {
    var reply := Reads(v, key, kind);
    var next := AfterRead(kind, c, reply);
    [if reply.Failed? then FAULT else OK]
    + if next.Find? && Rank(next) < Rank(Find(kind, c)) then Lookup(v, key, next.kind, c) else []
  }

  lemma {:induction false} LookupRuns(w: World, k: Key, kind: Kind, c: Identity, v: PodWebhook.View)
    requires PcOf(w, k) == Find(kind, c) && Possible(v, w.store, Key(k.ns, c.provider))
    ensures var u := Run(w, Calls(k, Lookup(v, Key(k.ns, c.provider), kind, c)));
      u.store == w.store && PcOf(u, k) == ControllerEnds(v, Key(k.ns, c.provider), kind, c)
    decreases Rank(Find(kind, c))
  {
    hide Dispatch;
    var key := Key(k.ns, c.provider);
    var reply := Reads(v, key, kind);
    var io := if reply.Failed? then FAULT else OK;
    var next := AfterRead(kind, c, reply);
    assert reply == ReadProvider(w.store, ProviderKey(kind, key), io);
    var rest := if next.Find? && Rank(next) < Rank(Find(kind, c)) then Lookup(v, key, next.kind, c) else [];
    Call(w, k, io, rest);
    if next.Find? && Rank(next) < Rank(Find(kind, c)) {
      NextIsFind(kind, c, reply);
      LookupRuns(Do(w, IdCall(k, io)), k, next.kind, c, v);
    }
  }

  lemma NextIsFind(kind: Kind, c: Identity, reply: Reply<Provider>)
    ensures AfterRead(kind, c, reply).Find? ==> AfterRead(kind, c, reply).copy == c
  {
  }

  /** A Reconcile of the dying `k`: the read of the object, the provider reads, and
      the calls after them, which succeed unless the helper refuses. */
  function DeletionPass(w: World, k: Key, v: PodWebhook.View): seq<Action>
    requires k in w.store.ids
  {
    var c := w.store.ids[k];
    var key := Key(k.ns, c.provider);
    var end := ControllerEnds(v, key, Vault, c);
    var last := if !end.Undo? then [] else if Accepts(w.store, k, end.helper) then [OK, OK] else [FAULT];
    Calls(k, [OK] + (Lookup(v, key, Vault, c) + last))
  }

  /** What it leaves, whatever provider reads fail. */
  lemma PassLeaves(w: World, k: Key, v: PodWebhook.View)
    requires Dying(w, k) && Possible(v, w.store, Key(k.ns, w.store.ids[k].provider))
    ensures var picked := Picked(v, Key(k.ns, w.store.ids[k].provider));
      var t := Run(w, DeletionPass(w, k, v)).store;
      if picked.Some? && Accepts(w.store, k, picked.value)
      then k !in t.ids && t.ext == w.store.ext - {Record(picked.value, k)}
      else t == w.store
  {
    hide ControllerEnds, Lookup, Picked, Possible, Reads, Calls;
    var c := w.store.ids[k];
    var key := Key(k.ns, c.provider);
    ControllerKindIsFindProvider(v, key, c);
    var end := ControllerEnds(v, key, Vault, c);
    var last := if !end.Undo? then [] else if Accepts(w.store, k, end.helper) then [OK, OK] else [FAULT];
    Call(w, k, OK, Lookup(v, key, Vault, c) + last);
    var w1 := Do(w, IdCall(k, OK));
    LookupRuns(w1, k, Vault, c, v);
    CallsAppend(k, Lookup(v, key, Vault, c), last);
    RunAppend(w1, Calls(k, Lookup(v, key, Vault, c)), Calls(k, last));
    var w2 := Run(w1, Calls(k, Lookup(v, key, Vault, c)));
    if end.Undo? {
      if Accepts(w.store, k, end.helper) { UndoAndRelease(w2, k, end.helper); } else { Refused(w2, k); }
    } else {
      NoCalls(w2, k);
    }
  }

  lemma Refused(w: World, k: Key)
    requires PcOf(w, k).Undo?
    ensures Run(w, Calls(k, [FAULT])).store == w.store
  {
    assert [FAULT] + [] == [FAULT];
    Call(w, k, FAULT, []);
  }

  lemma NoCalls(w: World, k: Key)
    ensures Run(w, Calls(k, [])) == w
  {
  }

  /** Exactly when the deletion of an identity with a record at `b` orphans it: the
      provider reads end in another helper, and that one does not refuse. */
  lemma WrongHelperOrphans(w: World, k: Key, b: Backend, v: PodWebhook.View)
    requires Dying(w, k) && Record(b, k) in w.store.ext
    requires Possible(v, w.store, Key(k.ns, w.store.ids[k].provider))
    ensures var picked := Picked(v, Key(k.ns, w.store.ids[k].provider));
      Orphan(Run(w, DeletionPass(w, k, v)).store, Record(b, k)) <==>
        picked.Some? && picked.value != b && Accepts(w.store, k, picked.value)
  {
    hide Picked, Possible, DeletionPass, Accepts;
    PassLeaves(w, k, v);
  }

  /** identity_controller.go:294-316: while the name still resolves to the backend
      that has the record, failing reads orphan it exactly if it is AWS's and the
      KubernetesProvider read is the one that fails, after Vault and Azure were
      not found. */
  lemma FailedKubernetesReadOrphans(w: World, k: Key, b: Backend, v: PodWebhook.View)
    requires Dying(w, k) && Record(b, k) in w.store.ext
    requires var key := Key(k.ns, w.store.ids[k].provider); Possible(v, w.store, key) && Resolve(w.store, key) == Some(b)
    ensures Orphan(Run(w, DeletionPass(w, k, v)).store, Record(b, k)) <==>
      b.kind.Aws? && FallsBack(v, Key(k.ns, w.store.ids[k].provider))
  {
    hide Picked, DeletionPass;
    var key := Key(k.ns, w.store.ids[k].provider);
    WrongHelperOrphans(w, k, b, v);
    PickedIsResolved(v, w.store, key);
    assert Reads(v, key, Vault).NotFound? ==> !Has(w.store, Vault, key);
    assert Reads(v, key, Azure).NotFound? ==> !Has(w.store, Azure, key);
  }

  /** If no read fails but the name has come to stand for another backend `h`, of
      whatever kind, the record at `b` is orphaned exactly if `h` does not refuse;
      if it does, the identity is stuck instead. */
  lemma MovedProviderOrphans(w: World, k: Key, b: Backend, h: Backend, v: PodWebhook.View)
    requires Dying(w, k) && Record(b, k) in w.store.ext
    requires var key := Key(k.ns, w.store.ids[k].provider); Truthful(v, w.store, key) && Resolve(w.store, key) == Some(h)
    ensures var t := Run(w, DeletionPass(w, k, v)).store;
      && (Orphan(t, Record(b, k)) <==> h != b && Accepts(w.store, k, h))
      && (!Accepts(w.store, k, h) ==> t == w.store)
  {
    hide Picked, DeletionPass, Accepts, Resolve;
    var key := Key(k.ns, w.store.ids[k].provider);
    TruthfulIsPossible(v, w.store, key);
    TruthfulReadsAgree(v, w.store, key);
    ControllerKindIsFindProvider(v, key, w.store.ids[k]);
    PickedIsResolved(v, w.store, key);
    PassLeaves(w, k, v);
    WrongHelperOrphans(w, k, b, v);
  }

  lemma TruthfulIsPossible(v: PodWebhook.View, s: Store, key: Key)
    requires Truthful(v, s, key)
    ensures Possible(v, s, key) && !FallsBack(v, key)
  {
    assert !Reads(v, key, Kubernetes).Failed?;
  }

  // ---------------------------------------------------------------- what the hypothesis on lookups asks

  /** The lookup has not been overtaken: no kind it has passed bears the name by now. */
  predicate NotOvertaken(s: Store, key: Key, kind: Kind) {
    match kind
    case Vault => true
    case Azure => !Has(s, Vault, key)
    case Kubernetes => !Has(s, Vault, key) && !Has(s, Azure, key)
    case Aws => !Has(s, Vault, key) && !Has(s, Azure, key) && !Has(s, Kubernetes, key)
  }

  /** At every read of a lookup its name resolves to its home or to nothing.  Other
      kinds may bear the name as well, as long as the lookup never gets to them. */
  predicate Stable(home: Home, w: World, a: Action) {
    FinalizerDiscipline(w.store, a) &&
    (a.IdCall? && PcOf(w, a.k).Find? ==>
       var pc := PcOf(w, a.k);
       var key := Key(a.k.ns, pc.copy.provider);
       && (Resolve(w.store, key).Some? ==> Resolve(w.store, key).value == home(key))
       && NotOvertaken(w.store, key, pc.kind)
       && (a.io.fault ==> !pc.kind.Kubernetes?))
  }

  lemma StableIsBenign(home: Home, w: World, a: Action)
    requires Stable(home, w, a)
    ensures Benign(home, w, a)
  {
  }

  ghost predicate StableRun(home: Home, w: World, actions: seq<Action>)
    decreases |actions|
  {
    actions == [] || (Stable(home, w, actions[0]) && StableRun(home, Do(w, actions[0]), actions[1..]))
  }

  /** So the safety theorem holds of every run in which spec.provider keeps
      resolving to the same provider. */
  lemma {:induction false} StableRunIsBenign(home: Home, w: World, actions: seq<Action>)
    requires StableRun(home, w, actions)
    ensures BenignRun(home, w, actions)
    decreases |actions|
  {
    hide Do, Stable, Benign;
    if actions != [] {
      StableIsBenign(home, w, actions[0]);
      StableRunIsBenign(home, Do(w, actions[0]), actions[1..]);
    }
  }

  // ---------------------------------------------------------------- the finalizer taken away

  /** If somebody else takes the finalizer off, the record is orphaned at once. */
  lemma StolenFinalizerOrphans(w: World, k: Key, b: Backend)
    requires k in w.store.ids && Record(b, k) in w.store.ext && Held(w.store, k)
    ensures var o := w.store.ids[k];
      Orphan(Do(w, UserEdit(k, o.provider, o.labels, o.finalizers - {IDENTITY_FINALIZER})).store, Record(b, k))
  {
    var o := w.store.ids[k];
    assert o.finalizers - {IDENTITY_FINALIZER} != o.finalizers;
  }

  // ---------------------------------------------------------------- the record is gone, the finalizer is not

  /** A Vault or Azure identity under deletion whose record is already gone, as a
      crash between DeleteIdentity and the update after it leaves it. */
  ghost predicate Stranded(home: Home, w: World, k: Key) {
    Inv(home, w) && Undone(home, w.store, k, PcOf(w, k))
  }

  ghost predicate Undone(home: Home, s: Store, k: Key, pc: IdPc) {
    && Held(s, k) && s.ids[k].deleting
    && (forall b :: Record(b, k) !in s.ext)
    && Strict(HomeOf(home, k, s.ids[k]))
    && match pc
       case Idle => true
       case Find(_, c) => c.deleting
       case Undo(_, _) => true
       case _ => false
  }

  /** A strict helper reports an error for a record of `k` that it does not have. */
  predicate StrictUndo(w: World, k: Key, a: Action) {
    a.IdCall? && a.k == k && PcOf(w, k).Undo? && !a.io.fault ==> Accepts(w.store, k, PcOf(w, k).helper)
  }

  ghost predicate StrictRun(home: Home, w: World, k: Key, actions: seq<Action>)
    decreases |actions|
  {
    actions == [] ||
      (Benign(home, w, actions[0]) && StrictUndo(w, k, actions[0]) && StrictRun(home, Do(w, actions[0]), k, actions[1..]))
  }

  lemma UndoneStep(home: Home, w: World, k: Key, io: Io)
    requires Stranded(home, w, k) && StrictUndo(w, k, IdCall(k, io))
    ensures var r := IdStep(w.store, k, PcOf(w, k), io); Undone(home, r.0, k, r.1)
  {
    assert KeyInv(home, w, k);
    assert PcOk(w.store, k, PcOf(w, k));
    if PcOf(w, k).Undo? {
      assert DropRecord(w.store, PcOf(w, k).helper, k) == w.store;
    }
  }

  /** What a step of others leaves of it. */
  lemma UndoneQuiet(home: Home, s: Store, t: Store, k: Key, pc: IdPc)
    requires WellFormed(s) && Quiet(s, t, k) && Undone(home, s, k, pc)
    requires forall b :: Record(b, k) in t.ext ==> Record(b, k) in s.ext
    ensures Undone(home, t, k, pc)
  {
  }

  lemma UndoneProgress(home: Home, s: Store, j: Key, pc: IdPc, k: Key, own: IdPc)
    requires Undone(home, s, k, own) && (j == k ==> pc == own)
    ensures Undone(home, ProgressStep(s, j, pc), k, own)
  {
  }

  lemma UndoneIdle(home: Home, s: Store, k: Key, pc: IdPc)
    requires Undone(home, s, k, pc)
    ensures Undone(home, s, k, Idle)
  {
  }

  lemma StrandedKept(home: Home, w: World, k: Key, a: Action)
    requires Stranded(home, w, k) && Benign(home, w, a) && StrictUndo(w, k, a)
    ensures Stranded(home, Do(w, a), k)
  {
    hide Outside, IdStep, PrStep, IsListing, ProgressStep, Quiet, Undone, KeyInv, WellFormed, ProvidersOk, PcOk, PrPcOk;
    InvKept(home, w, a);
    var w' := Do(w, a);
    var s, t, pc := w.store, w'.store, PcOf(w, k);
    match a
    case IdCall(j, io) =>
      if j == k {
        UndoneStep(home, w, k, io);
      } else {
        OtherQuiet(s, j, PcOf(w, j), io, k);
        UndoneQuiet(home, s, t, k, pc);
      }
    case ProviderCall(p, io, items, issuer) =>
      if w' != w {
        ProviderQuiet(s, p, PrPcOf(w, p), io, items, issuer, k);
        UndoneQuiet(home, s, t, k, pc);
      }
    case Progress(j) => UndoneProgress(home, s, j, PcOf(w, j), k, pc);
    case Crash => UndoneIdle(home, s, k, pc);
    case _ =>
      OutsideQuiet(s, a, k);
      UndoneQuiet(home, s, t, k, pc);
  }

  /** identity/azure/identity.go:428-430, identity/hashicorpvault/identity.go:88-91:
      whatever else happens, such an identity stays in the store for ever. */
  lemma {:induction false} StrandedForever(home: Home, w: World, k: Key, actions: seq<Action>)
    requires Stranded(home, w, k) && StrictRun(home, w, k, actions)
    ensures Held(Run(w, actions).store, k) && Run(w, actions).store.ids[k].deleting
    decreases |actions|
  {
    if actions != [] {
      StrandedKept(home, w, k, actions[0]);
      StrandedForever(home, Do(w, actions[0]), k, actions[1..]);
    }
  }

  /** A crash between the two calls of a clean deletion is enough to get there. */
  lemma CrashStrands(home: Home, w: World, k: Key, helper: Backend)
    requires Inv(home, w) && Held(w.store, k) && w.store.ids[k].deleting
    requires PcOf(w, k) == Undo(w.store.ids[k], helper) && Strict(helper)
    ensures Stranded(home, Run(w, [IdCall(k, OK), Crash]), k)
  {
    var w1 := Do(w, IdCall(k, OK));
    assert KeyInv(home, w, k);
    InvKept(home, w, IdCall(k, OK));
    assert KeyInv(home, w1, k);
    InvKept(home, w1, Crash);
    assert [IdCall(k, OK)] + [Crash] == [IdCall(k, OK), Crash] && [Crash] + [] == [Crash];
    Unfold(w, IdCall(k, OK), [Crash]);
    Unfold(w1, Crash, []);
  }

  // ---------------------------------------------------------------- recreated too early

  /** Nothing is lost, and what is new has a new UID. */
  predicate Grows(s: Store, t: Store) {
    && s.clock <= t.clock
    && (forall r :: r in s.deps ==> r in t.deps && t.deps[r] == s.deps[r])
    && (forall r :: r in t.deps ==> r in s.deps || t.deps[r].uid >= s.clock)
    && (forall k :: k in t.ids ==> k in s.ids && t.ids[k].uid == s.ids[k].uid)
  }

  lemma WriteGrows(s: Store, k: Key, sent: Identity)
    ensures Grows(s, GetOr(UpdateIdentity(s, k, sent), s))
    ensures Grows(s, GetOr(UpdateIdentityStatus(s, k, sent), s))
  {
  }

  lemma StepGrows(s: Store, k: Key, pc: IdPc, io: Io)
    ensures Grows(s, IdStep(s, k, pc, io).0)
  {
    hide UpdateIdentity, UpdateIdentityStatus, Stored, AfterRead;
    match pc
    case Release(c) => WriteGrows(s, k, ReleasedCopy(c));
    case Claim(c) => WriteGrows(s, k, ClaimedCopy(c));
    case Init(c, _) => WriteGrows(s, k, c.(phase := Reconciling));
    case Announce(c, helper) => WriteGrows(s, k, AnnouncedCopy(c, helper));
    case Tag(c, _) => WriteGrows(s, k, TaggedCopy(c));
    case Publish(c, meta) => WriteGrows(s, k, c.(metadata := meta));
    case _ =>
  }

  lemma GrowsOn(s: Store, t: Store, u: Store)
    requires Grows(s, t) && Grows(t, u)
    ensures Grows(s, u)
  {
  }

  lemma {:induction false} SettleGrows(s: Store, k: Key, pc: IdPc, meta: map<string, string>)
    ensures Grows(s, Settle(s, k, pc, meta))
    decreases Rank(pc)
  {
    hide Grows, IdStep;
    var io := Answer(s, k, pc, meta);
    var r := IdStep(s, k, pc, io);
    StepGrows(s, k, pc, io);
    if pc == Idle {
      ItselfGrows(s);
    } else {
      RankFalls(s, k, pc, io);
      SettleGrows(r.0, k, r.1, meta);
      GrowsOn(s, r.0, Settle(r.0, k, r.1, meta));
    }
  }

  lemma ItselfGrows(s: Store)
    ensures Grows(s, s)
  {
  }

  lemma DeadStaysDead(s: Store, t: Store, uid: nat)
    requires Grows(s, t) && !Alive(s, uid) && uid < s.clock
    ensures !Alive(t, uid)
  {
  }

  /** If an identity is created while its predecessor's account still waits to be
      collected, its Reconcile finds that account and publishes; then the collector
      takes the account away from under the published identity. */
  lemma EarlyRecreationLosesAccount(s: Store, k: Key, provider: string, b: Backend, meta: map<string, string>, uid: nat)
    requires k !in s.ids && Resolve(s, Key(k.ns, provider)) == Some(b) && Account(k.ns, "default") in s.deps
    requires MetaOf(b, meta) != map[] && k.name != "default"
    requires WriteOrder.AccountOf(k) in s.deps && s.deps[WriteOrder.AccountOf(k)].owner == Some(uid)
    requires uid < s.clock && !Alive(s, uid)
    ensures var s1 := Outside(s, UserCreate(k, provider, map[], {}));
      var t := Reconcile(Reconcile(s1, k, meta), k, meta);
      var u := Outside(t, Collect(WriteOrder.AccountOf(k)));
      && Goal(t, k, b, meta)
      && k in u.ids && u.ids[k].metadata != map[] && WriteOrder.AccountOf(k) !in u.deps
      && !WriteOrder.Published(u, k)
  {
    var s1 := Outside(s, UserCreate(k, provider, map[], {}));
    ResolveDepends(s, s1, Key(k.ns, provider));
    hide Resolve, Settle, IdStep, Grows, MetaOf, Alive;
    var s2 := Reconcile(s1, k, meta);
    var t := Reconcile(s2, k, meta);
    TwoCallsConverge(s1, k, b, meta);
    ReconcileGrows(s1, k, meta);
    ReconcileGrows(s2, k, meta);
    NewIsNotOld(s, k, s1, uid);
    DeadStaysDead(s1, s2, uid);
    GrowsOn(s1, s2, t);
    DeadStaysDead(s1, t, uid);
    AccountKept(s1, t, WriteOrder.AccountOf(k));
  }

  lemma ReconcileGrows(s: Store, k: Key, meta: map<string, string>)
    ensures Grows(s, Reconcile(s, k, meta))
  {
    hide Grows;
    var io := Io(false, true, meta);
    StepGrows(s, k, Idle, io);
    var r := IdStep(s, k, Idle, io);
    SettleGrows(r.0, k, r.1, meta);
    GrowsOn(s, r.0, Settle(r.0, k, r.1, meta));
  }

  lemma NewIsNotOld(s: Store, k: Key, t: Store, uid: nat)
    requires k !in s.ids && !Alive(s, uid) && uid < s.clock
    requires exists provider :: t == CreateIdentity(s, k, provider, map[], {})
    ensures !Alive(t, uid) && t.deps == s.deps && t.clock == s.clock + 1
  {
  }

  lemma AccountKept(s: Store, t: Store, ref: Ref)
    requires Grows(s, t) && ref in s.deps
    ensures ref in t.deps && t.deps[ref] == s.deps[ref]
  {
  }
}
