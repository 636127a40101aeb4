/** No external record is ever left behind: in every reachable state a record for
    an identity implies that the identity is in the store and still carries the
    operator's finalizer. */
module Safety {
  import opened Cluster
  import opened Protocol

  // ---------------------------------------------------------------- what a worker's copy is worth

  predicate Held(s: Store, k: Key) {
    k in s.ids && IDENTITY_FINALIZER in s.ids[k].finalizers
  }

  ghost predicate WellFormed(s: Store) {
    forall k :: k in s.ids ==>
      && s.ids[k].uid < s.clock && s.ids[k].rv < s.clock
      && (s.ids[k].deleting ==> s.ids[k].finalizers != {})
  }

  /** A copy read earlier: its version names its content, it has the finalizer
      exactly if the stored object still has it, and then they are one object. */
  predicate CopyOk(s: Store, k: Key, c: Identity) {
    && c.uid < s.clock && c.rv < s.clock
    && (k in s.ids && s.ids[k].rv == c.rv ==> s.ids[k] == c)
    && (IDENTITY_FINALIZER in c.finalizers <==> Held(s, k))
    && (Held(s, k) ==> s.ids[k].uid == c.uid)
    && (k in s.ids && s.ids[k].uid == c.uid ==> s.ids[k].provider == c.provider)
  }

  predicate PcOk(s: Store, k: Key, pc: IdPc) {
    match pc
    case Idle => true
    case Refetch(_) => true
    case Find(_, c) => CopyOk(s, k, c)
    case Init(c, _) => CopyOk(s, k, c)
    case Claim(c) => CopyOk(s, k, c)
    case Undo(c, _) => CopyOk(s, k, c)
    case Release(c) => CopyOk(s, k, c) && IDENTITY_FINALIZER in c.finalizers
    case Announce(c, _) => CopyOk(s, k, c) && IDENTITY_FINALIZER in c.finalizers
    case Ensure(_, _, c, _, _) => CopyOk(s, k, c) && IDENTITY_FINALIZER in c.finalizers
    case Enroll(c, _) => CopyOk(s, k, c) && IDENTITY_FINALIZER in c.finalizers
    case Tag(c, _) => CopyOk(s, k, c) && IDENTITY_FINALIZER in c.finalizers
    case Publish(c, _) => CopyOk(s, k, c) && IDENTITY_FINALIZER in c.finalizers
  }

  predicate PCopyOk(s: Store, p: ProviderKey, c: Provider) {
    c.rv < s.clock && (p in s.providers && s.providers[p].rv == c.rv ==> s.providers[p] == c)
  }

  predicate PrPcOk(s: Store, p: ProviderKey, pc: PrPc) {
    match pc
    case PIdle => true
    case PRefetch => true
    case PList(c) => PCopyOk(s, p, c)
    case PDelete(c, _, _) => PCopyOk(s, p, c)
    case PCheck(c, _, _) => PCopyOk(s, p, c)
    case PRelease(c, _) => PCopyOk(s, p, c)
    case PInit(c) => PCopyOk(s, p, c)
    case PClaim(c) => PCopyOk(s, p, c)
    case PAnnounce(c) => PCopyOk(s, p, c)
  }

  ghost predicate ProvidersOk(s: Store) {
    forall p :: p in s.providers ==> s.providers[p].rv < s.clock
  }

  ghost predicate Base(w: World) {
    && WellFormed(w.store) && ProvidersOk(w.store)
    && (forall k :: PcOk(w.store, k, PcOf(w, k)))
    && (forall p :: PrPcOk(w.store, p, PrPcOf(w, p)))
  }

  /** Hypotheses on single steps: only the operator edits its finalizer, and
      nobody edits spec.provider. */
  predicate FinalizerDiscipline(s: Store, a: Action) {
    match a
    case UserCreate(_, _, _, finalizers) => IDENTITY_FINALIZER !in finalizers
    case UserEdit(k, provider, _, finalizers) =>
      k in s.ids ==>
        && provider == s.ids[k].provider
        && (IDENTITY_FINALIZER in finalizers <==> IDENTITY_FINALIZER in s.ids[k].finalizers)
    case _ => true
  }

  /** What a step of anybody but the worker of `k` may do to the object at `k`. */
  predicate Quiet(s: Store, t: Store, k: Key) {
    && s.clock <= t.clock
    && (Held(t, k) <==> Held(s, k))
    && (Held(s, k) ==> t.ids[k].uid == s.ids[k].uid)
    && (k in s.ids && k in t.ids && t.ids[k].uid == s.ids[k].uid && s.ids[k].deleting ==> t.ids[k].deleting)
    && (k in t.ids ==> (k in s.ids && t.ids[k] == s.ids[k]) || t.ids[k].rv >= s.clock)
    && (k in t.ids ==>
         || (k in s.ids && t.ids[k].uid == s.ids[k].uid && t.ids[k].provider == s.ids[k].provider)
         || t.ids[k].uid >= s.clock)
  }

  lemma QuietKeepsPc(s: Store, t: Store, k: Key, pc: IdPc)
    requires Quiet(s, t, k) && PcOk(s, k, pc)
    ensures PcOk(t, k, pc)
  {
  }

  /** A write that respects the finalizer discipline, seen from any key. */
  lemma PutQuiet(s: Store, j: Key, obj: Identity, k: Key)
    requires WellFormed(s) && j in s.ids && obj.uid == s.ids[j].uid
    requires j != k || (obj.provider == s.ids[j].provider
                        && (IDENTITY_FINALIZER in obj.finalizers <==> IDENTITY_FINALIZER in s.ids[j].finalizers))
    requires obj.rv == s.ids[j].rv && (s.ids[j].deleting ==> obj.deleting)
    ensures var t := PutIdentity(s, j, obj);
      Quiet(s, t, k) && WellFormed(t) && t.ext == s.ext && t.providers == s.providers
  {
  }

  lemma DeleteQuiet(s: Store, j: Key, k: Key)
    requires WellFormed(s)
    ensures var t := GetOr(DeleteIdentity(s, j), s);
      Quiet(s, t, k) && WellFormed(t) && t.ext == s.ext && t.providers == s.providers
  {
    if j in s.ids { PutQuiet(s, j, s.ids[j].(deleting := true), k); }
  }

  /** The store after an update is unchanged, or the result of one accepted write. */
  lemma UpdateQuiet(s: Store, j: Key, sent: Identity, k: Key)
    requires WellFormed(s)
    requires j != k || (j in s.ids && sent.provider == s.ids[j].provider
                        && (IDENTITY_FINALIZER in sent.finalizers <==> IDENTITY_FINALIZER in s.ids[j].finalizers))
    ensures var t := GetOr(UpdateIdentity(s, j, sent), s);
      Quiet(s, t, k) && WellFormed(t) && t.ext == s.ext && t.providers == s.providers
    ensures var t := GetOr(UpdateIdentityStatus(s, j, sent), s);
      Quiet(s, t, k) && WellFormed(t) && t.ext == s.ext && t.providers == s.providers
  {
    hide PutIdentity;
    if Current(s, j, sent) {
      PutQuiet(s, j, s.ids[j].(finalizers := sent.finalizers, labels := sent.labels, provider := sent.provider), k);
      PutQuiet(s, j, s.ids[j].(phase := sent.phase, statusProvider := sent.statusProvider, metadata := sent.metadata), k);
    }
  }

  lemma OutsideQuiet(s: Store, a: Action, k: Key)
    requires WellFormed(s) && FinalizerDiscipline(s, a)
    ensures Quiet(s, Outside(s, a), k) && WellFormed(Outside(s, a))
    ensures Outside(s, a).ext == s.ext
  {
    hide UpdateIdentity, UpdateIdentityStatus, DeleteIdentity, WellFormed, Quiet, CreateIdentity, CreateDep, Held;
    match a
    case UserCreate(j, provider, labels, finalizers) =>
      if j in s.ids { SameIdsQuiet(s, s, k); } else { CreateQuiet(s, j, provider, labels, finalizers, k); }
    case UserEdit(j, provider, labels, finalizers) =>
      if j in s.ids {
        UpdateQuiet(s, j, s.ids[j].(provider := provider, labels := labels, finalizers := finalizers), k);
      } else {
        SameIdsQuiet(s, s, k);
      }
    case UserStatus(j, phase, statusProvider, metadata) =>
      if j in s.ids {
        UpdateQuiet(s, j, s.ids[j].(phase := phase, statusProvider := statusProvider, metadata := metadata), k);
      } else {
        SameIdsQuiet(s, s, k);
      }
    case UserDelete(j) => DeleteQuiet(s, j, k);
    case _ =>
      OutsideAside(s, a);
      LaterQuiet(s, Outside(s, a), k);
  }

  lemma CreateQuiet(s: Store, j: Key, provider: string, labels: map<string, string>, finalizers: set<string>, k: Key)
    requires WellFormed(s) && j !in s.ids && IDENTITY_FINALIZER !in finalizers
    ensures var t := CreateIdentity(s, j, provider, labels, finalizers); Quiet(s, t, k) && WellFormed(t) && t.ext == s.ext
  {
  }

  lemma OutsideAside(s: Store, a: Action)
    requires !a.UserCreate? && !a.UserEdit? && !a.UserStatus? && !a.UserDelete?
    ensures var t := Outside(s, a); t.ids == s.ids && t.ext == s.ext && s.clock <= t.clock
  {
  }

  lemma LaterQuiet(s: Store, t: Store, k: Key)
    requires t.ids == s.ids && s.clock <= t.clock && WellFormed(s)
    ensures Quiet(s, t, k) && WellFormed(t)
  {
  }

  lemma ProviderWrites(s: Store, p: ProviderKey, obj: Provider)
    ensures var t := GetOr(UpdateProvider(s, p, obj), s); s.clock <= t.clock && t.ids == s.ids && t.ext == s.ext
    ensures var t := GetOr(UpdateProviderStatus(s, p, obj), s); s.clock <= t.clock && t.ids == s.ids && t.ext == s.ext
  {
  }

  /** A provider's step touches identities only to delete one. */
  lemma ProviderQuiet(s: Store, p: ProviderKey, pc: PrPc, io: Io, items: seq<Key>, issuer: string, k: Key)
    requires WellFormed(s)
    ensures var t := PrStep(s, p, pc, io, items, issuer).0; Quiet(s, t, k) && WellFormed(t) && t.ext == s.ext
  {
    hide UpdateProvider, UpdateProviderStatus, DeleteIdentity;
    match pc
    case PDelete(c, list, i) => if i < |list| { DeleteQuiet(s, list[i], k); }
    case PRelease(c, _) => ProviderWrites(s, p, c.(finalizers := c.finalizers - {PROVIDER_FINALIZER}));
    case PInit(c) => ProviderWrites(s, p, c.(phase := Reconciling));
    case PClaim(c) => ProviderWrites(s, p, c.(finalizers := c.finalizers + {PROVIDER_FINALIZER}));
    case PAnnounce(c) =>
      ProviderWrites(s, p, c.(phase := Reconciled, issuer := if p.kind.Kubernetes? then issuer else c.issuer));
    case _ =>
  }

  lemma OtherQuiet(s: Store, j: Key, pc: IdPc, io: Io, k: Key)
    requires WellFormed(s) && j != k
    ensures var t := IdStep(s, j, pc, io).0; Quiet(s, t, k) && WellFormed(t) && t.providers == s.providers
    ensures forall b :: Record(b, k) in IdStep(s, j, pc, io).0.ext <==> Record(b, k) in s.ext
  {
    hide UpdateIdentity, UpdateIdentityStatus, Stored;
    match pc
    case Release(c) => UpdateQuiet(s, j, ReleasedCopy(c), k);
    case Claim(c) => UpdateQuiet(s, j, ClaimedCopy(c), k);
    case Init(c, _) => UpdateQuiet(s, j, c.(phase := Reconciling), k);
    case Announce(c, helper) => UpdateQuiet(s, j, AnnouncedCopy(c, helper), k);
    case Tag(c, _) => UpdateQuiet(s, j, TaggedCopy(c), k);
    case Publish(c, meta) => UpdateQuiet(s, j, c.(metadata := meta), k);
    case _ =>
  }

  /** An accepted write hands back a copy as good as a fresh read. */
  lemma WriteKeepsCopy(s: Store, k: Key, c: Identity, sent: Identity, answer: Option<Store>)
    requires WellFormed(s) && CopyOk(s, k, c) && IDENTITY_FINALIZER in c.finalizers
    requires sent.uid == c.uid && sent.rv == c.rv && sent.finalizers == c.finalizers && sent.provider == c.provider
    requires answer == UpdateIdentity(s, k, sent) || answer == UpdateIdentityStatus(s, k, sent)
    requires answer.Some?
    ensures CopyOk(answer.value, k, Stored(answer, k, sent)) && IDENTITY_FINALIZER in Stored(answer, k, sent).finalizers
    ensures Stored(answer, k, sent).uid == c.uid && Stored(answer, k, sent).provider == c.provider
  {
  }

  lemma NextCopy(s: Store, k: Key, kind: Kind, c: Identity, reply: Reply<Provider>)
    requires CopyOk(s, k, c)
    ensures PcOk(s, k, AfterRead(kind, c, reply))
  {
  }

  lemma OwnStep(s: Store, k: Key, pc: IdPc, io: Io)
    requires WellFormed(s) && PcOk(s, k, pc)
    ensures PcOk(IdStep(s, k, pc, io).0, k, IdStep(s, k, pc, io).1)
  {
    hide UpdateIdentity, UpdateIdentityStatus, Stored;
    match pc
    case Announce(c, helper) =>
      var sent := AnnouncedCopy(c, helper);
      var answer := UpdateIdentityStatus(s, k, sent);
      if answer.Some? { WriteKeepsCopy(s, k, c, sent, answer); }
    case Tag(c, _) =>
      var sent := TaggedCopy(c);
      var answer := UpdateIdentity(s, k, sent);
      if answer.Some? { WriteKeepsCopy(s, k, c, sent, answer); }
    case Find(kind, c) => NextCopy(s, k, kind, c, ReadProvider(s, ProviderKey(kind, Key(k.ns, c.provider)), io));
    case _ =>
  }

  predicate PcQuiet(s: Store, t: Store, p: ProviderKey) {
    && s.clock <= t.clock
    && (p in t.providers ==> (p in s.providers && t.providers[p] == s.providers[p]) || t.providers[p].rv >= s.clock)
  }

  lemma ProviderWriteOk(s: Store, p: ProviderKey, sent: Provider, q: ProviderKey)
    requires ProvidersOk(s)
    ensures var t := GetOr(UpdateProvider(s, p, sent), s); ProvidersOk(t) && PcQuiet(s, t, q)
    ensures var t := GetOr(UpdateProviderStatus(s, p, sent), s); ProvidersOk(t) && PcQuiet(s, t, q)
  {
  }

  lemma ProviderStepOk(s: Store, p: ProviderKey, pc: PrPc, io: Io, items: seq<Key>, issuer: string, q: ProviderKey)
    requires ProvidersOk(s)
    ensures var t := PrStep(s, p, pc, io, items, issuer).0; ProvidersOk(t) && PcQuiet(s, t, q)
  {
    hide UpdateProvider, UpdateProviderStatus;
    match pc
    case PRelease(c, _) => ProviderWriteOk(s, p, c.(finalizers := c.finalizers - {PROVIDER_FINALIZER}), q);
    case PInit(c) => ProviderWriteOk(s, p, c.(phase := Reconciling), q);
    case PClaim(c) => ProviderWriteOk(s, p, c.(finalizers := c.finalizers + {PROVIDER_FINALIZER}), q);
    case PAnnounce(c) =>
      ProviderWriteOk(s, p, c.(phase := Reconciled, issuer := if p.kind.Kubernetes? then issuer else c.issuer), q);
    case _ =>
  }

  lemma ProviderCopyOk(s: Store, p: ProviderKey, pc: PrPc, io: Io, items: seq<Key>, issuer: string)
    requires ProvidersOk(s) && PrPcOk(s, p, pc)
    ensures var r := PrStep(s, p, pc, io, items, issuer); PrPcOk(r.0, p, r.1)
  {
  }

  lemma OutsideProviders(s: Store, a: Action, q: ProviderKey)
    requires ProvidersOk(s)
    ensures ProvidersOk(Outside(s, a)) && PcQuiet(s, Outside(s, a), q)
  {
  }

  /** Base is kept by every step that respects the finalizer discipline. */
  lemma BaseKept(w: World, a: Action)
    requires Base(w) && FinalizerDiscipline(w.store, a)
    ensures Base(Do(w, a))
  {
    hide Outside, IdStep, PrStep, PcOk, PrPcOk, Quiet, PcQuiet, IsListing;
    var w' := Do(w, a);
    var s, t := w.store, w'.store;
    match a
    case IdCall(j, io) =>
      OwnStep(s, j, PcOf(w, j), io);
      StepKeepsStore(s, j, PcOf(w, j), io);
      forall k | k != j ensures PcOk(t, k, PcOf(w', k)) {
        OtherQuiet(s, j, PcOf(w, j), io, k);
        QuietKeepsPc(s, t, k, PcOf(w, k));
      }
      forall p ensures PrPcOk(t, p, PrPcOf(w', p)) {
        ProvidersKeptPc(s, t, p, PrPcOf(w, p));
      }
    case ProviderCall(p, io, items, issuer) =>
      if w' != w {
        ProviderCopyOk(s, p, PrPcOf(w, p), io, items, issuer);
        forall k ensures WellFormed(t) && PcOk(t, k, PcOf(w', k)) {
          ProviderQuiet(s, p, PrPcOf(w, p), io, items, issuer, k);
          QuietKeepsPc(s, t, k, PcOf(w, k));
        }
        forall q | q != p ensures PrPcOk(t, q, PrPcOf(w', q)) {
          ProviderStepOk(s, p, PrPcOf(w, p), io, items, issuer, q);
          PcQuietKeeps(s, t, q, PrPcOf(w, q));
        }
        ProviderStepOk(s, p, PrPcOf(w, p), io, items, issuer, p);
        var k0: Key := p.key;
        assert PcOk(t, k0, PcOf(w', k0));
      }
    case Progress(j) =>
      ProgressQuiet(s, j, PcOf(w, j));
      forall k ensures PcOk(t, k, PcOf(w', k)) { SameIdsKeepPc(s, t, k, PcOf(w, k)); }
      forall p ensures PrPcOk(t, p, PrPcOf(w', p)) { ProvidersKeptPc(s, t, p, PrPcOf(w, p)); }
    case Crash =>
      forall k ensures PcOk(t, k, PcOf(w', k)) { IdleOk(t, k); }
      forall p ensures PrPcOk(t, p, PrPcOf(w', p)) { PIdleOk(t, p); }
    case _ =>
      forall k ensures WellFormed(t) && PcOk(t, k, PcOf(w', k)) {
        OutsideQuiet(s, a, k);
        QuietKeepsPc(s, t, k, PcOf(w, k));
      }
      forall p ensures ProvidersOk(t) && PrPcOk(t, p, PrPcOf(w', p)) {
        OutsideProviders(s, a, p);
        PcQuietKeeps(s, t, p, PrPcOf(w, p));
      }
      var k0 := Key("", "");
      assert PcOk(t, k0, PcOf(w', k0));
      var p0 := ProviderKey(Vault, k0);
      assert PrPcOk(t, p0, PrPcOf(w', p0));
  }

  lemma StepKeepsStore(s: Store, k: Key, pc: IdPc, io: Io)
    requires WellFormed(s)
    ensures WellFormed(IdStep(s, k, pc, io).0)
    ensures IdStep(s, k, pc, io).0.providers == s.providers && s.clock <= IdStep(s, k, pc, io).0.clock
  {
    hide PutIdentity, UpdateIdentity, UpdateIdentityStatus;
    match pc
    case Release(c) => WriteKeepsStore(s, k, ReleasedCopy(c));
    case Claim(c) => WriteKeepsStore(s, k, ClaimedCopy(c));
    case Init(c, _) => WriteKeepsStore(s, k, c.(phase := Reconciling));
    case Announce(c, helper) => WriteKeepsStore(s, k, AnnouncedCopy(c, helper));
    case Tag(c, _) => WriteKeepsStore(s, k, TaggedCopy(c));
    case Publish(c, meta) => WriteKeepsStore(s, k, c.(metadata := meta));
    case _ =>
  }

  lemma WriteKeepsStore(s: Store, k: Key, sent: Identity)
    requires WellFormed(s)
    ensures var t := GetOr(UpdateIdentity(s, k, sent), s); WellFormed(t) && t.providers == s.providers && s.clock <= t.clock
    ensures var t := GetOr(UpdateIdentityStatus(s, k, sent), s); WellFormed(t) && t.providers == s.providers && s.clock <= t.clock
  {
  }

  lemma ProvidersKeptPc(s: Store, t: Store, p: ProviderKey, pc: PrPc)
    requires t.providers == s.providers && s.clock <= t.clock && PrPcOk(s, p, pc)
    ensures PrPcOk(t, p, pc)
  {
  }

  lemma PcQuietKeeps(s: Store, t: Store, p: ProviderKey, pc: PrPc)
    requires PcQuiet(s, t, p) && PrPcOk(s, p, pc)
    ensures PrPcOk(t, p, pc)
  {
  }

  lemma SameIdsKeepPc(s: Store, t: Store, k: Key, pc: IdPc)
    requires t.ids == s.ids && s.clock == t.clock && PcOk(s, k, pc)
    ensures PcOk(t, k, pc)
  {
  }

  lemma ProgressQuiet(s: Store, k: Key, pc: IdPc)
    ensures var t := ProgressStep(s, k, pc); t.ids == s.ids && t.clock == s.clock && t.providers == s.providers && t.deps == s.deps
    ensures forall b, j :: j != k ==> (Record(b, j) in ProgressStep(s, k, pc).ext <==> Record(b, j) in s.ext)
  {
  }

  lemma IdleOk(s: Store, k: Key)
    ensures PcOk(s, k, Idle)
  {
  }

  lemma PIdleOk(s: Store, p: ProviderKey)
    ensures PrPcOk(s, p, PIdle)
  {
  }

  // ---------------------------------------------------------------- records

  /** The one backend that a provider name resolves to during the run. */
  type Home = Key -> Backend

  function HomeOf(home: Home, k: Key, o: Identity): Backend {
    home(Key(k.ns, o.provider))
  }

  /** Every record of `k` is at its provider, and `k` holds the finalizer. */
  ghost predicate Covered(home: Home, s: Store, k: Key) {
    forall b :: Record(b, k) in s.ext ==> Held(s, k) && b == HomeOf(home, k, s.ids[k])
  }

  ghost predicate HelperOk(home: Home, s: Store, k: Key, pc: IdPc) {
    match pc
    case Undo(c, helper) => helper == HomeOf(home, k, c)
    case Release(c) => forall b :: Record(b, k) !in s.ext
    case Init(c, helper) => helper == HomeOf(home, k, c)
    case Refetch(helper) => Held(s, k) ==> helper == HomeOf(home, k, s.ids[k])
    case Announce(c, helper) => helper == HomeOf(home, k, c)
    case Ensure(_, _, c, helper, _) => helper == HomeOf(home, k, c)
    case Enroll(c, helper) => helper == HomeOf(home, k, c)
    case _ => true
  }

  ghost predicate KeyInv(home: Home, w: World, k: Key) {
    Covered(home, w.store, k) && HelperOk(home, w.store, k, PcOf(w, k))
  }

  ghost predicate Inv(home: Home, w: World) {
    Base(w) && forall k :: KeyInv(home, w, k)
  }

  /** A read of findProvider that finds something finds the home of the name, and
      the KubernetesProvider read does not fail. */
  predicate FindsHome(home: Home, s: Store, k: Key, pc: IdPc, io: Io) {
    pc.Find? ==>
      var reply := ReadProvider(s, ProviderKey(pc.kind, Key(k.ns, pc.copy.provider)), io);
      && (reply.Found? ==> BackendOf(pc.kind, reply.value) == HomeOf(home, k, pc.copy))
      && (reply.Failed? ==> !pc.kind.Kubernetes?)
  }

  /** The hypotheses of the safety theorem, step by step: the operator alone edits
      its finalizer, spec.provider is not edited, and every lookup that ends with a
      provider ends with the same one.  Everything else, including every other
      fault, lost reply, crash, conflict and deletion, is allowed. */
  predicate Benign(home: Home, w: World, a: Action) {
    FinalizerDiscipline(w.store, a) && (a.IdCall? ==> FindsHome(home, w.store, a.k, PcOf(w, a.k), a.io))
  }

  ghost predicate BenignRun(home: Home, w: World, actions: seq<Action>)
    decreases |actions|
  {
    actions == [] || (Benign(home, w, actions[0]) && BenignRun(home, Do(w, actions[0]), actions[1..]))
  }

  lemma QuietKeepsCover(home: Home, s: Store, t: Store, k: Key, pc: IdPc)
    requires Quiet(s, t, k) && WellFormed(s) && PcOk(s, k, pc)
    requires forall b :: Record(b, k) in t.ext <==> Record(b, k) in s.ext
    requires Covered(home, s, k) && HelperOk(home, s, k, pc)
    ensures Covered(home, t, k) && HelperOk(home, t, k, pc)
  {
  }

  lemma AfterReadHelper(home: Home, s: Store, k: Key, kind: Kind, c: Identity, io: Io)
    requires CopyOk(s, k, c) && FindsHome(home, s, k, Find(kind, c), io)
    ensures HelperOk(home, s, k, AfterRead(kind, c, ReadProvider(s, ProviderKey(kind, Key(k.ns, c.provider)), io)))
  {
  }

  /** A write of the worker that keeps the finalizer leaves its records covered. */
  lemma WriteKeepsCover(home: Home, s: Store, k: Key, sent: Identity)
    requires WellFormed(s) && Covered(home, s, k)
    requires k in s.ids ==> sent.provider == s.ids[k].provider || !Current(s, k, sent)
    requires Held(s, k) ==> IDENTITY_FINALIZER in sent.finalizers
    ensures Covered(home, GetOr(UpdateIdentity(s, k, sent), s), k)
    ensures Covered(home, GetOr(UpdateIdentityStatus(s, k, sent), s), k)
  {
  }

  lemma OwnStepCovered(home: Home, s: Store, k: Key, pc: IdPc, io: Io)
    requires WellFormed(s) && PcOk(s, k, pc) && FindsHome(home, s, k, pc, io)
    requires Covered(home, s, k) && HelperOk(home, s, k, pc)
    ensures var r := IdStep(s, k, pc, io); Covered(home, r.0, k) && HelperOk(home, r.0, k, r.1)
  {
    hide EnsureStep, AfterRead;
    if pc.Ensure? { EnsureRecords(home, s, k, pc.stage, pc.missing, pc.copy, pc.helper, pc.account, io); }
    match pc
    case Find(kind, c) => AfterReadHelper(home, s, k, kind, c, io);
    case Init(c, _) => WriteKeepsCover(home, s, k, c.(phase := Reconciling));
    case Claim(c) => WriteKeepsCover(home, s, k, ClaimedCopy(c));
    case Announce(c, helper) => WriteKeepsCover(home, s, k, AnnouncedCopy(c, helper));
    case Tag(c, _) => WriteKeepsCover(home, s, k, TaggedCopy(c));
    case Publish(c, meta) => WriteKeepsCover(home, s, k, c.(metadata := meta));
    case _ =>
  }

  lemma EnsureRecords(home: Home, s: Store, k: Key, stage: Stage, missing: bool, c: Identity, helper: Backend, account: nat, io: Io)
    requires Covered(home, s, k) && helper == HomeOf(home, k, c)
    ensures var r := EnsureStep(s, k, stage, missing, c, helper, account, io);
      Covered(home, r.0, k) && HelperOk(home, r.0, k, r.1)
  {
  }

  lemma DeleteKeepsProviders(s: Store)
    ensures forall k :: GetOr(DeleteIdentity(s, k), s).providers == s.providers
  {
  }

  lemma CrashKeeps(home: Home, s: Store, k: Key)
    ensures HelperOk(home, s, k, Idle)
  {
  }

  lemma UndoProgress(home: Home, s: Store, k: Key, pc: IdPc)
    requires PcOk(s, k, pc) && Covered(home, s, k) && HelperOk(home, s, k, pc)
    ensures Covered(home, ProgressStep(s, k, pc), k) && HelperOk(home, ProgressStep(s, k, pc), k, pc)
  {
  }

  lemma InvKept(home: Home, w: World, a: Action)
    requires Inv(home, w) && Benign(home, w, a)
    ensures Inv(home, Do(w, a))
  {
    BaseKept(w, a);
    var w' := Do(w, a);
    var s, t := w.store, w'.store;
    hide Outside, IdStep, PrStep, PcOk, PrPcOk, Quiet, IsListing, Covered, HelperOk, WellFormed, ProvidersOk, ProgressStep, FindsHome;
    forall k ensures KeyInv(home, w', k) {
      assert KeyInv(home, w, k) && PcOk(s, k, PcOf(w, k));
      match a
      case IdCall(j, io) =>
        if j == k {
          OwnStepCovered(home, s, k, PcOf(w, k), io);
        } else {
          OtherQuiet(s, j, PcOf(w, j), io, k);
          QuietKeepsCover(home, s, t, k, PcOf(w, k));
        }
      case ProviderCall(p, io, items, issuer) =>
        if w' != w {
          ProviderQuiet(s, p, PrPcOf(w, p), io, items, issuer, k);
          QuietKeepsCover(home, s, t, k, PcOf(w, k));
        }
      case Progress(j) =>
        if j == k {
          UndoProgress(home, s, k, PcOf(w, k));
        } else {
          ProgressQuiet(s, j, PcOf(w, j));
          SameIdsQuiet(s, t, k);
          QuietKeepsCover(home, s, t, k, PcOf(w, k));
        }
      case Crash => CrashKeeps(home, s, k);
      case _ =>
        OutsideQuiet(s, a, k);
        QuietKeepsCover(home, s, t, k, PcOf(w, k));
    }
  }

  lemma SameIdsQuiet(s: Store, t: Store, k: Key)
    requires t.ids == s.ids && t.clock == s.clock
    ensures Quiet(s, t, k)
  {
  }

  /** Over every run of benign steps the invariant holds at the end, so no record
      is left without an identity that still owes its deletion. */
  lemma {:induction false} RecordImpliesFinalizer(home: Home, w: World, actions: seq<Action>)
    requires Inv(home, w) && BenignRun(home, w, actions)
    ensures Inv(home, Run(w, actions))
    ensures forall r :: r in Run(w, actions).store.ext ==>
      && Held(Run(w, actions).store, r.key)
      && r.backend == HomeOf(home, r.key, Run(w, actions).store.ids[r.key])
    decreases |actions|
  {
    if actions == [] {
      forall r | r in w.store.ext
        ensures Held(w.store, r.key) && r.backend == HomeOf(home, r.key, w.store.ids[r.key])
      {
        assert KeyInv(home, w, r.key);
        assert r == Record(r.backend, r.key);
      }
    } else {
      InvKept(home, w, actions[0]);
      RecordImpliesFinalizer(home, Do(w, actions[0]), actions[1..]);
    }
  }

  /** A cluster the operator has not touched yet satisfies the invariant. */
  lemma FreshStart(home: Home, w: World)
    requires WellFormed(w.store) && ProvidersOk(w.store)
    requires w.workers == map[] && w.reconcilers == map[] && w.store.ext == {}
    ensures Inv(home, w)
  {
  }

  /** The Kubernetes helper keeps no records: no call of a worker makes one for it. */
  lemma NoKubernetesRecords(s: Store, k: Key, pc: IdPc, io: Io)
    ensures forall r :: r in IdStep(s, k, pc, io).0.ext && r.backend.kind.Kubernetes? ==> r in s.ext
    ensures forall r :: r in ProgressStep(s, k, pc).ext && r.backend.kind.Kubernetes? ==> r in s.ext
  {
    hide EnsureStep, UpdateIdentity, UpdateIdentityStatus, Stored, AfterRead;
    match pc
    case Release(c) => WriteRecords(s, k, ReleasedCopy(c));
    case Claim(c) => WriteRecords(s, k, ClaimedCopy(c));
    case Init(c, _) => WriteRecords(s, k, c.(phase := Reconciling));
    case Announce(c, helper) => WriteRecords(s, k, AnnouncedCopy(c, helper));
    case Tag(c, _) => WriteRecords(s, k, TaggedCopy(c));
    case Publish(c, meta) => WriteRecords(s, k, c.(metadata := meta));
    case Ensure(stage, missing, c, helper, account) => EnsureKeepsRecords(s, k, stage, missing, c, helper, account, io);
    case _ =>
  }

  lemma WriteRecords(s: Store, k: Key, sent: Identity)
    ensures GetOr(UpdateIdentity(s, k, sent), s).ext == s.ext && GetOr(UpdateIdentityStatus(s, k, sent), s).ext == s.ext
  {
  }

  lemma EnsureKeepsRecords(s: Store, k: Key, stage: Stage, missing: bool, c: Identity, helper: Backend, account: nat, io: Io)
    ensures EnsureStep(s, k, stage, missing, c, helper, account, io).0.ext == s.ext
  {
  }
}
