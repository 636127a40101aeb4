/** The controllers as state machines that make one API call per step.

    A worker's program counter holds the local variables that are still live at
    that point of Reconcile.  Each step takes an Io: whether the call fails and,
    if it does, whether the server applied it anyway (a lost reply). */
module Protocol {
  import opened Cluster

  datatype Io = Io(fault: bool, applied: bool, meta: map<string, string>) {
    predicate Effect() { !fault || applied }
  }

  const OK := Io(false, true, map[])

  // ---------------------------------------------------------------- the identity controller

  /** The get-or-create calls between the status update and CreateIdentity. */
  datatype Stage = MakeAccount
                 | ReadDefault | DefaultRole | DefaultBinding
                 | ReadOwn | OwnRole | OwnBinding

  datatype IdPc =
    | Idle
    | Find(kind: Kind, copy: Identity)
    | Undo(copy: Identity, helper: Backend)
    | Release(copy: Identity)
    | Init(copy: Identity, helper: Backend)
    | Refetch(helper: Backend)
    | Claim(copy: Identity)
    | Announce(copy: Identity, helper: Backend)
    | Ensure(stage: Stage, missing: bool, copy: Identity, helper: Backend, account: nat)
    | Enroll(copy: Identity, helper: Backend)
    | Tag(copy: Identity, meta: map<string, string>)
    | Publish(copy: Identity, meta: map<string, string>)

  function Admit(copy: Identity, helper: Backend): IdPc {
    if IDENTITY_FINALIZER !in copy.finalizers then Claim(copy) else Announce(copy, helper)
  }

  function Dispatch(copy: Identity, helper: Backend): IdPc {
    if copy.deleting then Undo(copy, helper)
    else if copy.phase.Unset? then Init(copy, helper)
    else Admit(copy, helper)
  }

  function ReadProvider(s: Store, p: ProviderKey, io: Io): Reply<Provider> {
    if io.fault then Failed else if p in s.providers then Found(s.providers[p]) else NotFound
  }

  /** One read of findProvider.  Only a NotFound moves on to the next kind; the
      KubernetesProvider read takes every other outcome as a hit. */
  function AfterRead(kind: Kind, copy: Identity, reply: Reply<Provider>): IdPc {
    match kind
    case Vault =>
      if reply.Found? then Dispatch(copy, BackendOf(Vault, reply.value))
      else if reply.NotFound? then Find(Azure, copy) else Idle
    case Azure =>
      if reply.Found? then Dispatch(copy, BackendOf(Azure, reply.value))
      else if reply.NotFound? then Find(Kubernetes, copy) else Idle
    case Kubernetes =>
      if reply.NotFound? then Find(Aws, copy) else Dispatch(copy, Backend(Kubernetes, ""))
    case Aws =>
      if reply.Found? then Dispatch(copy, BackendOf(Aws, reply.value)) else Idle
  }

  function Target(k: Key, stage: Stage): Ref {
    match stage
    case MakeAccount => Account(k.ns, k.name)
    case ReadDefault => Account(k.ns, "default")
    case DefaultRole => Role(k.ns)
    case DefaultBinding => Binding(k.ns, "default")
    case ReadOwn => Account(k.ns, k.name)
    case OwnRole => Role(k.ns)
    case OwnBinding => Binding(k.ns, k.name)
  }

  predicate ReadOnly(stage: Stage) {
    stage.ReadDefault? || stage.ReadOwn?
  }

  function OwnerAt(stage: Stage, copy: Identity, account: nat): Option<nat> {
    match stage
    case MakeAccount => Some(copy.uid)
    case DefaultBinding => None
    case _ => Some(account)
  }

  function ContentAt(k: Key, stage: Stage): Content {
    match stage
    case DefaultRole => PolicyReader
    case OwnRole => PolicyReader
    case DefaultBinding => Bind("default", ROLE_NAME)
    case OwnBinding => Bind(k.name, ROLE_NAME)
    case _ => Plain
  }

  function Advance(stage: Stage, copy: Identity, helper: Backend, account: nat): IdPc {
    match stage
    case MakeAccount => Ensure(ReadDefault, false, copy, helper, 0)
    case ReadDefault => Ensure(DefaultRole, false, copy, helper, account)
    case DefaultRole => Ensure(DefaultBinding, false, copy, helper, account)
    case DefaultBinding => Ensure(ReadOwn, false, copy, helper, 0)
    case ReadOwn => Ensure(OwnRole, false, copy, helper, account)
    case OwnRole => Ensure(OwnBinding, false, copy, helper, account)
    case OwnBinding => Enroll(copy, helper)
  }

  /** A write: the server's answer (None is a rejection), and the pc after an
      acknowledged success. */
  function After(s: Store, answer: Option<Store>, io: Io, next: IdPc): (Store, IdPc) {
    if answer.None? then (s, Idle)
    else (if io.Effect() then answer.value else s, if io.fault then Idle else next)
  }

  function ClaimedCopy(copy: Identity): Identity {
    copy.(finalizers := copy.finalizers + {IDENTITY_FINALIZER})
  }

  function ReleasedCopy(copy: Identity): Identity {
    copy.(finalizers := copy.finalizers - {IDENTITY_FINALIZER})
  }

  function AnnouncedCopy(copy: Identity, helper: Backend): Identity {
    copy.(phase := Reconciled, statusProvider := KindName(helper.kind))
  }

  function TaggedCopy(copy: Identity): Identity {
    copy.(labels := map[PROVIDER_LABEL := copy.provider])
  }

  /** The object as an accepted write returns it. */
  function Stored(s: Option<Store>, k: Key, sent: Identity): Identity {
    if s.Some? && k in s.value.ids then s.value.ids[k] else sent
  }

  function EnsureStep(s: Store, k: Key, stage: Stage, missing: bool, copy: Identity, helper: Backend, account: nat, io: Io): (Store, IdPc) {
    var target := Target(k, stage);
    if missing then
      After(s, CreateDep(s, target, OwnerAt(stage, copy, account), ContentAt(k, stage)), io,
        Advance(stage, copy, helper, account))
    else if io.fault then (s, Idle)
    else if target in s.deps then
      (s, Advance(stage, copy, helper, if ReadOnly(stage) then s.deps[target].uid else account))
    else if ReadOnly(stage) then (s, Idle)
    else (s, Ensure(stage, true, copy, helper, account))
  }

  function AddRecord(s: Store, helper: Backend, k: Key): Store {
    if helper.kind.Kubernetes? then s else s.(ext := s.ext + {Record(helper, k)})
  }

  function DropRecord(s: Store, helper: Backend, k: Key): Store {
    s.(ext := s.ext - {Record(helper, k)})
  }

  /** The helpers that report an error for a record they do not have. */
  predicate Strict(helper: Backend) {
    helper.kind.Vault? || helper.kind.Azure?
  }

  /** What the helper says to a deletion that reaches it. */
  predicate Accepts(s: Store, k: Key, helper: Backend) {
    Strict(helper) ==> Record(helper, k) in s.ext
  }

  /** The call at `pc` when nothing fails but what the helper refuses by itself. */
  function Answer(s: Store, k: Key, pc: IdPc, meta: map<string, string>): Io {
    if pc.Undo? && !Accepts(s, k, pc.helper) then Io(true, false, meta) else Io(false, true, meta)
  }

  /** One API call of IdentityReconciler.Reconcile for the request `k`. */
  function IdStep(s: Store, k: Key, pc: IdPc, io: Io): (Store, IdPc) {
    match pc
    case Idle =>
      (s, if io.fault || k !in s.ids then Idle else Find(Vault, s.ids[k]))
    case Find(kind, copy) =>
      (s, AfterRead(kind, copy, ReadProvider(s, ProviderKey(kind, Key(k.ns, copy.provider)), io)))
    case Undo(copy, helper) =>
      (if io.Effect() then DropRecord(s, helper, k) else s,
       if io.fault || IDENTITY_FINALIZER !in copy.finalizers then Idle else Release(copy))
    case Release(copy) =>
      After(s, UpdateIdentity(s, k, ReleasedCopy(copy)), io, Idle)
    case Init(copy, helper) =>
      After(s, UpdateIdentityStatus(s, k, copy.(phase := Reconciling)), io, Refetch(helper))
    case Refetch(helper) =>
      (s, if io.fault || k !in s.ids then Idle else Admit(s.ids[k], helper))
    case Claim(copy) =>
      After(s, UpdateIdentity(s, k, ClaimedCopy(copy)), io, Idle)
    case Announce(copy, helper) =>
      var sent := AnnouncedCopy(copy, helper);
      var answer := UpdateIdentityStatus(s, k, sent);
      After(s, answer, io, Ensure(MakeAccount, false, Stored(answer, k, sent), helper, 0))
    case Ensure(stage, missing, copy, helper, account) =>
      EnsureStep(s, k, stage, missing, copy, helper, account, io)
    case Enroll(copy, helper) =>
      (if io.Effect() then AddRecord(s, helper, k) else s,
       if io.fault then Idle else Tag(copy, if helper.kind.Kubernetes? then map[] else io.meta))
    case Tag(copy, meta) =>
      var sent := TaggedCopy(copy);
      var answer := UpdateIdentity(s, k, sent);
      After(s, answer, io, Publish(Stored(answer, k, sent), meta))
    case Publish(copy, meta) =>
      After(s, UpdateIdentityStatus(s, k, copy.(metadata := meta)), io, Idle)
  }

  /** What Reconcile returns: nothing, a request to run again, or an error. */
  datatype Outcome = Done | Requeue | Error

  /** The result if this call is the last one. */
  function IdResult(s: Store, k: Key, pc: IdPc, io: Io): Outcome {
    match pc
    case Idle => if io.fault then Error else Done
    case Undo(_, _) => if io.fault then Error else Done
    case Release(c) => if io.fault || UpdateIdentity(s, k, ReleasedCopy(c)).None? then Error else Done
    case Claim(c) => if io.fault || UpdateIdentity(s, k, ClaimedCopy(c)).None? then Error else Requeue
    case Publish(c, meta) => if io.fault || UpdateIdentityStatus(s, k, c.(metadata := meta)).None? then Error else Done
    case _ => Error
  }

  // ---------------------------------------------------------------- the provider controllers

  datatype PrPc =
    | PIdle
    | PList(copy: Provider)
    | PDelete(copy: Provider, items: seq<Key>, i: nat)
    | PCheck(copy: Provider, items: seq<Key>, i: nat)
    | PRelease(copy: Provider, items: seq<Key>)
    | PInit(copy: Provider)
    | PRefetch
    | PClaim(copy: Provider)
    | PAnnounce(copy: Provider)

  function PAdmit(copy: Provider): PrPc {
    if PROVIDER_FINALIZER !in copy.finalizers then PClaim(copy) else PAnnounce(copy)
  }

  function PDispatch(copy: Provider): PrPc {
    if copy.deleting then PList(copy)
    else if copy.phase.Unset? then PInit(copy)
    else PAdmit(copy)
  }

  function PAfter(s: Store, answer: Option<Store>, io: Io, next: PrPc): (Store, PrPc) {
    if answer.None? then (s, PIdle)
    else (if io.Effect() then answer.value else s, if io.fault then PIdle else next)
  }

  /** The head of each loop: the next call for index `i`, or what follows the loop. */
  function Deleting(copy: Provider, items: seq<Key>, i: nat): PrPc {
    if i < |items| then PDelete(copy, items, i) else Checking(copy, items, 0)
  }

  function Checking(copy: Provider, items: seq<Key>, i: nat): PrPc {
    if i < |items| then PCheck(copy, items, i)
    else if PROVIDER_FINALIZER in copy.finalizers then PRelease(copy, items)
    else PIdle
  }

  /** One API call of a provider's Reconcile; `items` is what a List returns and
      `issuer` what the KubernetesProvider controller writes. */
  function PrStep(s: Store, p: ProviderKey, pc: PrPc, io: Io, items: seq<Key>, issuer: string): (Store, PrPc) {
    match pc
    case PIdle =>
      (s, if io.fault || p !in s.providers then PIdle else PDispatch(s.providers[p]))
    case PList(copy) =>
      (s, if io.fault then PIdle else Deleting(copy, items, 0))
    case PDelete(copy, list, i) =>
      if i < |list| then PAfter(s, DeleteIdentity(s, list[i]), io, Deleting(copy, list, i + 1)) else (s, PIdle)
    case PCheck(copy, list, i) =>
      // any error counts as "deleted"
      (s, if i < |list| && (io.fault || list[i] !in s.ids) then Checking(copy, list, i + 1) else PIdle)
    case PRelease(copy, _) =>
      PAfter(s, UpdateProvider(s, p, copy.(finalizers := copy.finalizers - {PROVIDER_FINALIZER})), io, PIdle)
    case PInit(copy) =>
      PAfter(s, UpdateProviderStatus(s, p, copy.(phase := Reconciling)), io, PRefetch)
    case PRefetch =>
      (s, if io.fault || p !in s.providers then PIdle else PAdmit(s.providers[p]))
    case PClaim(copy) =>
      PAfter(s, UpdateProvider(s, p, copy.(finalizers := copy.finalizers + {PROVIDER_FINALIZER})), io, PIdle)
    case PAnnounce(copy) =>
      PAfter(s, UpdateProviderStatus(s, p, copy.(phase := Reconciled,
        issuer := if p.kind.Kubernetes? then issuer else copy.issuer)), io, PIdle)
  }

  function PrResult(s: Store, p: ProviderKey, pc: PrPc, io: Io): Outcome {
    match pc
    case PIdle => if io.fault then Error else Done
    case PList(_) => if io.fault then Error else Done
    case PDelete(_, list, i) => Error
    case PCheck(_, list, i) => if i < |list| && !io.fault && list[i] in s.ids then Requeue else Done
    case PRelease(c, _) =>
      if io.fault || UpdateProvider(s, p, c.(finalizers := c.finalizers - {PROVIDER_FINALIZER})).None? then Error else Done
    case PClaim(c) =>
      if io.fault || UpdateProvider(s, p, c.(finalizers := c.finalizers + {PROVIDER_FINALIZER})).None? then Error else Requeue
    case PAnnounce(c) => if io.fault || !CurrentProvider(s, p, c) then Error else Done
    case _ => Error
  }

  // ---------------------------------------------------------------- the whole system

  /** At most one Reconcile runs per key; a key without an entry is idle. */
  datatype World = World(store: Store, workers: map<Key, IdPc>, reconcilers: map<ProviderKey, PrPc>)

  datatype Action =
    | IdCall(k: Key, io: Io)
    | ProviderCall(p: ProviderKey, io: Io, items: seq<Key>, issuer: string)
    | Progress(k: Key)            // a remote call inside CreateIdentity or DeleteIdentity
    | Crash                       // the manager restarts
    | UserCreate(k: Key, provider: string, labels: map<string, string>, finalizers: set<string>)
    | UserEdit(k: Key, provider: string, labels: map<string, string>, finalizers: set<string>)
    | UserStatus(k: Key, phase: Phase, statusProvider: string, metadata: map<string, string>)
    | UserDelete(k: Key)
    | ProviderCreate(p: ProviderKey, endpoint: string, finalizers: set<string>)
    | ProviderEdit(p: ProviderKey, endpoint: string, finalizers: set<string>)
    | ProviderDelete(p: ProviderKey)
    | DepCreate(ref: Ref, owner: Option<nat>, content: Content)
    | DepDelete(ref: Ref)
    | Collect(ref: Ref)

  function PcOf(w: World, k: Key): IdPc {
    if k in w.workers then w.workers[k] else Idle
  }

  function PrPcOf(w: World, p: ProviderKey): PrPc {
    if p in w.reconcilers then w.reconcilers[p] else PIdle
  }

  function GetOr(answer: Option<Store>, s: Store): Store {
    if answer.Some? then answer.value else s
  }

  function ProgressStep(s: Store, k: Key, pc: IdPc): Store {
    match pc
    case Enroll(_, helper) => AddRecord(s, helper, k)
    case Undo(_, helper) => DropRecord(s, helper, k)
    case _ => s
  }

  /** What users, other controllers and the collector do to the store. */
  function Outside(s: Store, a: Action): Store {
    match a
    case UserCreate(k, provider, labels, finalizers) =>
      if k in s.ids then s else CreateIdentity(s, k, provider, labels, finalizers)
    case UserEdit(k, provider, labels, finalizers) =>
      if k !in s.ids then s
      else GetOr(UpdateIdentity(s, k, s.ids[k].(provider := provider, labels := labels, finalizers := finalizers)), s)
    case UserStatus(k, phase, statusProvider, metadata) =>
      if k !in s.ids then s
      else GetOr(UpdateIdentityStatus(s, k,
        s.ids[k].(phase := phase, statusProvider := statusProvider, metadata := metadata)), s)
    case UserDelete(k) => GetOr(DeleteIdentity(s, k), s)
    case ProviderCreate(p, endpoint, finalizers) =>
      if p in s.providers then s else CreateProvider(s, p, endpoint, finalizers)
    case ProviderEdit(p, endpoint, finalizers) =>
      if p !in s.providers then s
      else GetOr(UpdateProvider(s, p, s.providers[p].(endpoint := endpoint, finalizers := finalizers)), s)
    case ProviderDelete(p) => GetOr(DeleteProvider(s, p), s)
    case DepCreate(ref, owner, content) => GetOr(CreateDep(s, ref, owner, content), s)
    case DepDelete(ref) => Remove(s, ref)
    case Collect(ref) => if Collectable(s, ref) then Remove(s, ref) else s
    case _ => s
  }

  /** One step of the system.  A step that is not possible changes nothing. */
  function Do(w: World, a: Action): World {
    match a
    case IdCall(k, io) =>
      var (s, pc) := IdStep(w.store, k, PcOf(w, k), io);
      w.(store := s, workers := w.workers[k := pc])
    case ProviderCall(p, io, items, issuer) =>
      var here := PrPcOf(w, p);
      if here.PList? && !io.fault && !IsListing(w.store, p.key.name, items) then w
      else
        var (s, pc) := PrStep(w.store, p, here, io, items, issuer);
        w.(store := s, reconcilers := w.reconcilers[p := pc])
    case Progress(k) => w.(store := ProgressStep(w.store, k, PcOf(w, k)))
    case Crash => w.(workers := map[], reconcilers := map[])
    case _ => w.(store := Outside(w.store, a))
  }

  function Run(w: World, actions: seq<Action>): World
    decreases |actions|
  {
    if actions == [] then w else Run(Do(w, actions[0]), actions[1..])
  }

  lemma {:induction false} RunAppend(w: World, a: seq<Action>, b: seq<Action>)
    ensures Run(w, a + b) == Run(Run(w, a), b)
    decreases |a|
  {
    if a == [] {
      assert a + b == b;
    } else {
      assert (a + b)[0] == a[0] && (a + b)[1..] == a[1..] + b;
      RunAppend(Do(w, a[0]), a[1..], b);
    }
  }
}
