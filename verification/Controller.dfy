/** The two controllers in the form the source gives them: methods that call the
    API server, with everybody else acting before each call.  Every method is
    proved to be a run of the state machines of Protocol, call by call, so what is
    proved of all runs holds of this code. */
module Controller {
  import opened Cluster
  import opened Protocol
  import opened Safety
  import WriteOrder

  /** What happens before one of our calls, how that call ends, and the list an
      identity List would return in that case. */
  datatype Turn = Turn(others: seq<Action>, io: Io, items: seq<Key>, issuer: string)

  /** Who is reconciling: an identity worker or a provider's reconciler. */
  datatype Request = ForIdentity(k: Key) | ForProvider(p: ProviderKey)
  datatype Point = IdAt(pc: IdPc) | PrAt(prpc: PrPc)

  predicate Ours(r: Request, a: Action) {
    match a
    case IdCall(k, _) => r == ForIdentity(k)
    case Progress(k) => r == ForIdentity(k)
    case ProviderCall(p, _, _, _) => r == ForProvider(p)
    case Crash => true
    case _ => false
  }

  predicate NoneOurs(r: Request, actions: seq<Action>) {
    forall a :: a in actions ==> !Ours(r, a)
  }

  /** `w` is the cluster as we see it; `m` is the same cluster in which our own
      worker stands at `at`. */
  ghost predicate Twin(w: World, m: World, r: Request, at: Point) {
    && m.store == w.store
    && (forall k :: if r == ForIdentity(k) then at == IdAt(PcOf(m, k)) else PcOf(m, k) == PcOf(w, k))
    && (forall p :: if r == ForProvider(p) then at == PrAt(PrPcOf(m, p)) else PrPcOf(m, p) == PrPcOf(w, p))
  }

  lemma TwinOther(w: World, m: World, r: Request, at: Point, a: Action)
    requires Twin(w, m, r, at) && !Ours(r, a)
    ensures Twin(Do(w, a), Do(m, a), r, at)
  {
    hide IdStep, PrStep, Outside, ProgressStep, IsListing;
  }

  lemma {:induction false} TwinOthers(w: World, m: World, r: Request, at: Point, actions: seq<Action>)
    requires Twin(w, m, r, at) && NoneOurs(r, actions)
    ensures Twin(Run(w, actions), Run(m, actions), r, at)
    decreases |actions|
  {
    if actions != [] {
      TwinOther(w, m, r, at, actions[0]);
      TwinOthers(Do(w, actions[0]), Do(m, actions[0]), r, at, actions[1..]);
    }
  }

  /** Turns whose other actions really are the others'. */
  predicate Fair(r: Request, script: seq<Turn>) {
    forall t :: t in script ==> NoneOurs(r, t.others)
  }

  class Client {
    const request: Request
    var world: World
    var script: seq<Turn>
    ghost var machine: World
    ghost var trace: seq<Action>
    ghost const start: World
    ghost var passes: nat        // how often our worker left its idle point
    ghost var result: Outcome    // what Reconcile returns if our last call ends it

    ghost predicate Valid(at: Point)
      reads this
    {
      && Fair(request, script)
      && Twin(world, machine, request, at)
      && machine == Run(start, trace)
    }

    constructor (request: Request, world: World, script: seq<Turn>)
      requires Fair(request, script)
      requires request.ForIdentity? ==> PcOf(world, request.k) == Idle
      requires request.ForProvider? ==> PrPcOf(world, request.p) == PIdle
      ensures Valid(if request.ForIdentity? then IdAt(Idle) else PrAt(PIdle))
      ensures this.request == request && this.start == world && trace == [] && this.world == world && passes == 0
    {
      this.request, this.world, this.script := request, world, script;
      machine, trace, start, passes, result := world, [], world, 0, Done;
    }

    /** The others act; the turn says how our next call ends. */
    method Yield(ghost at: Point) returns (turn: Turn)
      requires Valid(at)
      modifies `world, `script, `machine, `trace
      ensures Valid(at) && old(trace) <= trace
    {
      turn := Turn([], OK, [], "");
      if script != [] {
        turn := script[0];
        assert turn in script;
        TwinOthers(world, machine, request, at, turn.others);
        RunAppend(start, trace, turn.others);
        world, script := Run(world, turn.others), script[1..];
        machine, trace := Run(machine, turn.others), trace + turn.others;
      }
    }

    /** Our own step, once the caller has put its effect into the store. */
    ghost method Stepped(before: World, pc: IdPc, io: Io)
      requires request.ForIdentity? && Fair(request, script)
      requires Twin(before, machine, request, IdAt(pc)) && machine == Run(start, trace)
      requires world == before.(store := IdStep(before.store, request.k, pc, io).0)
      modifies `machine, `trace, `passes, `result
      ensures old(trace) <= trace && passes == old(passes) + (if pc.Idle? then 1 else 0)
      ensures result == IdResult(before.store, request.k, pc, io)
      ensures Valid(IdAt(IdStep(before.store, request.k, pc, io).1))
    {
      var a := IdCall(request.k, io);
      assert PcOf(machine, request.k) == pc;
      RunAppend(start, trace, [a]);
      assert [a][1..] == [];
      machine, trace := Do(machine, a), trace + [a];
      passes := passes + if pc.Idle? then 1 else 0;
      result := IdResult(before.store, request.k, pc, io);
    }

    ghost method PStepped(before: World, pc: PrPc, turn: Turn)
      requires request.ForProvider? && Fair(request, script)
      requires Twin(before, machine, request, PrAt(pc)) && machine == Run(start, trace)
      requires pc.PList? && !turn.io.fault ==> IsListing(before.store, request.p.key.name, turn.items)
      requires world == before.(store := PrStep(before.store, request.p, pc, turn.io, turn.items, turn.issuer).0)
      modifies `machine, `trace, `passes, `result
      ensures old(trace) <= trace && passes == old(passes) + (if pc.PIdle? then 1 else 0)
      ensures result == PrResult(before.store, request.p, pc, turn.io)
      ensures Valid(PrAt(PrStep(before.store, request.p, pc, turn.io, turn.items, turn.issuer).1))
    {
      var a := ProviderCall(request.p, turn.io, turn.items, turn.issuer);
      assert PrPcOf(machine, request.p) == pc;
      RunAppend(start, trace, [a]);
      assert [a][1..] == [];
      machine, trace := Do(machine, a), trace + [a];
      passes := passes + if pc.PIdle? then 1 else 0;
      result := PrResult(before.store, request.p, pc, turn.io);
    }

    // -------------------------------------------------------------- the identity worker's calls

    method GetIdentity(ghost pc: IdPc) returns (r: Reply<Identity>)
      requires Valid(IdAt(pc)) && request.ForIdentity? && (pc.Idle? || pc.Refetch?)
      modifies this
      ensures old(trace) <= trace && passes == old(passes) + (if pc.Idle? then 1 else 0)
      ensures !r.Found? ==> result == (if pc.Idle? && r.NotFound? then Done else Error)
      ensures Valid(IdAt(if !r.Found? then Idle else if pc.Idle? then Find(Vault, r.value) else Admit(r.value, pc.helper)))
    {
      var turn := Yield(IdAt(pc));
      var k := request.k;
      r := if turn.io.fault then Failed else if k in world.store.ids then Found(world.store.ids[k]) else NotFound;
      Stepped(world, pc, turn.io);
    }

    method GetProvider(kind: Kind, name: string, ghost pc: IdPc) returns (r: Reply<Provider>)
      requires Valid(IdAt(pc)) && request.ForIdentity?
      requires pc.Find? && pc.kind == kind && pc.copy.provider == name
      modifies this
      ensures old(trace) <= trace && passes == old(passes) && result == Error
      ensures Valid(IdAt(AfterRead(kind, pc.copy, r)))
    {
      var turn := Yield(IdAt(pc));
      r := ReadProvider(world.store, ProviderKey(kind, Key(request.k.ns, name)), turn.io);
      Stepped(world, pc, turn.io);
    }

    /** The point at which the machine makes this very update. */
    ghost predicate Updates(pc: IdPc, obj: Identity) {
      match pc
      case Release(c) => obj == ReleasedCopy(c)
      case Claim(c) => obj == ClaimedCopy(c)
      case Tag(c, _) => obj == TaggedCopy(c)
      case _ => false
    }

    method Update(obj: Identity, ghost pc: IdPc) returns (r: Option<Identity>)
      requires Valid(IdAt(pc)) && request.ForIdentity? && Updates(pc, obj)
      modifies this
      ensures old(trace) <= trace && passes == old(passes)
      ensures result == (if r.None? || pc.Tag? then Error else if pc.Claim? then Requeue else Done)
      ensures Valid(IdAt(if r.Some? && pc.Tag? then Publish(r.value, pc.meta) else Idle))
    {
      var turn := Yield(IdAt(pc));
      ghost var before := world;
      var answer := UpdateIdentity(world.store, request.k, obj);
      r := if answer.None? || turn.io.fault then None else Some(Stored(answer, request.k, obj));
      if answer.Some? && turn.io.Effect() { world := world.(store := answer.value); }
      Stepped(before, pc, turn.io);
    }

    ghost predicate UpdatesStatus(pc: IdPc, obj: Identity) {
      match pc
      case Init(c, _) => obj == c.(phase := Reconciling)
      case Announce(c, helper) => obj == AnnouncedCopy(c, helper)
      case Publish(c, meta) => obj == c.(metadata := meta)
      case _ => false
    }

    method UpdateStatus(obj: Identity, ghost pc: IdPc) returns (r: Option<Identity>)
      requires Valid(IdAt(pc)) && request.ForIdentity? && UpdatesStatus(pc, obj)
      modifies this
      ensures old(trace) <= trace && passes == old(passes)
      ensures result == (if r.Some? && pc.Publish? then Done else Error)
      ensures Valid(IdAt(
        if r.None? || pc.Publish? then Idle
        else if pc.Init? then Refetch(pc.helper)
        else Ensure(MakeAccount, false, r.value, pc.helper, 0)))
    {
      var turn := Yield(IdAt(pc));
      ghost var before := world;
      var answer := UpdateIdentityStatus(world.store, request.k, obj);
      r := if answer.None? || turn.io.fault then None else Some(Stored(answer, request.k, obj));
      if answer.Some? && turn.io.Effect() { world := world.(store := answer.value); }
      Stepped(before, pc, turn.io);
    }

    method GetDependent(ref: Ref, ghost pc: IdPc) returns (r: Reply<Dependent>)
      requires Valid(IdAt(pc)) && request.ForIdentity?
      requires pc.Ensure? && !pc.missing && ref == Target(request.k, pc.stage)
      modifies this
      ensures old(trace) <= trace && passes == old(passes) && result == Error
      ensures Valid(IdAt(
        if r.Found? then Advance(pc.stage, pc.copy, pc.helper, if ReadOnly(pc.stage) then r.value.uid else pc.account)
        else if r.NotFound? && !ReadOnly(pc.stage) then pc.(missing := true)
        else Idle))
    {
      var turn := Yield(IdAt(pc));
      r := if turn.io.fault then Failed else if ref in world.store.deps then Found(world.store.deps[ref]) else NotFound;
      Stepped(world, pc, turn.io);
    }

    method Create(ref: Ref, owner: Option<nat>, content: Content, ghost pc: IdPc) returns (ok: bool)
      requires Valid(IdAt(pc)) && request.ForIdentity?
      requires pc.Ensure? && pc.missing && ref == Target(request.k, pc.stage)
      requires owner == OwnerAt(pc.stage, pc.copy, pc.account) && content == ContentAt(request.k, pc.stage)
      modifies this
      ensures old(trace) <= trace && passes == old(passes) && result == Error
      ensures Valid(IdAt(if ok then Advance(pc.stage, pc.copy, pc.helper, pc.account) else Idle))
    {
      var turn := Yield(IdAt(pc));
      ghost var before := world;
      var answer := CreateDep(world.store, ref, owner, content);
      ok := answer.Some? && !turn.io.fault;
      if answer.Some? && turn.io.Effect() { world := world.(store := answer.value); }
      Stepped(before, pc, turn.io);
    }

    /** The helper's CreateIdentity. */
    method Enroll(helper: Backend, ghost pc: IdPc) returns (r: Option<map<string, string>>)
      requires Valid(IdAt(pc)) && request.ForIdentity? && pc.Enroll? && pc.helper == helper
      modifies this
      ensures old(trace) <= trace && passes == old(passes) && result == Error
      ensures Valid(IdAt(if r.Some? then Tag(pc.copy, r.value) else Idle))
    {
      var turn := Yield(IdAt(pc));
      ghost var before := world;
      r := if turn.io.fault then None else Some(if helper.kind.Kubernetes? then map[] else turn.io.meta);
      if turn.io.Effect() { world := world.(store := AddRecord(world.store, helper, request.k)); }
      Stepped(before, pc, turn.io);
    }

    /** The helper's DeleteIdentity. */
    method Withdraw(helper: Backend, ghost pc: IdPc) returns (ok: bool)
      requires Valid(IdAt(pc)) && request.ForIdentity? && pc.Undo? && pc.helper == helper
      modifies this
      ensures old(trace) <= trace && passes == old(passes) && result == (if ok then Done else Error)
      ensures Valid(IdAt(if ok && IDENTITY_FINALIZER in pc.copy.finalizers then Release(pc.copy) else Idle))
    {
      var turn := Yield(IdAt(pc));
      ghost var before := world;
      ok := !turn.io.fault;
      if turn.io.Effect() { world := world.(store := DropRecord(world.store, helper, request.k)); }
      Stepped(before, pc, turn.io);
    }

    // -------------------------------------------------------------- a provider reconciler's calls

    method FetchProvider(ghost pc: PrPc) returns (r: Reply<Provider>)
      requires Valid(PrAt(pc)) && request.ForProvider? && (pc.PIdle? || pc.PRefetch?)
      modifies this
      ensures old(trace) <= trace && passes == old(passes) + (if pc.PIdle? then 1 else 0)
      ensures !r.Found? ==> result == (if pc.PIdle? && r.NotFound? then Done else Error)
      ensures Valid(PrAt(if !r.Found? then PIdle else if pc.PIdle? then PDispatch(r.value) else PAdmit(r.value)))
    {
      var turn := Yield(PrAt(pc));
      var p := request.p;
      r := if turn.io.fault then Failed else if p in world.store.providers then Found(world.store.providers[p]) else NotFound;
      PStepped(world, pc, turn);
    }

    /** A List that does not match the store is taken as a failed one. */
    method List(name: string, ghost pc: PrPc) returns (r: Option<seq<Key>>)
      requires Valid(PrAt(pc)) && request.ForProvider? && pc.PList? && name == request.p.key.name
      modifies this
      ensures old(trace) <= trace && passes == old(passes) && result == (if r.Some? then Done else Error)
      ensures Valid(PrAt(if r.Some? then Deleting(pc.copy, r.value, 0) else PIdle))
    {
      var turn := Yield(PrAt(pc));
      if turn.io.fault || !IsListing(world.store, name, turn.items) {
        r := None;
        PStepped(world, pc, turn.(io := Io(true, false, map[])));
      } else {
        r := Some(turn.items);
        PStepped(world, pc, turn);
      }
    }

    method DeleteListed(k: Key, ghost pc: PrPc) returns (ok: bool)
      requires Valid(PrAt(pc)) && request.ForProvider? && pc.PDelete? && pc.i < |pc.items| && k == pc.items[pc.i]
      modifies this
      ensures old(trace) <= trace && passes == old(passes) && (!ok ==> result == Error)
      ensures Valid(PrAt(if ok then Deleting(pc.copy, pc.items, pc.i + 1) else PIdle))
    {
      var turn := Yield(PrAt(pc));
      ghost var before := world;
      var answer := DeleteIdentity(world.store, k);
      ok := answer.Some? && !turn.io.fault;
      if answer.Some? && turn.io.Effect() { world := world.(store := answer.value); }
      PStepped(before, pc, turn);
    }

    method CheckListed(k: Key, ghost pc: PrPc) returns (r: Reply<Identity>)
      requires Valid(PrAt(pc)) && request.ForProvider? && pc.PCheck? && pc.i < |pc.items| && k == pc.items[pc.i]
      modifies this
      ensures old(trace) <= trace && passes == old(passes) && result == (if r.Found? then Requeue else Done)
      ensures Valid(PrAt(if r.Found? then PIdle else Checking(pc.copy, pc.items, pc.i + 1)))
    {
      var turn := Yield(PrAt(pc));
      r := if turn.io.fault then Failed else if k in world.store.ids then Found(world.store.ids[k]) else NotFound;
      PStepped(world, pc, turn);
    }

    method PutProviderObject(obj: Provider, ghost pc: PrPc) returns (ok: bool)
      requires Valid(PrAt(pc)) && request.ForProvider?
      requires pc.PRelease? || pc.PClaim?
      requires pc.PRelease? ==> obj == pc.copy.(finalizers := pc.copy.finalizers - {PROVIDER_FINALIZER})
      requires pc.PClaim? ==> obj == pc.copy.(finalizers := pc.copy.finalizers + {PROVIDER_FINALIZER})
      modifies this
      ensures old(trace) <= trace && passes == old(passes)
      ensures result == (if !ok then Error else if pc.PClaim? then Requeue else Done)
      ensures Valid(PrAt(PIdle))
    {
      var turn := Yield(PrAt(pc));
      ghost var before := world;
      var answer := UpdateProvider(world.store, request.p, obj);
      ok := answer.Some? && !turn.io.fault;
      if answer.Some? && turn.io.Effect() { world := world.(store := answer.value); }
      PStepped(before, pc, turn);
    }

    /** `issuer` is what the KubernetesProvider controller read from its token. */
    method PutProviderStatus(copy: Provider, phase: Phase, ghost pc: PrPc) returns (ok: bool)
      requires Valid(PrAt(pc)) && request.ForProvider?
      requires (pc == PInit(copy) && phase == Reconciling) || (pc == PAnnounce(copy) && phase == Reconciled)
      modifies this
      ensures old(trace) <= trace && passes == old(passes)
      ensures result == (if ok && pc.PAnnounce? then Done else Error)
      ensures Valid(PrAt(if ok && pc.PInit? then PRefetch else PIdle))
    {
      var turn := Yield(PrAt(pc));
      ghost var before := world;
      var issuer := if phase.Reconciled? && request.p.kind.Kubernetes? then turn.issuer else copy.issuer;
      var answer := UpdateProviderStatus(world.store, request.p, copy.(phase := phase, issuer := issuer));
      ok := answer.Some? && !turn.io.fault;
      if answer.Some? && turn.io.Effect() { world := world.(store := answer.value); }
      PStepped(before, pc, turn);
    }
  }

  /** What is proved of all runs holds before, between and after these calls: under
      the hypotheses on what the others do, the store the code sees never has a
      record without an identity that still owes its deletion ... */
  lemma NoRecordLeftBehind(c: Client, at: Point, home: Home)
    requires c.Valid(at) && Inv(home, c.start) && BenignRun(home, c.start, c.trace)
    ensures forall r :: r in c.world.store.ext ==>
      Held(c.world.store, r.key) && r.backend == HomeOf(home, r.key, c.world.store.ids[r.key])
  {
    hide Inv, BenignRun, HomeOf;
    RecordImpliesFinalizer(home, c.start, c.trace);
  }

  /** ... nor published metadata without what a pod needs. */
  lemma NothingPublishedTooEarly(c: Client, at: Point, k: Key)
    requires c.Valid(at) && WriteOrder.OrderInv(c.start) && WriteOrder.OrderlyRun(c.start, c.trace)
    requires k in c.world.store.ids && c.world.store.ids[k].metadata != map[]
    ensures WriteOrder.Complete(c.world.store, k)
  {
    hide WriteOrder.OrderInv, WriteOrder.OrderlyRun, WriteOrder.Complete;
    WriteOrder.PublishedMeansComplete(c.start, c.trace);
  }

  // ---------------------------------------------------------------- internal/controller/identity_controller.go

  class IdentityReconciler {
    const client: Client

    constructor (client: Client)
      ensures this.client == client
    {
      this.client := client;
    }

    /** One Reconcile is exactly one pass of the machine, interleaved with whatever
        the others did, and it returns what that pass returns. */
    method Reconcile() returns (res: Outcome)
      requires client.request.ForIdentity? && client.Valid(IdAt(Idle))
      modifies client
      ensures client.Valid(IdAt(Idle)) && old(client.trace) <= client.trace && client.passes == old(client.passes) + 1
      ensures res == client.result
    {
      var found := client.GetIdentity(Idle);
      match found {
        case NotFound => return Done;
        case Failed => return Error;
        case Found(identity) =>
          var helper := FindProvider(identity);
          if helper.None? { return Error; }
          if identity.deleting {
            res := Finish(identity, helper.value);
            return;
          }
          var current := identity;
          if current.phase.Unset? {
            var marked := client.UpdateStatus(current.(phase := Reconciling), Init(current, helper.value));
            if marked.None? { return Error; }
            var again := client.GetIdentity(Refetch(helper.value));
            if !again.Found? { return Error; }
            current := again.value;
          }
          if IDENTITY_FINALIZER !in current.finalizers {
            var claimed := client.Update(ClaimedCopy(current), Claim(current));
            return if claimed.None? then Error else Requeue;
          }
          res := Establish(current, helper.value);
      }
    }

    method FindProvider(identity: Identity) returns (helper: Option<Backend>)
      requires client.request.ForIdentity? && client.Valid(IdAt(Find(Vault, identity)))
      modifies client
      ensures client.Valid(IdAt(if helper.Some? then Dispatch(identity, helper.value) else Idle))
      ensures old(client.trace) <= client.trace && client.passes == old(client.passes) && client.result == Error
    {
      var vault := client.GetProvider(Vault, identity.provider, Find(Vault, identity));
      if vault.Found? { return Some(BackendOf(Vault, vault.value)); }
      if vault.Failed? { return None; }
      var azure := client.GetProvider(Azure, identity.provider, Find(Azure, identity));
      if azure.Found? { return Some(BackendOf(Azure, azure.value)); }
      if azure.Failed? { return None; }
      var kube := client.GetProvider(Kubernetes, identity.provider, Find(Kubernetes, identity));
      if !kube.NotFound? { return Some(Backend(Kubernetes, "")); }
      var aws := client.GetProvider(Aws, identity.provider, Find(Aws, identity));
      if aws.Found? { return Some(BackendOf(Aws, aws.value)); }
      return None;
    }

    method Finish(identity: Identity, helper: Backend) returns (res: Outcome)
      requires client.request.ForIdentity? && client.Valid(IdAt(Undo(identity, helper)))
      modifies client
      ensures client.Valid(IdAt(Idle)) && old(client.trace) <= client.trace && client.passes == old(client.passes) && res == client.result
    {
      var ok := client.Withdraw(helper, Undo(identity, helper));
      if !ok { return Error; }
      if IDENTITY_FINALIZER in identity.finalizers {
        var released := client.Update(ReleasedCopy(identity), Release(identity));
        if released.None? { return Error; }
      }
      return Done;
    }

    method Establish(identity: Identity, helper: Backend) returns (res: Outcome)
      requires client.request.ForIdentity? && client.Valid(IdAt(Announce(identity, helper)))
      modifies client
      ensures client.Valid(IdAt(Idle)) && old(client.trace) <= client.trace && client.passes == old(client.passes) && res == client.result
    {
      var k := client.request.k;
      var announced := client.UpdateStatus(AnnouncedCopy(identity, helper), Announce(identity, helper));
      if announced.None? { return Error; }
      var current := announced.value;
      var ok := EnsureResourceExists(Account(k.ns, k.name), Some(current.uid), Plain, MakeAccount, current, helper, 0);
      if !ok { return Error; }
      ok := BindRoleToServiceAccount("default", false, current, helper);
      if !ok { return Error; }
      ok := BindRoleToServiceAccount(k.name, true, current, helper);
      if !ok { return Error; }
      var meta := client.Enroll(helper, Protocol.Enroll(current, helper));
      if meta.None? { return Error; }
      var tagged := client.Update(TaggedCopy(current), Tag(current, meta.value));
      if tagged.None? { return Error; }
      var published := client.UpdateStatus(tagged.value.(metadata := meta.value), Publish(tagged.value, meta.value));
      return if published.None? then Error else Done;
    }

    method BindRoleToServiceAccount(account: string, withOwnership: bool, ghost identity: Identity, ghost helper: Backend)
      returns (ok: bool)
      requires client.request.ForIdentity?
      requires account == if withOwnership then client.request.k.name else "default"
      requires client.Valid(IdAt(Ensure(if withOwnership then ReadOwn else ReadDefault, false, identity, helper, 0)))
      modifies client
      ensures old(client.trace) <= client.trace && client.passes == old(client.passes) && client.result == Error
      ensures client.Valid(IdAt(
        if !ok then Idle
        else if withOwnership then Protocol.Enroll(identity, helper)
        else Ensure(ReadOwn, false, identity, helper, 0)))
    {
      var ns := client.request.k.ns;
      var read := client.GetDependent(Account(ns, account),
        Ensure(if withOwnership then ReadOwn else ReadDefault, false, identity, helper, 0));
      if !read.Found? { return false; }
      var uid := read.value.uid;
      // createPolicyReaderRole
      ok := EnsureResourceExists(Role(ns), Some(uid), PolicyReader,
        if withOwnership then OwnRole else DefaultRole, identity, helper, uid);
      if !ok { return; }
      ok := EnsureResourceExists(Binding(ns, account), if withOwnership then Some(uid) else None, Bind(account, ROLE_NAME),
        if withOwnership then OwnBinding else DefaultBinding, identity, helper, uid);
    }

    /** internal/controller/utils.go: both forms of ensureResourceExists; an owner
        is the controller reference. */
    method EnsureResourceExists(ref: Ref, owner: Option<nat>, content: Content,
                                ghost stage: Stage, ghost identity: Identity, ghost helper: Backend, ghost account: nat)
      returns (ok: bool)
      requires client.request.ForIdentity? && !ReadOnly(stage)
      requires ref == Target(client.request.k, stage) && content == ContentAt(client.request.k, stage)
      requires owner == OwnerAt(stage, identity, account)
      requires client.Valid(IdAt(Ensure(stage, false, identity, helper, account)))
      modifies client
      ensures old(client.trace) <= client.trace && client.passes == old(client.passes) && client.result == Error
      ensures client.Valid(IdAt(if ok then Advance(stage, identity, helper, account) else Idle))
    {
      var existing := client.GetDependent(ref, Ensure(stage, false, identity, helper, account));
      match existing {
        case Found(_) => return true;
        case Failed => return false;
        case NotFound => ok := client.Create(ref, owner, content, Ensure(stage, true, identity, helper, account));
      }
    }
  }

  // ---------------------------------------------------------------- internal/controller/hashicorpvaultprovider_controller.go

  class ProviderReconciler {
    const client: Client

    constructor (client: Client)
      ensures this.client == client
    {
      this.client := client;
    }

    method Reconcile() returns (res: Outcome)
      requires client.request.ForProvider? && client.Valid(PrAt(PIdle))
      modifies client
      ensures client.Valid(PrAt(PIdle)) && old(client.trace) <= client.trace && client.passes == old(client.passes) + 1
      ensures res == client.result
    {
      var found := client.FetchProvider(PIdle);
      match found {
        case NotFound => return Done;
        case Failed => return Error;
        case Found(provider) =>
          if provider.deleting {
            res := Finish(provider);
            return;
          }
          var current := provider;
          if current.phase.Unset? {
            var marked := client.PutProviderStatus(current, Reconciling, PInit(current));
            if !marked { return Error; }
            var again := client.FetchProvider(PRefetch);
            if !again.Found? { return Error; }
            current := again.value;
          }
          if PROVIDER_FINALIZER !in current.finalizers {
            var claimed := client.PutProviderObject(
              current.(finalizers := current.finalizers + {PROVIDER_FINALIZER}), PClaim(current));
            return if claimed then Requeue else Error;
          }
          var ok := client.PutProviderStatus(current, Reconciled, PAnnounce(current));
          return if ok then Done else Error;
      }
    }

    method Finish(provider: Provider) returns (res: Outcome)
      requires client.request.ForProvider? && client.Valid(PrAt(PList(provider)))
      modifies client
      ensures client.Valid(PrAt(PIdle)) && old(client.trace) <= client.trace && client.passes == old(client.passes) && res == client.result
    {
      var listed := client.List(client.request.p.key.name, PList(provider));
      if listed.None? { return Error; }
      var items := listed.value;
      for i := 0 to |items|
        invariant client.Valid(PrAt(Deleting(provider, items, i)))
        invariant old(client.trace) <= client.trace && client.passes == old(client.passes)
        invariant items == [] ==> client.result == Done
      {
        var ok := client.DeleteListed(items[i], PDelete(provider, items, i));
        if !ok { return Error; }
      }
      for i := 0 to |items|
        invariant client.Valid(PrAt(Checking(provider, items, i)))
        invariant old(client.trace) <= client.trace && client.passes == old(client.passes)
        invariant i == |items| ==> client.result == Done
      {
        var still := client.CheckListed(items[i], PCheck(provider, items, i));
        if still.Found? { return Requeue; }
      }
      if PROVIDER_FINALIZER in provider.finalizers {
        var ok := client.PutProviderObject(
          provider.(finalizers := provider.finalizers - {PROVIDER_FINALIZER}), PRelease(provider, items));
        return if ok then Done else Error;
      }
      return Done;
    }
  }
}
