/** The controller and the webhook each look for the provider of a name.  They ask
    for the same kinds in the same order but treat a failing read differently. */
module Resolvers {
  import opened Cluster
  import opened Protocol
  import opened PodWebhook
  import opened Convergence

  function Reads(v: View, key: Key, kind: Kind): Reply<Provider> {
    v.provider(ProviderKey(kind, key), ForType)
  }

  /** findProvider of the controller, read by read, on the replies of `v`.  The pc
      it ends in is Idle for an error and Dispatch for a helper. */
  function ControllerEnds(v: View, key: Key, kind: Kind, c: Identity): IdPc
    decreases Rank(Find(kind, c))
  {
    var next := AfterRead(kind, c, Reads(v, key, kind));
    if next.Find? && Rank(next) < Rank(Find(kind, c)) then ControllerEnds(v, key, next.kind, c) else next
  }

  function ControllerKind(v: View, key: Key): Option<Kind> {
    var vault, azure, kube, aws := Reads(v, key, Vault), Reads(v, key, Azure), Reads(v, key, Kubernetes), Reads(v, key, Aws);
    if !vault.NotFound? then (if vault.Found? then Some(Vault) else None)
    else if !azure.NotFound? then (if azure.Found? then Some(Azure) else None)
    else if !kube.NotFound? then Some(Kubernetes)
    else if aws.Found? then Some(Aws)
    else None
  }

  function WebhookKind(v: View, key: Key): Option<Kind> {
    var t := FindType(v, key);
    if t.Ok? then Some(t.value) else None
  }

  /** The helper the controller goes on with; a failing KubernetesProvider read
      counts as a hit. */
  function Picked(v: View, key: Key): Option<Backend> {
    var kind := ControllerKind(v, key);
    if kind.None? then None
    else if kind.value.Kubernetes? then Some(Backend(Kubernetes, ""))
    else Some(BackendOf(kind.value, Reads(v, key, kind.value).value))
  }

  /** The closed form is where the chain of reads ends. */
  lemma ControllerKindIsFindProvider(v: View, key: Key, c: Identity)
    ensures ControllerEnds(v, key, Vault, c) == (if Picked(v, key).Some? then Dispatch(c, Picked(v, key).value) else Idle)
    ensures Picked(v, key).Some? <==> ControllerKind(v, key).Some?
    ensures Picked(v, key).Some? ==> Picked(v, key).value.kind == ControllerKind(v, key).value
  {
    var vault, azure, kube, aws := Reads(v, key, Vault), Reads(v, key, Azure), Reads(v, key, Kubernetes), Reads(v, key, Aws);
    assert ControllerEnds(v, key, Aws, c) == AfterRead(Aws, c, aws);
    assert ControllerEnds(v, key, Kubernetes, c) ==
      if kube.NotFound? then AfterRead(Aws, c, aws) else Dispatch(c, Backend(Kubernetes, ""));
    assert azure.NotFound? ==> ControllerEnds(v, key, Azure, c) == ControllerEnds(v, key, Kubernetes, c);
    assert vault.NotFound? ==> ControllerEnds(v, key, Vault, c) == ControllerEnds(v, key, Azure, c);
  }

  /** The failing reads that drive the two apart. */
  predicate Diverge(v: View, key: Key) {
    var vault, azure, kube, aws := Reads(v, key, Vault), Reads(v, key, Azure), Reads(v, key, Kubernetes), Reads(v, key, Aws);
    || (vault.Failed? && (azure.Found? || kube.Found? || aws.Found?))
    || (vault.NotFound? && azure.Failed? && (kube.Found? || aws.Found?))
    || (vault.NotFound? && azure.NotFound? && kube.Failed?)
  }

  /** Exactly when the two pick the same kind, or both none. */
  lemma AgreeUnlessDiverging(v: View, key: Key)
    ensures ControllerKind(v, key) == WebhookKind(v, key) <==> !Diverge(v, key)
  {
  }

  /** A read that gives what is in the store. */
  ghost predicate Truthful(v: View, s: Store, key: Key) {
    forall kind: Kind :: Reads(v, key, kind) ==
      if ProviderKey(kind, key) in s.providers then Found(s.providers[ProviderKey(kind, key)]) else NotFound
  }

  /** ... or fails. */
  ghost predicate Possible(v: View, s: Store, key: Key) {
    forall kind: Kind :: Reads(v, key, kind).Failed? || Reads(v, key, kind) ==
      if ProviderKey(kind, key) in s.providers then Found(s.providers[ProviderKey(kind, key)]) else NotFound
  }

  /** The failing reads that make the controller fall back on the no-op helper. */
  predicate FallsBack(v: View, key: Key) {
    Reads(v, key, Vault).NotFound? && Reads(v, key, Azure).NotFound? && Reads(v, key, Kubernetes).Failed?
  }

  /** Whatever reads fail: the lookup ends with what the store resolves the name to,
      or with an error, or it falls back. */
  lemma PickedIsResolved(v: View, s: Store, key: Key)
    requires Possible(v, s, key)
    ensures FallsBack(v, key) ==> Picked(v, key) == Some(Backend(Kubernetes, ""))
    ensures !FallsBack(v, key) ==> Picked(v, key).None? || Picked(v, key) == Resolve(s, key)
  {
    assert forall kind: Kind :: Reads(v, key, kind).Found? ==> Has(s, kind, key);
    assert forall kind: Kind :: Reads(v, key, kind).NotFound? ==> !Has(s, kind, key);
  }

  /** In particular a name that no provider bears makes the controller move exactly
      if it falls back. */
  lemma UnresolvedMoves(v: View, s: Store, key: Key, c: Identity)
    requires Possible(v, s, key) && Resolve(s, key).None?
    ensures ControllerEnds(v, key, Vault, c) == (if FallsBack(v, key) then Dispatch(c, Backend(Kubernetes, "")) else Idle)
  {
    ControllerKindIsFindProvider(v, key, c);
    PickedIsResolved(v, s, key);
  }

  /** Without failing reads both resolvers agree on every store, with each other
      and with the fault-free run, and find nothing only if nothing is there. */
  lemma TruthfulReadsAgree(v: View, s: Store, key: Key)
    requires Truthful(v, s, key)
    ensures ControllerKind(v, key) == WebhookKind(v, key)
    ensures ControllerKind(v, key) == (if Resolve(s, key).Some? then Some(Resolve(s, key).value.kind) else None)
    ensures ControllerKind(v, key).None? <==> forall kind: Kind :: ProviderKey(kind, key) !in s.providers
  {
    assert Reads(v, key, Vault).Found? <==> ProviderKey(Vault, key) in s.providers;
    assert Reads(v, key, Azure).Found? <==> ProviderKey(Azure, key) in s.providers;
    assert Reads(v, key, Kubernetes).Found? <==> ProviderKey(Kubernetes, key) in s.providers;
    assert Reads(v, key, Aws).Found? <==> ProviderKey(Aws, key) in s.providers;
    if ControllerKind(v, key).None? {
      forall kind: Kind ensures ProviderKey(kind, key) !in s.providers {
        match kind case Vault => case Azure => case Kubernetes => case Aws =>
      }
    }
  }
}
