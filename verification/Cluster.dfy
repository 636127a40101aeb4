/** The API server the controllers talk to: custom resources with a resource
    version, a deletion timestamp and finalizers, the objects the operator makes
    for an identity, and the records kept by external identity providers.

    One counter hands out both UIDs and resource versions, so neither is ever
    reused.  A write that would change nothing is not stored and does not take a
    new version. */
module Cluster {

  datatype Option<+T> = None | Some(value: T)

  /** The three outcomes of a read.  The controllers treat the last two alike in
      some places and differently in others. */
  datatype Reply<+T> = Found(value: T) | NotFound | Failed

  datatype Key = Key(ns: string, name: string)

  datatype Kind = Vault | Azure | Kubernetes | Aws
  datatype ProviderKey = ProviderKey(kind: Kind, key: Key)

  /** What a helper object is built from: the kind and the provider's spec. */
  datatype Backend = Backend(kind: Kind, endpoint: string)

  /** Something exists for identity `key` at `backend`. */
  datatype Record = Record(backend: Backend, key: Key)

  /** The single "Available" condition: absent, Unknown or True. */
  datatype Phase = Unset | Reconciling | Reconciled

  datatype Identity = Identity(
    uid: nat, rv: nat, deleting: bool, finalizers: set<string>, labels: map<string, string>,
    provider: string, phase: Phase, statusProvider: string, metadata: map<string, string>)

  datatype Provider = Provider(
    uid: nat, rv: nat, deleting: bool, finalizers: set<string>,
    endpoint: string, phase: Phase, issuer: string)

  /** The objects made on behalf of an identity.  `Binding(ns, a)` is the role
      binding whose name is BindingName(a); see BindingNameInjective. */
  datatype Ref = Account(ns: string, name: string) | Role(ns: string) | Binding(ns: string, account: string)
  datatype Content = Plain | PolicyReader | Bind(subject: string, role: string)
  datatype Dependent = Dependent(uid: nat, owner: Option<nat>, content: Content)

  datatype Store = Store(
    ids: map<Key, Identity>, providers: map<ProviderKey, Provider>, deps: map<Ref, Dependent>,
    ext: set<Record>, clock: nat)

  const IDENTITY_FINALIZER := "identity.aegis.aegisproxy.io"
  const PROVIDER_FINALIZER := "idprovider.aegis.aegisproxy.io"
  const PROVIDER_LABEL := "aegis.aegisproxy.io/identity.provider"
  const ROLE_NAME := "ingresspolicy-viewer-role"

  function BindingName(account: string): string {
    account + "-" + ROLE_NAME
  }

  lemma BindingNameInjective(a: string, b: string)
    requires BindingName(a) == BindingName(b)
    ensures a == b
  {
    assert |BindingName(a)| == |a| + 1 + |ROLE_NAME|;
    assert a == BindingName(a)[..|a|] && b == BindingName(b)[..|b|];
  }

  function BackendOf(kind: Kind, p: Provider): Backend {
    Backend(kind, if kind.Kubernetes? then "" else p.endpoint)
  }

  function KindName(kind: Kind): string {
    match kind
    case Vault => "hashicorp.vault"
    case Azure => "azure"
    case Kubernetes => "kubernetes"
    case Aws => "aws"
  }

  // ---------------------------------------------------------------- writes

  /** Stores `obj` over the current object.  Losing the last finalizer of an
      object under deletion removes it. */
  function PutIdentity(s: Store, k: Key, obj: Identity): Store
    requires k in s.ids
  {
    if obj == s.ids[k] then s
    else if obj.deleting && obj.finalizers == {} then s.(ids := s.ids - {k}, clock := s.clock + 1)
    else s.(ids := s.ids[k := obj.(rv := s.clock)], clock := s.clock + 1)
  }

  predicate Current(s: Store, k: Key, obj: Identity) {
    k in s.ids && s.ids[k].uid == obj.uid && s.ids[k].rv == obj.rv
  }

  /** PUT of the main resource: spec and metadata only.  A stale version or UID
      conflicts, and an object under deletion takes no new finalizer. */
  function UpdateIdentity(s: Store, k: Key, obj: Identity): Option<Store> {
    if !Current(s, k, obj) || (s.ids[k].deleting && !(obj.finalizers <= s.ids[k].finalizers)) then None
    else
      Some(PutIdentity(s, k,
        s.ids[k].(finalizers := obj.finalizers, labels := obj.labels, provider := obj.provider)))
  }

  /** PUT of the status subresource. */
  function UpdateIdentityStatus(s: Store, k: Key, obj: Identity): Option<Store> {
    if !Current(s, k, obj) then None
    else
      Some(PutIdentity(s, k,
        s.ids[k].(phase := obj.phase, statusProvider := obj.statusProvider, metadata := obj.metadata)))
  }

  /** DELETE: with finalizers left it only sets the deletion timestamp. */
  function DeleteIdentity(s: Store, k: Key): Option<Store> {
    if k !in s.ids then None
    else Some(PutIdentity(s, k, s.ids[k].(deleting := true)))
  }

  function CreateIdentity(s: Store, k: Key, provider: string, labels: map<string, string>, finalizers: set<string>): Store
    requires k !in s.ids
  {
    var obj := Identity(s.clock, s.clock, false, finalizers, labels, provider, Unset, "", map[]);
    s.(ids := s.ids[k := obj], clock := s.clock + 1)
  }

  function PutProvider(s: Store, p: ProviderKey, obj: Provider): Store
    requires p in s.providers
  {
    if obj == s.providers[p] then s
    else if obj.deleting && obj.finalizers == {} then s.(providers := s.providers - {p}, clock := s.clock + 1)
    else s.(providers := s.providers[p := obj.(rv := s.clock)], clock := s.clock + 1)
  }

  predicate CurrentProvider(s: Store, p: ProviderKey, obj: Provider) {
    p in s.providers && s.providers[p].uid == obj.uid && s.providers[p].rv == obj.rv
  }

  function UpdateProvider(s: Store, p: ProviderKey, obj: Provider): Option<Store> {
    if !CurrentProvider(s, p, obj) || (s.providers[p].deleting && !(obj.finalizers <= s.providers[p].finalizers)) then None
    else Some(PutProvider(s, p, s.providers[p].(finalizers := obj.finalizers, endpoint := obj.endpoint)))
  }

  function UpdateProviderStatus(s: Store, p: ProviderKey, obj: Provider): Option<Store> {
    if !CurrentProvider(s, p, obj) then None
    else Some(PutProvider(s, p, s.providers[p].(phase := obj.phase, issuer := obj.issuer)))
  }

  function DeleteProvider(s: Store, p: ProviderKey): Option<Store> {
    if p !in s.providers then None
    else Some(PutProvider(s, p, s.providers[p].(deleting := true)))
  }

  function CreateProvider(s: Store, p: ProviderKey, endpoint: string, finalizers: set<string>): Store
    requires p !in s.providers
  {
    var obj := Provider(s.clock, s.clock, false, finalizers, endpoint, Unset, "");
    s.(providers := s.providers[p := obj], clock := s.clock + 1)
  }

  function CreateDep(s: Store, ref: Ref, owner: Option<nat>, content: Content): Option<Store> {
    if ref in s.deps then None
    else Some(s.(deps := s.deps[ref := Dependent(s.clock, owner, content)], clock := s.clock + 1))
  }

  // ---------------------------------------------------------------- garbage collection

  predicate Alive(s: Store, uid: nat) {
    || (exists k :: k in s.ids && s.ids[k].uid == uid)
    || (exists r :: r in s.deps && s.deps[r].uid == uid)
  }

  /** The collector may remove an object once its owner is gone. */
  predicate Collectable(s: Store, ref: Ref) {
    ref in s.deps && s.deps[ref].owner.Some? && !Alive(s, s.deps[ref].owner.value)
  }

  function Remove(s: Store, ref: Ref): Store {
    s.(deps := s.deps - {ref})
  }

  // ---------------------------------------------------------------- queries

  predicate Labelled(o: Identity, provider: string) {
    PROVIDER_LABEL in o.labels && o.labels[PROVIDER_LABEL] == provider
  }

  /** What a List by provider label, in any namespace, may return. */
  predicate IsListing(s: Store, provider: string, items: seq<Key>) {
    && (forall i, j :: 0 <= i < j < |items| ==> items[i] != items[j])
    && (forall k :: k in items ==> k in s.ids && Labelled(s.ids[k], provider))
    && (forall k :: k in s.ids && Labelled(s.ids[k], provider) ==> k in items)
  }
}
