# Aegis operator: a verified model

The Aegis operator gives workloads in a Kubernetes cluster an identity at an
external provider (HashiCorp Vault, Azure, AWS, or the cluster itself) and puts a
proxy in front of their traffic. This project models the operator's hard parts in
Dafny and proves what they promise: the finalizer and deletion protocol between
the controllers, the nat rules of the init container, the pod mutation, and the
multi-call writes to Vault and Azure.

`dafny verify dfyconfig.toml` checks everything.

## How the model is laid out

- `Cluster`, `Protocol`: the API server (resource versions, UIDs, finalizers,
  deletion timestamps, separate status writes, owner references, garbage
  collection) and the two controllers as state machines that make one API call per
  step. Each call may succeed, fail, or fail after the server applied it. A world is
  the store plus one program counter per key; users, other controllers, the
  collector and restarts of the manager act between any two calls.
- `Safety`, `Hypotheses`, `WriteOrder`, `Ownership`, `Cascade`, `Convergence`,
  `ProviderSetup`, `ProviderDeletion`, `Liveness`: what holds of all runs of that system, and exactly
  what breaks when a hypothesis is dropped.
- `Controller`: the same controllers as the source writes them, objects whose
  methods read and write a client. Every `Reconcile` is proved to be exactly one
  pass of the state machine, call by call, with arbitrary actions of others in
  between, so the theorems about runs are about this code
  (`NoRecordLeftBehind`, `NothingPublishedTooEarly`).
- `Netfilter`: a nat table, the three scripts as command lists, a shell that goes on
  after a failing command, and a packet evaluator.
- `PodWebhook`, `Admission`, `Resolvers`: the mutating webhook, what it guarantees,
  and how it and the identity controller look for a provider.
- `Slices`, `PodLists`: Go slices over shared backing arrays, and `hasContainer` on
  them.
- `Vault`, `Azure`: the remote stores, the call sequences as functions of how many
  calls got through, and the helpers' methods.
- `Numerals`: decimal numerals.
- `DeepCopy`: the generated deep copies over arrays and a map.

## Where the code is not what one would expect

Each of these is a theorem about the code as it is.

- A failing read of a KubernetesProvider is taken for a hit, so a deletion can go
  through the no-op helper. While the name resolves to the backend that has the
  record, that read is the only one whose failure orphans anything, and only an AWS
  record (`Hypotheses.FailedKubernetesReadOrphans`).
- Editing `spec.provider`, or the address a provider stands for, moves the deletion
  to the wrong place: the record is orphaned if the helper found there accepts the
  deletion, and if it refuses for want of a record, the Identity is stuck (`Hypotheses.WrongHelperOrphans`,
  `Hypotheses.MovedProviderOrphans`).
- Vault and Azure refuse to delete what is gone, so a crash between that deletion
  and the update after it leaves an Identity that no later step removes
  (`Hypotheses.CrashStrands`, `Hypotheses.StrandedForever`).
- The provider's list has no namespace and relies on a label written after the
  record (`ProviderDeletion.ForeignIdentityBlocks`,
  `ProviderDeletion.UnlabelledIsLeftBehind`), and its check takes any error for
  "deleted" (`ProviderDeletion.FailedCheckReleases`).
- A provider's deletion finishes exactly if every identity is finishable when its first
  pass marks it: held by nobody else, resolving in its own namespace, and with a record where the helper
  insists on one (`ProviderDeletion.DeletionFinishes`,
  `ProviderDeletion.UnfinishableBlocks`).
- An account that exists is taken as it is, whoever owns it, so an Identity recreated
  too early ends up published without one (`Hypotheses.EarlyRecreationLosesAccount`).
- Vault roles carry the bare name of the identity, so two namespaces can share them
  (`Vault.SameNameShares`).
- Azure's creation can be taken up again after exactly those failures that do not
  fall between the application and its service principal, or between that and its
  role assignment (`Azure.RetryCompletes`). In the first gap every later call
  indexes an empty list (`Azure.PanicsForEver`), in the second the role id is lost
  (`Azure.RoleIsLost`).
- The two provider resolvers agree unless certain reads fail, and the condition is
  exact (`Resolvers.AgreeUnlessDiverging`).
- For an ingress-only pod the webhook makes sure of an account named aegisproxy, but
  the pod is given the account named default
  (`Admission.FreshPodGetsOneOfEach` with `PodWebhook.AccountName`).

## Model

| member | source | states |
|---|---|---|
| Cluster.BindingNameInjective | internal/controller/identity_controller.go:220 | role bindings of two service accounts never share a name, so a binding can be identified with its account |
| Safety.OwnStep | internal/controller/identity_controller.go:73-205 | whatever a worker's call does, the copy it goes on with agrees with the store wherever its resource version is current, and has the finalizer exactly if the store has |
| Safety.OtherQuiet | internal/controller/identity_controller.go:73-205 | a reconcile of one identity touches neither object nor record of another |
| Safety.ProviderQuiet | internal/controller/hashicorpvaultprovider_controller.go:76-160 | a provider's reconcile does nothing to an identity but mark or remove it, and never its records |
| Safety.BaseKept | internal/controller/identity_controller.go:73-205 | every step of anybody keeps all workers' copies sound, through conflicts, lost replies and restarts |
| Safety.OwnStepCovered | internal/controller/identity_controller.go:89-183 | a worker's call never leaves a record at another backend than its identity's provider, or without the finalizer |
| Safety.InvKept | internal/controller/identity_controller.go:89-155 | the safety invariant is inductive under the stated hypotheses on single steps |
| Safety.RecordImpliesFinalizer | internal/controller/identity_controller.go:89-183 | over every run in which lookups that find a provider find the same one, an external record implies that its Identity exists, carries the finalizer, and has its provider at the backend of the record |
| Safety.FreshStart | internal/controller/identity_controller.go:73-205 | every cluster the operator has not touched satisfies the invariant |
| Safety.NoKubernetesRecords | internal/identity/kubernetes/identity.go:22-32 | no call of a worker makes a record for the Kubernetes helper |
| Hypotheses.WrongHelperOrphans | internal/controller/identity_controller.go:89-114 | a deletion with any provider reads failing orphans the record if and only if the lookup ends in another helper, of whatever kind, that does not refuse |
| Hypotheses.FailedKubernetesReadOrphans | internal/controller/identity_controller.go:294-316 | while the name resolves to the record's backend, failing reads orphan the record if and only if it is AWS's and the KubernetesProvider read fails after Vault and Azure were not found |
| Hypotheses.MovedProviderOrphans | internal/controller/identity_controller.go:89-114 | without failing reads, a name that has come to stand for another backend of any kind orphans the record if and only if the helper found accepts the deletion, and otherwise nothing changes |
| Hypotheses.StableRunIsBenign | internal/controller/identity_controller.go:276-328 | the hypothesis of the safety theorem holds if at every read of a lookup the name resolves to its home or to nothing and the lookup is not overtaken; other kinds may bear the name too |
| Hypotheses.StolenFinalizerOrphans | internal/controller/identity_controller.go:104-113 | the record is orphaned as soon as somebody else takes the finalizer off |
| Hypotheses.CrashStrands | internal/controller/identity_controller.go:97-113 | a crash between DeleteIdentity and the finalizer update leaves a finalizer without a record |
| Hypotheses.StrandedForever | internal/identity/azure/identity.go:428-430 | such an Identity stays under deletion in the store over every later run, because the helper fails on a missing record |
| Hypotheses.EarlyRecreationLosesAccount | internal/controller/utils.go:48-54 | an Identity created while its predecessor's account waits to be collected reaches its goal with that account, and then loses it while still published |
| WriteOrder.OwnStepOrder | internal/controller/identity_controller.go:136-201 | each call of Reconcile leaves the objects of the stages it has passed in place and publishes nothing before they exist |
| WriteOrder.CollectKeeps | internal/controller/utils.go:63 | garbage collection never takes anything a live identity relies on |
| WriteOrder.OrderKept | internal/controller/identity_controller.go:136-201 | the write-order invariant is inductive under the stated hypotheses |
| WriteOrder.PublishedMeansComplete | internal/controller/identity_controller.go:136-201 | over every run non-empty status metadata implies label, service account, reader role and both bindings with the operator's content, and the finalizer unless deleting |
| Ownership.UntouchedStart | internal/controller/identity_controller.go:136-201 | a cluster before the operator's first step satisfies the write-order and ownership invariants |
| Ownership.FromUntouched | internal/controller/identity_controller.go:136-201 | so over every orderly run from there, published metadata means complete and owner edges have their shape |
| Ownership.EdgesOnEveryRun | internal/controller/identity_controller.go:157-181 | over every run UIDs are unique and owner references go only from account to identity, from a binding to its account, and from the role to the default account |
| Ownership.BindingAfterRole | internal/controller/identity_controller.go:207-250 | a call that creates a role binding finds a role older than the binding and binds exactly that account to it |
| Cascade.NewOwners | internal/controller/utils.go:63 | whatever object a worker's call adds has its right owner: the account its identity, the binding that account, the role the default account, the default binding nobody; and nothing else is added |
| Cascade.MadeAndCollected | internal/controller/identity_controller.go:157-181 | two calls make account and binding so owned that once the Identity is gone a collector, in any order, takes exactly these two |
| Ownership.ExactCascade | internal/controller/utils.go:43-78 | once an Identity is gone the collector, in any order, removes nothing but the account it owns and the binding that account owns, and when it has settled exactly those |
| Ownership.OthersSurvive | internal/controller/identity_controller.go:170-181 | the shared role, the default account and its binding, and other identities' objects are never collected with it |
| Convergence.RankFalls | internal/controller/identity_controller.go:73-205 | every API call, whatever its outcome, shortens what is left of Reconcile, so each Reconcile terminates |
| Convergence.SettleIsRun | internal/controller/identity_controller.go:73-205 | a fault-free Reconcile is a run of the protocol of bounded length that ends idle |
| Convergence.FindSettles | internal/controller/identity_controller.go:276-328 | the lookup chain ends with the helper of the first kind that holds the name |
| Convergence.FirstCallClaims | internal/controller/identity_controller.go:121-147 | without the finalizer the first call adds it, marks a new identity Reconciling, changes nothing else in the store, and asks for another call |
| Convergence.FailuresAreReported | internal/controller/identity_controller.go:80-202 | a failing call that ends Reconcile is returned as an error, and only an accepted claim asks for another call |
| Convergence.ClaimedReachesGoal | internal/controller/identity_controller.go:149-204 | with the finalizer one call reaches status, objects, record, label and metadata, and reports success |
| Convergence.GoalIsStable | internal/controller/identity_controller.go:121-204 | from there a further Reconcile leaves the whole store equal |
| Convergence.TwoCallsConverge | internal/controller/identity_controller.go:121-204 | from any live Identity with a provider and a default account, two calls reach the goal and every later call is the identity on the store |
| ProviderDeletion.PastOf | internal/controller/hashicorpvaultprovider_controller.go:80-103 | where the provider's reconciler stands tells which identities listed by the pass under way were absent since that list, over any interleaving |
| ProviderDeletion.ReleasedAfterAbsence | internal/controller/hashicorpvaultprovider_controller.go:80-117 | the finalizer goes only at a release whose own pass listed certain identities, in any namespace, each of which was absent between that list and the release |
| ProviderDeletion.AbsentMeansCleanedUp | internal/controller/hashicorpvaultprovider_controller.go:96-103 | at that moment no provider had a record of the identity either |
| ProviderDeletion.PRankFalls | internal/controller/hashicorpvaultprovider_controller.go:59-161 | every call of a provider's Reconcile shortens it, both loops included |
| ProviderDeletion.PFailuresAreReported | internal/controller/hashicorpvaultprovider_controller.go:66-158 | a failing call that ends a provider's Reconcile is returned as an error, a failing check alone excepted |
| ProviderDeletion.DeletionReturns | internal/controller/hashicorpvaultprovider_controller.go:96-117 | a deletion pass asks to be repeated exactly if a listed identity is still there when it ends |
| ProviderSetup.PassEnds | internal/controller/hashicorpvaultprovider_controller.go:120-160 | one pass of a live provider claims it and asks for another, or marks it reconciled and is done; a new one is first marked Reconciling |
| ProviderSetup.TwoPassesSetUp | internal/controller/kubernetesprovider_controller.go:64-172 | from any live provider two passes end with the finalizer held and the status Reconciled, the Kubernetes kind with its issuer, and every later pass leaves the store equal |
| ProviderSetup.MarkedIsHeld | internal/controller/hashicorpvaultprovider_controller.go:137-158 | over every run in which nobody else takes the finalizer off, a live provider marked Reconciled has it, and a DELETE only marks it |
| ProviderSetup.NewProviders | internal/controller/hashicorpvaultprovider_controller.go:120-158 | every cluster with new providers satisfies the invariant behind that |
| ProviderDeletion.CheckLoop | internal/controller/hashicorpvaultprovider_controller.go:96-103 | the check loop stops without effect exactly if a listed identity is still there |
| ProviderDeletion.MarkedIsFinished | internal/controller/identity_controller.go:95-119 | one Reconcile removes a marked Identity and its record if and only if nobody else holds it, its provider is found, and the helper is lenient or has the record; otherwise it stays, unfinishable |
| ProviderDeletion.MeasureFalls | internal/controller/hashicorpvaultprovider_controller.go:76-118 | whichever identity or the provider is reconciled, what remains never grows, and exactly the effective Reconciles take one away |
| ProviderDeletion.FirstPassDooms | internal/controller/hashicorpvaultprovider_controller.go:88-95 | the first pass removes or marks every listed identity and no other, and changes nothing about who is finishable |
| ProviderDeletion.AnyOrder | internal/controller/hashicorpvaultprovider_controller.go:76-118 | over any sequence of Reconciles exactly the finishable identities that had one are gone |
| ProviderDeletion.DeletionFinishes | internal/controller/hashicorpvaultprovider_controller.go:76-118 | whatever the order of Reconciles, unrelated ones included: once each listed identity had one, the next pass releases the provider if and only if all of them were finishable |
| ProviderDeletion.UnfinishableBlocks | internal/controller/hashicorpvaultprovider_controller.go:96-103 | while one listed identity is unfinishable neither it nor the provider goes, over any sequence of Reconciles |
| Liveness.LeftShrinks | internal/controller/hashicorpvaultprovider_controller.go:80-83 | no action of anybody, failing or not, adds to the labelled identities unless it writes the label onto one that lacks it |
| Liveness.LeftOnRun | internal/controller/hashicorpvaultprovider_controller.go:80-83 | so over whole runs with faults and crashes the identities a provider waits for only get fewer |
| Liveness.StepKeepsFinishable | internal/controller/identity_controller.go:96-201 | wherever its worker stands, a finishable identity under deletion is finishable after the worker's next call |
| Liveness.DrainAndFinish | internal/controller/identity_controller.go:73-205 | from any point of a Reconcile in flight, its end and one more Reconcile remove the identity and touch no other |
| Liveness.MakeRecord | internal/controller/identity_controller.go:121-204 | a live identity whose record is still to be made gets it from the end of the Reconcile in flight and one more |
| Liveness.ReleaseInReach | internal/controller/hashicorpvaultprovider_controller.go:76-118 | from every world with a finalized provider under deletion whose labelled identities the operator can end, with arbitrary program counters, calls without faults lead to the release |
| Liveness.DeletionNeverDeadlocks | internal/controller/hashicorpvaultprovider_controller.go:76-118 | after any run with faults, lost replies and crashes no more identities are waited for than at its start, and the run can be carried on to the release |
| ProviderDeletion.ReadableUntilReleased | internal/controller/hashicorpvaultprovider_controller.go:105-116 | over every run a finalized provider stays in the store until its own reconciler's release |
| ProviderDeletion.UnresolvedIsStuck | internal/controller/identity_controller.go:89-93 | an Identity whose provider cannot be found is changed by no Reconcile in which no read fails |
| Resolvers.UnresolvedMoves | internal/controller/identity_controller.go:294-316 | with failing reads it is moved on exactly if the KubernetesProvider read fails after Vault and Azure were not found |
| ProviderDeletion.OwnNamespaceResolves | internal/controller/identity_controller.go:276-328 | an identity of the provider's own namespace that names it always resolves while it is there |
| ProviderDeletion.ForeignIdentityBlocks | internal/controller/hashicorpvaultprovider_controller.go:81-83 | a listed identity of another namespace that holds a finalizer and finds no provider there blocks the provider over any sequence of Reconciles, whatever else is listed |
| ProviderDeletion.UnlabelledIsLeftBehind | internal/controller/identity_controller.go:183-193 | an identity with a record but no label is not listed, and is stuck once the provider is gone |
| ProviderDeletion.FailedCheckReleases | internal/controller/hashicorpvaultprovider_controller.go:99 | a failing check releases the provider although the identity is still there |
| Controller.TwinOthers | internal/controller/identity_controller.go:73-205 | the actions of others look the same to the code and to the machine it is compared with |
| Controller.IdentityReconciler.Reconcile | internal/controller/identity_controller.go:73-205 | one call extends the run by exactly one pass of the machine, interleaved with anything, and returns its result |
| Controller.IdentityReconciler.FindProvider | internal/controller/identity_controller.go:276-328 | the nested reads end where the machine's lookup ends, for every outcome of every read |
| Controller.IdentityReconciler.Finish | internal/controller/identity_controller.go:96-119 | deletion: record first, then the finalizer, as the machine does |
| Controller.IdentityReconciler.Establish | internal/controller/identity_controller.go:149-204 | creation: status, account, bindings, record, label, metadata in the machine's order |
| Controller.IdentityReconciler.BindRoleToServiceAccount | internal/controller/identity_controller.go:207-274 | role before binding, owned by the account read, with and without ownership |
| Controller.IdentityReconciler.EnsureResourceExists | internal/controller/utils.go:14-78 | an existing object is left alone, a failing read is an error, only a missing object is created, with the controller reference asked for |
| Controller.ProviderReconciler.Reconcile | internal/controller/hashicorpvaultprovider_controller.go:59-161 | one call extends the run by exactly one pass of the provider's machine and returns its result |
| Controller.ProviderReconciler.Finish | internal/controller/hashicorpvaultprovider_controller.go:76-118 | the delete loop, the check loop and the release, index by index |
| Controller.NoRecordLeftBehind | internal/controller/identity_controller.go:89-183 | the store that code sees never has a record without an Identity that still owes its deletion |
| Controller.NothingPublishedTooEarly | internal/controller/identity_controller.go:136-201 | nor published metadata without everything a pod relies on |
| Netfilter.WalkUnique | internal/controller/iptables.sh:16-32 | the evaluation of a packet does not depend on how acyclicity of the jumps is certified |
| Netfilter.NatTable.Shell | internal/controller/podwebhook_webhook.go:333-337 | the table in place after a script equals the fold of its commands, failing ones skipped |
| Netfilter.EgressAsWritten | internal/controller/iptables-egress.sh:4-17 | the egress script, command by command |
| Netfilter.IngressAsWritten | internal/controller/iptables-ingress.sh:4-25 | the ingress script, command by command |
| Netfilter.CombinedAsWritten | internal/controller/iptables.sh:7-34 | the combined script, command by command |
| Netfilter.ScriptInstalls | internal/controller/iptables.sh:7-32 | whatever the table held, a script leaves exactly its own rules in its own chains and all other chains empty |
| Netfilter.InstalledLayered | internal/controller/iptables.sh:10-32 | the jumps of an installed script are acyclic |
| Netfilter.ScriptTerminates | internal/controller/iptables.sh:10-32 | after a script every packet's traversal ends |
| Netfilter.ScriptMeetsIntent | internal/controller/iptables.sh:15-32 | for every prior table, packet and built-in chain the verdict is the intended one: others' outbound TCP to the out port, TCP to the application port to the in port, nothing else |
| Netfilter.CombinedIsBoth | internal/controller/iptables-ingress.sh:11-22 | the combined script equals the egress script on OUTPUT and the ingress script on PREROUTING, second OUTPUT jump included |
| Netfilter.RerunChangesNothing | internal/controller/iptables-egress.sh:4-17 | a script repeated over its own result leaves the same table, and no packet's verdict changes |
| Netfilter.LaterScriptWins | internal/controller/iptables-ingress.sh:4-22 | leftovers of another script have no influence |
| PodWebhook.Pod.HasContainer | internal/controller/podwebhook_webhook.go:478-485 | true exactly if one of the two lists holds the name |
| PodWebhook.Webhook.CopyEnv | internal/controller/podwebhook_webhook.go:286-295 | the triple loop yields the OTEL variables of all containers in order, then the AEGIS ones |
| PodWebhook.Webhook.FindProviderTypeByName | internal/controller/podwebhook_webhook.go:455-476 | the first kind whose read succeeds, any failure moving on |
| PodWebhook.Webhook.GetProviderArgs | internal/controller/podwebhook_webhook.go:351-453 | the provider's arguments or the reason of the first read that fails, every read with a reply of its own |
| PodWebhook.Webhook.InjectProxy | internal/controller/podwebhook_webhook.go:215-349 | whatever each of its reads gives, on an error the pod is untouched, otherwise it gained what was missing and nothing else |
| PodWebhook.Webhook.Default | internal/controller/podwebhook_webhook.go:129-212 | all or nothing, whatever each single read gives: the pod as Admit decides or an error and the pod as it was; the one account is created exactly for an ingress-only pod that lacks it |
| PodWebhook.Webhook.EnsureAegisProxyServiceAccount | internal/controller/utils.go:80-108 | creates the account only if it is missing |
| Admission.SettledPodUnchanged | internal/controller/podwebhook_webhook.go:251-301 | a pod with both containers is never changed, whatever the store holds |
| Admission.AdmitIdempotent | internal/controller/podwebhook_webhook.go:129-212 | on CREATE and then on UPDATE: applied twice equals once |
| Admission.AdmitConserves | internal/controller/podwebhook_webhook.go:296-345 | containers, init containers and volumes stay a prefix, at most one of each is added |
| Admission.FreshPodGetsOneOfEach | internal/controller/podwebhook_webhook.go:251-347 | a pod with none gets exactly one proxy, init container and token volume, and the proxy's mount resolves |
| Admission.EnvCopiedOnce | internal/controller/podwebhook_webhook.go:67 | as a multiset the copied variables are those with either prefix, each as often as it occurs |
| Admission.FilterInOrder | internal/controller/podwebhook_webhook.go:286-295 | each of the two copies keeps the variables in order |
| Admission.AnnotationsDecide | internal/controller/podwebhook_webhook.go:146-191 | from the annotations alone: whether there is a proxy, of which of the three types, for which identity, provider, policy and port, and exactly when each refusal occurs |
| Admission.AdmittedExactly | internal/controller/podwebhook_webhook.go:129-349 | a pod is admitted if and only if the objects its annotations name can be read, with an id for aws and azure egress and an account for ingress |
| Admission.ProviderArgsAreOwn | internal/controller/podwebhook_webhook.go:380-449 | address, issuer, region, tenant and identity id are those of the objects named, each under its flag |
| Admission.InjectedOptions | internal/controller/podwebhook_webhook.go:252-328 | read as the proxy reads them, the injected arguments are exactly the type, ports, token, identity, policy and provider that annotations and objects call for; so are the copied environment and the token's audience |
| Admission.ScriptArguments | internal/controller/podwebhook_webhook.go:193-205 | what Default formats into each script parses as the proxy's user and ports and the annotated port |
| Admission.InjectedTraffic | internal/controller/podwebhook_webhook.go:146-274 | for every prior nat table and packet, what the egress, ingress and port annotations ask for happens, past exactly the injected proxy's RunAsUser and to its --inport and --outport |
| Admission.EgressAccountIsReal | internal/controller/podwebhook_webhook.go:407-446 | an admitted egress pod on an aws or azure identity names an account that exists and is bound |
| Admission.StatusNamesProvider | internal/controller/podwebhook_webhook.go:229-233 | with an up-to-date Status.Provider the provider object is found |
| Resolvers.ControllerKindIsFindProvider | internal/controller/identity_controller.go:276-328 | in closed form, the helper the controller's chain of reads ends with or that it fails |
| Resolvers.PickedIsResolved | internal/controller/identity_controller.go:276-328 | whatever reads fail, that helper is the one the store resolves the name to, or the lookup fell back on the no-op helper in one named case |
| Resolvers.AgreeUnlessDiverging | internal/controller/podwebhook_webhook.go:455-476 | both resolvers pick the same kind, or none, if and only if no read fails in one of three listed ways |
| Resolvers.TruthfulReadsAgree | internal/controller/identity_controller.go:276-328 | with reads that find or do not find, both agree on every store and fail exactly if no kind holds the name |
| Slices.Append | internal/controller/podwebhook_webhook.go:479 | append writes only the spare capacity behind the slice or a new array |
| PodLists.Lists.HasContainer | internal/controller/podwebhook_webhook.go:478-485 | for every length and capacity the aliasing append changes no visible element, and the answer is right |
| PodLists.Lists.Inject | internal/controller/podwebhook_webhook.go:251-344 | checks and appends over growing slices give the lists the value-level mutation gives |
| PodLists.SharedArray | internal/controller/podwebhook_webhook.go:479 | were both lists in one array, the init containers would survive the check exactly if equal elements were written over them |
| Vault.CreatingAgain | internal/identity/hashicorpvault/identity.go:113-187 | a complete run after a run cut off at any call leaves what one complete run leaves |
| Vault.CreateIsResumable | internal/identity/hashicorpvault/identity.go:113-187 | so does one after any number of cut-off runs, and it returns the same metadata |
| Vault.CreatedIsComplete | internal/identity/hashicorpvault/identity.go:113-187 | a complete run leaves the entity with its name and namespace, the alias that leads to it, and both roles for the subject; on a server without them no shorter run does |
| Vault.MetadataNamesEntity | internal/identity/hashicorpvault/identity.go:181-185 | the metadata gives back the entity's id, the provider and the helper's address |
| Vault.CreateThenDeleteRestores | internal/identity/hashicorpvault/identity.go:64-187 | create then delete gives back a server that had nothing of the identity, ids apart |
| Vault.DeleteIsResumable | internal/identity/hashicorpvault/identity.go:73-102 | a deletion broken off anywhere before the entity itself goes can be completed by running it again |
| Vault.DeleteAgainFails | internal/identity/hashicorpvault/identity.go:88-91 | a completed deletion, repeated, fails |
| Vault.DeleteClears | internal/identity/hashicorpvault/identity.go:64-111 | a completed deletion leaves neither role, no entity, and no alias that leads to it |
| Vault.RecordFromFirstToLast | internal/identity/hashicorpvault/identity.go:64-187 | something of the identity is on the server from the first call of a creation to the last of a deletion, which is what the controllers' model calls a record |
| Vault.SubjectInjective | internal/identity/hashicorpvault/identity.go:116 | system:serviceaccount:ns:name determines ns and name for namespaces that are DNS labels (RFC 1123, section 2.1) |
| Vault.CreateTouchesNoOther | internal/identity/hashicorpvault/identity.go:113-187 | no prefix of a creation changes anything of an identity of another name, and the server's invariants are kept |
| Vault.DeleteTouchesNoOther | internal/identity/hashicorpvault/identity.go:64-111 | nor does a deletion, finished, broken off anywhere, or without an entity to delete |
| Vault.SameNameShares | internal/identity/hashicorpvault/identity.go:139 | of two identities of one name the later takes over the roles, and deleting either removes both's |
| Vault.IdentityHelper.CreateIdentity | internal/identity/hashicorpvault/identity.go:113-187 | success is a complete run with its metadata; any failure leaves the server after some prefix of the calls |
| Vault.IdentityHelper.DeleteAliases | internal/identity/hashicorpvault/identity.go:93-100 | the loop removes exactly the aliases it got through |
| Vault.IdentityHelper.DeleteIdentity | internal/identity/hashicorpvault/identity.go:64-111 | success is a complete deletion; a failure is resumable or has finished; without failing calls it fails exactly if there is no entity |
| Azure.CutTenant | internal/identity/azure/identity.go:174-281 | for a new subject a run cut off after n writes leaves precisely the first n of application, principal, assignment, credential |
| Azure.CreateFromNothing | internal/identity/azure/identity.go:96-145 | a complete run on a new subject leaves exactly one of each, tied together, and returns their ids |
| Azure.CreateAgain | internal/identity/azure/identity.go:159-240 | on a complete tenant a further call writes nothing and returns the same, whatever the helper's fields, even for another issuer |
| Azure.CreateUsesFirst | internal/identity/azure/identity.go:218-235 | of several applications of the subject the first and its first principal are used, and none is created |
| Azure.RepeatedCreate | internal/identity/azure/identity.go:96-282 | after any number of calls, at least one, there is one application, principal, self assignment and credential, and every call returned the same metadata |
| Azure.PanicsForEver | internal/identity/azure/identity.go:234 | a call indexes an empty list exactly if the application has no principal, and changes nothing, so it stays so |
| Azure.RoleIsLost | internal/identity/azure/identity.go:263-275 | with a principal but no assignment a new helper fails or assigns no role |
| Azure.RetryCompletes | internal/identity/azure/identity.go:148-251 | a retry by a new helper ends as one whole run if and only if the failure was not right after the application or right after the principal |
| Azure.CreateKeepsOthers | internal/identity/azure/identity.go:151-240 | no prefix of a creation changes an application of another display name, or an existing principal or assignment |
| Azure.DeleteTakesOnlyOwn | internal/identity/azure/identity.go:398-443 | a deletion takes exactly the first application of the subject with its principals and their assignments, and leaves those of every other application |
| Azure.CreateThenDeleteRestores | internal/identity/azure/identity.go:398-443 | create then delete gives back the tenant, ids apart, and a second deletion fails |
| Azure.IdentityHelper.AddAppRoleAssignment | internal/identity/azure/identity.go:253-282 | an existing assignment is taken over, otherwise the helper's role is assigned, failures leaving a prefix of the writes |
| Azure.IdentityHelper.EnsureAppRegistration | internal/identity/azure/identity.go:148-251 | fields and tenant are where the specified run stops, with every failure at one of its cuts |
| Azure.IdentityHelper.CreateFederatedIdentityCredential | internal/identity/azure/identity.go:349-392 | the search loop creates a credential only if none has the name |
| Azure.IdentityHelper.CreateIdentity | internal/identity/azure/identity.go:96-145 | without failing calls it ends as the whole run, otherwise the tenant is that of some prefix of it |
| Azure.IdentityHelper.DeleteIdentity | internal/identity/azure/identity.go:398-443 | deletes the first application of the name, and fails without effect if there is none |
| DeepCopy.CopyRule | api/v1/zz_generated.deepcopy.go:634-651 | equal value, nil lists nil, every list in an array of its own |
| DeepCopy.CopyRules | api/v1/zz_generated.deepcopy.go:494-503 | the loop over the rules: equal to the bottom, all arrays new, and no two lists of the copy share one even if the original's did |
| DeepCopy.IngressPolicy.DeepCopyInto | api/v1/zz_generated.deepcopy.go:435-441 | the copy equals the original, shares no array with it, and the original is untouched |
| DeepCopy.WriteList | api/v1/zz_generated.deepcopy.go:634-651 | an element of any list written through the copy or through the original leaves the other as it was, and in a copy changes that list of that rule only |
| DeepCopy.CopyMap | api/v1/zz_generated.deepcopy.go:415-421 | the key loop yields an equal map behind a new reference |
| DeepCopy.IdentityStatus.DeepCopyInto | api/v1/zz_generated.deepcopy.go:406-422 | equal value, nil kept nil, no shared array or map |
| DeepCopy.CopyThenWrite | api/v1/zz_generated.deepcopy.go:415-421 | entries written through original and copy do not reach each other |

## Left out

- Convergence.TwoCallsConverge: the helper returns the same metadata each time it is called; Vault and Azure are shown to do so in their own modules.
- ProviderDeletion.DeletionFinishes: counts in whole fault-free Reconciles, where the helper itself may still refuse. Liveness.DeletionNeverDeadlocks is about single calls and any faults before; that the scheduler goes on calling, and that faults cease, is assumed there.
- Admission.InjectedTraffic: the port annotation is a decimal numeral; a malformed one makes iptables reject that command, which is not modelled.
- Admission.AdmitIdempotent: one fixed set of replies, though each read of a request has its own.
- Vault.CreateTouchesNoOther: the jwt mount's aliases belong to the entities of their own names to begin with, which every call then keeps.
- DeepCopy.IngressPolicy.DeepCopyInto: TypeMeta and ObjectMeta are one value, their copying is library code.
- PodLists.Lists.HasContainer: the two lists do not overlap in one array, as a decoded pod's do not; PodLists.SharedArray says what would happen otherwise.
- The Azure, AWS and Kubernetes provider controllers are the Vault one with another kind; the issuer the Kubernetes one reads from a file is a parameter.
- The AWS helper is lenient; that it sends an empty id for an Identity that was never published is not modelled.
- The AWS and Kubernetes identity helpers appear only as record-keeping and no-op helpers behind the common interface.
- The ingress policy controller only sets a status condition; rule enforcement is in the proxy, which is not part of this model.
- Token and issuer files, JWT splitting, JSON, Vault login, Graph and AWS client set-up; a failure there is a failing helper call.
- The jwt auth mount exists in Vault; without it createIdentity panics at internal/identity/hashicorpvault/identity.go:157.
- Tags and audiences of Azure applications and credentials, and the policies, audiences and token settings of Vault roles, are fixed values that nothing else depends on.
- Azure code nobody calls (claims mapping policy, extension property), and Graph listing pages or delays.
- Deleting an Azure application takes its principals with it, as Graph documents; the code relies on it.
- Manager set-up, webhook registration, Handle, logging, YAML and the Makefile.
- Shell text: the scripts start as parsed commands; images, pull policies, requests and the token's expiry in the injected containers.
- Real time, leader election, and caches older than what a resource version conflict rejects.
- Finalizers are a set, ids and versions unbounded, error texts reduced to reasons.
