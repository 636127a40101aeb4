/** The mutating webhook: what it decides about a pod (functions) and how it goes
    about it (methods over the pod in place). */
module PodWebhook {
  import opened Cluster

  const EGRESS_KEY := "aegisproxy.io/egress"
  const INGRESS_KEY := "aegisproxy.io/ingress"
  const PORT_KEY := "aegisproxy.io/ingress.port"
  const IDENTITY_KEY := "aegisproxy.io/identity"
  const POLICY_KEY := "aegisproxy.io/ingress.policy"
  const PROVIDER_KEY := "aegisproxy.io/identity.provider"

  const PROXY := "aegis-proxy"
  const INIT := "aegis-init"
  const PROXY_IDENTITY := "aegisproxy"
  const TOKEN_VOLUME := "satoken"
  const TOKEN_PATH := "/var/run/secrets/tokens"
  const ID_META := "aegis.identity.id"
  const OUT_PORT := "3128"
  const IN_PORT := "3127"
  const USER_ID: nat := 1137

  datatype ProxyType = Egress | Ingress | Both

  function TypeName(t: ProxyType): string {
    match t case Egress => "egress" case Ingress => "ingress" case Both => "ingress-egress"
  }

  /** A script file with the arguments formatted into it. */
  datatype Formatted =
    | EgressText(uid: string, outPort: string)
    | IngressText(uid: string, inPort: string, appPort: string)
    | BothText(uid: string, inPort: string, outPort: string, appPort: string)

  datatype EnvVar = EnvVar(name: string, value: string)
  datatype Mount = Mount(name: string, path: string)
  datatype Container = Container(
    name: string, args: seq<string>, env: seq<EnvVar>, mounts: seq<Mount>, runAs: Option<nat>, script: Option<Formatted>)
  datatype Volume = Volume(name: string, audience: string)

  /** The part of a pod the webhook may change. */
  datatype PodSpec = PodSpec(containers: seq<Container>, inits: seq<Container>, volumes: seq<Volume>, account: string)

  /** What a read is for.  One request may read the same object for several of these,
      each time with another outcome. */
  datatype Use = ForType | ForArgs | ForId

  /** What reads give while one request is handled, and whether the one write works. */
  datatype View = View(
    identity: (Key, Use) -> Reply<Identity>, provider: (ProviderKey, Use) -> Reply<Provider>,
    account: Key -> Reply<bool>, creates: bool)

  datatype Reason = NoIdentity | NoPort | NoProvider | AccountFailed | IdentityFailed | ProviderFailed | NoIdentityId | UnknownType

  datatype Result<+T> = Ok(value: T) | Denied(reason: Reason)

  // ---------------------------------------------------------------- decisions

  datatype Plan = Skip | Inject(proxy: ProxyType, identity: string, provider: string, policy: string, port: string)

  predicate Set(notes: map<string, string>, key: string) {
    key in notes && notes[key] == "true"
  }

  function Note(notes: map<string, string>, key: string): string {
    if key in notes then notes[key] else ""
  }

  function Read(notes: map<string, string>): Result<Plan> {
    var egress, ingress := Set(notes, EGRESS_KEY), Set(notes, INGRESS_KEY);
    if egress && Note(notes, IDENTITY_KEY) == "" then Denied(NoIdentity)
    else if ingress && PORT_KEY !in notes then Denied(NoPort)
    else if ingress && !egress && Note(notes, PROVIDER_KEY) == "" then Denied(NoProvider)
    else if !egress && !ingress then Ok(Skip)
    else Ok(Inject(
      if egress && ingress then Both else if egress then Egress else Ingress,
      if egress then notes[IDENTITY_KEY] else "",
      if egress then "" else notes[PROVIDER_KEY],
      if ingress then Note(notes, POLICY_KEY) else "",
      if ingress then notes[PORT_KEY] else ""))
  }

  function Script(plan: Plan): Formatted
    requires plan.Inject?
  {
    match plan.proxy
    case Egress => EgressText("1137", OUT_PORT)
    case Ingress => IngressText("1137", IN_PORT, plan.port)
    case Both => BothText("1137", IN_PORT, OUT_PORT, plan.port)
  }

  /** findProviderTypeByName: any failing read moves on to the next kind. */
  function FindType(v: View, key: Key): Result<Kind> {
    if v.provider(ProviderKey(Vault, key), ForType).Found? then Ok(Vault)
    else if v.provider(ProviderKey(Azure, key), ForType).Found? then Ok(Azure)
    else if v.provider(ProviderKey(Kubernetes, key), ForType).Found? then Ok(Kubernetes)
    else if v.provider(ProviderKey(Aws, key), ForType).Found? then Ok(Aws)
    else Denied(ProviderFailed)
  }

  function KindNamed(name: string): Option<Kind> {
    if name == "hashicorp.vault" then Some(Vault)
    else if name == "kubernetes" then Some(Kubernetes)
    else if name == "aws" then Some(Aws)
    else if name == "azure" then Some(Azure)
    else None
  }

  function TypeOf(v: View, ns: string, plan: Plan): Result<string>
    requires plan.Inject?
  {
    if plan.proxy.Ingress? then
      var t := FindType(v, Key(ns, plan.provider));
      if t.Ok? then Ok(KindName(t.value)) else Denied(t.reason)
    else
      var i := v.identity(Key(ns, plan.identity), ForType);
      if i.Found? then Ok(i.value.statusProvider) else Denied(IdentityFailed)
  }

  function IdOf(i: Reply<Identity>): Result<string> {
    if !i.Found? then Denied(IdentityFailed)
    else if Note(i.value.metadata, ID_META) == "" then Denied(NoIdentityId)
    else Ok(i.value.metadata[ID_META])
  }

  function ProviderArgs(v: View, ns: string, plan: Plan, typeName: string): Result<seq<string>>
    requires plan.Inject?
  {
    var identity := if plan.proxy.Ingress? then PROXY_IDENTITY else plan.identity;
    var i := v.identity(Key(ns, identity), ForArgs);
    if plan.provider == "" && !i.Found? then Denied(IdentityFailed)
    else
      var name := if plan.provider != "" then plan.provider else i.value.provider;
      var kind := KindNamed(typeName);
      if kind.None? then Denied(UnknownType)
      else
        var p := v.provider(ProviderKey(kind.value, Key(ns, name)), ForArgs);
        if !p.Found? then Denied(ProviderFailed)
        else match kind.value
          case Vault => Ok(["--identity-provider", "hashicorp.vault", "--vault-address", p.value.endpoint])
          case Kubernetes => Ok(["--identity-provider", "kubernetes", "--kubernetes-issuer", p.value.issuer])
          case Aws => WithId(["--aws-region", p.value.endpoint], "--aws-identity-id", v.identity(Key(ns, identity), ForId), plan.proxy)
          case Azure => WithId(["--azure-tenant-id", p.value.endpoint], "--azure-client-id", v.identity(Key(ns, identity), ForId), plan.proxy)
  }

  function WithId(args: seq<string>, flag: string, i: Reply<Identity>, proxy: ProxyType): Result<seq<string>> {
    if proxy.Ingress? then Ok(args)
    else
      var id := IdOf(i);
      if id.Ok? then Ok(args + [flag, id.value]) else Denied(id.reason)
  }

  function AccountName(plan: Plan): string
    requires plan.Inject?
  {
    if plan.identity == "" then "default" else plan.identity
  }

  function Args(plan: Plan, typeName: string, extra: seq<string>): seq<string>
    requires plan.Inject?
  {
    ["run", "--type", TypeName(plan.proxy), "--inport", IN_PORT, "--outport", OUT_PORT,
     "--token", TOKEN_PATH + "/" + "token", "--identity", AccountName(plan), "--identity-provider", typeName, "-vvvvv"]
    + (if plan.policy != "" then ["--policy", plan.policy] else []) + extra
  }

  function Audience(typeName: string): string {
    if typeName == "hashicorp.vault" then "vault"
    else if typeName == "azure" then "api://AzureADTokenExchange"
    else if typeName == "kubernetes" then "kubernetes"
    else if typeName == "aws" then "sts.amazonaws.com"
    else ""
  }

  predicate Named(cs: seq<Container>, name: string) {
    exists i :: 0 <= i < |cs| && cs[i].name == name
  }

  predicate Holds(p: PodSpec, name: string) {
    Named(p.containers, name) || Named(p.inits, name)
  }

  // ---------------------------------------------------------------- the environment

  function WithPrefix(env: seq<EnvVar>, prefix: string): seq<EnvVar>
    decreases |env|
  {
    if env == [] then []
    else (if prefix <= env[0].name then [env[0]] else []) + WithPrefix(env[1..], prefix)
  }

  function AllEnv(cs: seq<Container>): seq<EnvVar>
    decreases |cs|
  {
    if cs == [] then [] else cs[0].env + AllEnv(cs[1..])
  }

  function CopiedEnv(cs: seq<Container>): seq<EnvVar> {
    WithPrefix(AllEnv(cs), "OTEL") + WithPrefix(AllEnv(cs), "AEGIS")
  }

  // ---------------------------------------------------------------- the mutation

  function ProxyContainer(cs: seq<Container>, plan: Plan, typeName: string, extra: seq<string>): Container
    requires plan.Inject?
  {
    Container(PROXY, Args(plan, typeName, extra), CopiedEnv(cs), [Mount(TOKEN_VOLUME, TOKEN_PATH)], Some(USER_ID), None)
  }

  function InitContainer(plan: Plan): Container
    requires plan.Inject?
  {
    Container(INIT, [], [], [], None, Some(Script(plan)))
  }

  function AddProxy(p: PodSpec, plan: Plan, typeName: string, extra: seq<string>): PodSpec
    requires plan.Inject?
  {
    if Holds(p, PROXY) then p
    else p.(containers := p.containers + [ProxyContainer(p.containers, plan, typeName, extra)], account := AccountName(plan))
  }

  function AddInit(p: PodSpec, plan: Plan, typeName: string): PodSpec
    requires plan.Inject?
  {
    if Holds(p, INIT) then p
    else p.(volumes := p.volumes + [Volume(TOKEN_VOLUME, Audience(typeName))],
            inits := p.inits + [InitContainer(plan)], account := AccountName(plan))
  }

  function EnsureAccount(v: View, ns: string): Result<bool> {
    match v.account(Key(ns, PROXY_IDENTITY))
    case Found(_) => Ok(false)
    case Failed => Denied(AccountFailed)
    case NotFound => if v.creates then Ok(true) else Denied(AccountFailed)
  }

  function Injected(ns: string, p: PodSpec, v: View, plan: Plan): Result<PodSpec>
    requires plan.Inject?
  {
    var t := TypeOf(v, ns, plan);
    if t.Denied? then Denied(t.reason)
    else
      var extra := ProviderArgs(v, ns, plan, t.value);
      if extra.Denied? then Denied(extra.reason)
      else Ok(AddInit(AddProxy(p, plan, t.value, extra.value), plan, t.value))
  }

  /** The one kind of pod for which the webhook makes sure of an account. */
  predicate OnlyIngress(notes: map<string, string>) {
    !Set(notes, EGRESS_KEY) && Set(notes, INGRESS_KEY) && PORT_KEY in notes && Note(notes, PROVIDER_KEY) != ""
  }

  /** The verdict on a pod: the pod to admit, or why not. */
  function Admit(ns: string, notes: map<string, string>, p: PodSpec, v: View): Result<PodSpec> {
    var plan := Read(notes);
    if plan.Denied? then Denied(plan.reason)
    else if plan.value.Skip? then Ok(p)
    else if plan.value.proxy.Ingress? && EnsureAccount(v, ns).Denied? then Denied(AccountFailed)
    else Injected(ns, p, v, plan.value)
  }

  // ---------------------------------------------------------------- internal/controller/podwebhook_webhook.go

  class Pod {
    const ns: string
    const notes: map<string, string>
    var containers: seq<Container>
    var inits: seq<Container>
    var volumes: seq<Volume>
    var account: string

    constructor (ns: string, notes: map<string, string>, p: PodSpec)
      ensures this.ns == ns && this.notes == notes && Spec() == p
    {
      this.ns, this.notes := ns, notes;
      containers, inits, volumes, account := p.containers, p.inits, p.volumes, p.account;
    }

    function Spec(): PodSpec
      reads this
    {
      PodSpec(containers, inits, volumes, account)
    }

    /** hasContainer: one loop over both lists. */
    method HasContainer(name: string) returns (found: bool)
      ensures found <==> Holds(Spec(), name)
    {
      var all := containers + inits;
      for i := 0 to |all|
        invariant forall j :: 0 <= j < i ==> all[j].name != name
      {
        if all[i].name == name {
          assert if i < |containers| then containers[i].name == name else inits[i - |containers|].name == name;
          return true;
        }
      }
      assert forall j :: 0 <= j < |containers| ==> containers[j].name == all[j].name;
      assert forall j :: 0 <= j < |inits| ==> inits[j].name == all[|containers| + j].name;
      return false;
    }
  }

  class Webhook {
    const view: View
    var created: seq<Key>

    constructor (view: View)
      ensures this.view == view && created == []
    {
      this.view, created := view, [];
    }

    /** The loop over the prefixes; the two loops inside it are CopyMatching. */
    method CopyEnv(cs: seq<Container>) returns (env: seq<EnvVar>)
      ensures env == CopiedEnv(cs)
    {
      env := [];
      var prefixes := ["OTEL", "AEGIS"];
      for i := 0 to 2
        invariant env == if i == 0 then [] else if i == 1 then WithPrefix(AllEnv(cs), "OTEL") else CopiedEnv(cs)
      {
        ghost var base := env;
        env := CopyMatching(cs, prefixes[i], env);
        assert [] + WithPrefix(AllEnv(cs), "OTEL") == WithPrefix(AllEnv(cs), "OTEL");
      }
    }

    method CopyMatching(cs: seq<Container>, prefix: string, base: seq<EnvVar>) returns (env: seq<EnvVar>)
      ensures env == base + WithPrefix(AllEnv(cs), prefix)
    {
      env := base;
      for j := 0 to |cs|
        invariant env + WithPrefix(AllEnv(cs[j..]), prefix) == base + WithPrefix(AllEnv(cs), prefix)
      {
        assert cs[j..][1..] == cs[j + 1..];
        var own := cs[j].env;
        ghost var rest := AllEnv(cs[j + 1..]);
        assert own[0..] == own;
        for k := 0 to |own|
          invariant env + WithPrefix(own[k..] + rest, prefix) == base + WithPrefix(AllEnv(cs), prefix)
        {
          assert (own[k..] + rest)[0] == own[k] && (own[k..] + rest)[1..] == own[k + 1..] + rest;
          if prefix <= own[k].name {
            env := env + [own[k]];
          }
        }
        assert own[|own|..] + rest == rest;
      }
      assert cs[|cs|..] == [];
    }

    method FindProviderTypeByName(name: string, ns: string) returns (r: Result<Kind>)
      ensures r == FindType(view, Key(ns, name))
    {
      var vault := view.provider(ProviderKey(Vault, Key(ns, name)), ForType);
      if !vault.Found? {
        var azure := view.provider(ProviderKey(Azure, Key(ns, name)), ForType);
        if !azure.Found? {
          var kube := view.provider(ProviderKey(Kubernetes, Key(ns, name)), ForType);
          if !kube.Found? {
            var aws := view.provider(ProviderKey(Aws, Key(ns, name)), ForType);
            if !aws.Found? { return Denied(ProviderFailed); }
            return Ok(Aws);
          }
          return Ok(Kubernetes);
        }
        return Ok(Azure);
      }
      return Ok(Vault);
    }

    method GetProviderArgs(ns: string, plan: Plan, typeName: string) returns (r: Result<seq<string>>)
      requires plan.Inject?
      ensures r == ProviderArgs(view, ns, plan, typeName)
    {
      var identity := "";
      match plan.proxy {
        case Egress => identity := plan.identity;
        case Ingress => identity := PROXY_IDENTITY;
        case Both => identity := plan.identity;
      }
      var name := "";
      if plan.provider != "" {
        name := plan.provider;
      } else {
        var i := view.identity(Key(ns, identity), ForArgs);
        if !i.Found? { return Denied(IdentityFailed); }
        name := i.value.provider;
      }
      var args: seq<string> := [];
      match KindNamed(typeName) {
        case None => return Denied(UnknownType);
        case Some(kind) =>
          var p := view.provider(ProviderKey(kind, Key(ns, name)), ForArgs);
          if !p.Found? { return Denied(ProviderFailed); }
          match kind {
            case Vault => args := ["--identity-provider", "hashicorp.vault", "--vault-address", p.value.endpoint];
            case Kubernetes => args := ["--identity-provider", "kubernetes", "--kubernetes-issuer", p.value.issuer];
            case Aws =>
              args := ["--aws-region", p.value.endpoint];
              if plan.proxy.Egress? || plan.proxy.Both? {
                var i := view.identity(Key(ns, identity), ForId);
                if !i.Found? { return Denied(IdentityFailed); }
                if Note(i.value.metadata, ID_META) == "" { return Denied(NoIdentityId); }
                args := args + ["--aws-identity-id", i.value.metadata[ID_META]];
              }
            case Azure =>
              args := ["--azure-tenant-id", p.value.endpoint];
              if plan.proxy.Egress? || plan.proxy.Both? {
                var i := view.identity(Key(ns, identity), ForId);
                if !i.Found? { return Denied(IdentityFailed); }
                if Note(i.value.metadata, ID_META) == "" { return Denied(NoIdentityId); }
                args := args + ["--azure-client-id", i.value.metadata[ID_META]];
              }
          }
      }
      return Ok(args);
    }

    method InjectProxy(pod: Pod, plan: Plan, script: Formatted) returns (err: Option<Reason>)
      requires plan.Inject? && script == Script(plan)
      modifies pod
      ensures match Injected(pod.ns, old(pod.Spec()), view, plan)
        case Ok(p) => err == None && pod.Spec() == p
        case Denied(why) => err == Some(why) && pod.Spec() == old(pod.Spec())
    {
      var serviceAccount := plan.identity;
      var typeName := "";
      if plan.proxy.Ingress? {
        var t := FindProviderTypeByName(plan.provider, pod.ns);
        if t.Denied? { return Some(t.reason); }
        typeName := KindName(t.value);
      } else {
        var i := view.identity(Key(pod.ns, plan.identity), ForType);
        if !i.Found? { return Some(IdentityFailed); }
        typeName := i.value.statusProvider;
      }
      var extra := GetProviderArgs(pod.ns, plan, typeName);
      if extra.Denied? { return Some(extra.reason); }
      if serviceAccount == "" { serviceAccount := "default"; }
      var present := pod.HasContainer(PROXY);
      if !present {
        var args := ["run", "--type", TypeName(plan.proxy), "--inport", IN_PORT, "--outport", OUT_PORT,
          "--token", TOKEN_PATH + "/" + "token", "--identity", serviceAccount, "--identity-provider", typeName, "-vvvvv"];
        if plan.policy != "" { args := args + ["--policy", plan.policy]; }
        args := args + extra.value;
        assert args == Args(plan, typeName, extra.value);
        var env := CopyEnv(pod.containers);
        var proxy := Container(PROXY, args, env, [Mount(TOKEN_VOLUME, TOKEN_PATH)], Some(USER_ID), None);
        pod.containers := pod.containers + [proxy];
        pod.account := serviceAccount;
      }
      present := pod.HasContainer(INIT);
      if !present {
        pod.volumes := pod.volumes + [Volume(TOKEN_VOLUME, Audience(typeName))];
        pod.inits := pod.inits + [Container(INIT, [], [], [], None, Some(script))];
        pod.account := serviceAccount;
      }
      return None;
    }

    /** Default: the pod as Admit says, or the error and the pod untouched. */
    method Default(pod: Pod) returns (err: Option<Reason>)
      modifies pod, this
      ensures match Admit(pod.ns, pod.notes, old(pod.Spec()), view)
        case Ok(p) => err == None && pod.Spec() == p
        case Denied(why) => err == Some(why) && pod.Spec() == old(pod.Spec())
      ensures created == old(created) +
        if OnlyIngress(pod.notes) && view.account(Key(pod.ns, PROXY_IDENTITY)).NotFound? && view.creates
        then [Key(pod.ns, PROXY_IDENTITY)] else []
    {
      var proxy := None;
      var mustInject := false;
      var port, identityOut, identityProvider, policy := "", "", "", "";
      if Set(pod.notes, EGRESS_KEY) {
        proxy := Some(Egress);
        if Note(pod.notes, IDENTITY_KEY) != "" { identityOut := pod.notes[IDENTITY_KEY]; } else { return Some(NoIdentity); }
        mustInject := true;
      }
      if Set(pod.notes, INGRESS_KEY) {
        if PORT_KEY in pod.notes { port := pod.notes[PORT_KEY]; } else { return Some(NoPort); }
        policy := Note(pod.notes, POLICY_KEY);
        if proxy == Some(Egress) {
          proxy := Some(Both);
        } else {
          proxy := Some(Ingress);
          if Note(pod.notes, PROVIDER_KEY) != "" { identityProvider := pod.notes[PROVIDER_KEY]; } else { return Some(NoProvider); }
        }
        mustInject := true;
      }
      if !mustInject { return None; }
      var plan := Inject(proxy.value, identityOut, identityProvider, policy, port);
      var script;
      match proxy.value {
        case Egress => script := EgressText("1137", OUT_PORT);
        case Ingress =>
          script := IngressText("1137", IN_PORT, port);
          var failed := EnsureAegisProxyServiceAccount(pod.ns);
          if failed { return Some(AccountFailed); }
        case Both => script := BothText("1137", IN_PORT, OUT_PORT, port);
      }
      err := InjectProxy(pod, plan, script);
    }

    /** internal/controller/utils.go:80-108 */
    method EnsureAegisProxyServiceAccount(ns: string) returns (failed: bool)
      modifies this
      ensures failed <==> EnsureAccount(view, ns).Denied?
      ensures created == if EnsureAccount(view, ns) == Ok(true) then old(created) + [Key(ns, PROXY_IDENTITY)] else old(created)
    {
      match view.account(Key(ns, PROXY_IDENTITY)) {
        case Found(_) => return false;
        case Failed => return true;
        case NotFound =>
          if !view.creates { return true; }
          created := created + [Key(ns, PROXY_IDENTITY)];
          return false;
      }
    }
  }
}
