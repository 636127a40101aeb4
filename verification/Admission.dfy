/** What the webhook guarantees about the pods it lets through. */
module Admission {
  import opened Cluster
  import opened PodWebhook
  import Netfilter
  import opened Numerals
  import Protocol
  import WriteOrder
  import Convergence

  // ---------------------------------------------------------------- CREATE and UPDATE

  lemma NamedAppend(cs: seq<Container>, c: Container, name: string)
    ensures Named(cs + [c], name) <==> Named(cs, name) || c.name == name
  {
    var all := cs + [c];
    if Named(cs, name) {
      var i :| 0 <= i < |cs| && cs[i].name == name;
      assert all[i].name == name;
    }
    if c.name == name { assert all[|cs|].name == name; }
  }

  lemma ProxyStays(p: PodSpec, plan: Plan, typeName: string, extra: seq<string>)
    requires plan.Inject?
    ensures var q := AddInit(AddProxy(p, plan, typeName, extra), plan, typeName);
      Holds(q, PROXY) && Holds(q, INIT)
  {
    NamedAppend(p.containers, ProxyContainer(p.containers, plan, typeName, extra), PROXY);
    var p1 := AddProxy(p, plan, typeName, extra);
    NamedAppend(p1.inits, InitContainer(plan), INIT);
    NamedAppend(p1.inits, InitContainer(plan), PROXY);
  }

  /** A pod that already holds both containers is never changed, whatever the
      cluster looks like by then. */
  lemma SettledPodUnchanged(ns: string, notes: map<string, string>, p: PodSpec, v: View)
    requires Holds(p, PROXY) && Holds(p, INIT)
    ensures Admit(ns, notes, p, v).Denied? || Admit(ns, notes, p, v) == Ok(p)
  {
  }

  /** The webhook runs on CREATE and on UPDATE: twice is once. */
  lemma AdmitIdempotent(ns: string, notes: map<string, string>, p: PodSpec, v: View)
    ensures Admit(ns, notes, p, v).Ok? ==>
      Admit(ns, notes, Admit(ns, notes, p, v).value, v) == Admit(ns, notes, p, v)
  {
    var plan := Read(notes);
    if plan.Ok? && plan.value.Inject? {
      var t := TypeOf(v, ns, plan.value);
      if t.Ok? {
        var extra := ProviderArgs(v, ns, plan.value, t.value);
        if extra.Ok? { ProxyStays(p, plan.value, t.value, extra.value); }
      }
    }
  }

  /** Nothing that was in the pod is lost or moved. */
  lemma AdmitConserves(ns: string, notes: map<string, string>, p: PodSpec, v: View)
    requires Admit(ns, notes, p, v).Ok?
    ensures var q := Admit(ns, notes, p, v).value;
      && p.containers <= q.containers && |q.containers| <= |p.containers| + 1
      && p.inits <= q.inits && |q.inits| <= |p.inits| + 1
      && p.volumes <= q.volumes && |q.volumes| <= |p.volumes| + 1
      && (q.account == p.account || q.account == (if Read(notes).value.Inject? then AccountName(Read(notes).value) else p.account))
  {
  }

  function Count(cs: seq<Container>, name: string): nat
    decreases |cs|
  {
    if cs == [] then 0 else (if cs[0].name == name then 1 else 0) + Count(cs[1..], name)
  }

  lemma {:induction false} CountAppend(cs: seq<Container>, c: Container, name: string)
    ensures Count(cs + [c], name) == Count(cs, name) + (if c.name == name then 1 else 0)
    decreases |cs|
  {
    if cs == [] {
      assert [] + [c] == [c] && [c][1..] == [];
    } else {
      assert (cs + [c])[0] == cs[0] && (cs + [c])[1..] == cs[1..] + [c];
      CountAppend(cs[1..], c, name);
    }
  }

  lemma {:induction false} CountZero(cs: seq<Container>, name: string)
    ensures Count(cs, name) == 0 <==> !Named(cs, name)
    decreases |cs|
  {
    if cs != [] {
      CountZero(cs[1..], name);
      if cs[0].name == name {
        assert Named(cs, name);
      } else {
        assert Named(cs[1..], name) <==> Named(cs, name) by {
          if Named(cs, name) {
            var i :| 0 <= i < |cs| && cs[i].name == name;
            assert cs[1..][i - 1].name == name;
          }
          if Named(cs[1..], name) {
            var i :| 0 <= i < |cs[1..]| && cs[1..][i].name == name;
            assert cs[i + 1].name == name;
          }
        }
      }
    }
  }

  function Volumes(vs: seq<Volume>, name: string): nat
    decreases |vs|
  {
    if vs == [] then 0 else (if vs[0].name == name then 1 else 0) + Volumes(vs[1..], name)
  }

  lemma {:induction false} VolumesAppend(vs: seq<Volume>, x: Volume, name: string)
    ensures Volumes(vs + [x], name) == Volumes(vs, name) + (if x.name == name then 1 else 0)
    decreases |vs|
  {
    if vs == [] {
      assert [] + [x] == [x] && [x][1..] == [];
    } else {
      assert (vs + [x])[0] == vs[0] && (vs + [x])[1..] == vs[1..] + [x];
      VolumesAppend(vs[1..], x, name);
    }
  }

  /** A pod the webhook has not seen yet. */
  predicate Fresh(p: PodSpec) {
    !Holds(p, PROXY) && !Holds(p, INIT) && Volumes(p.volumes, TOKEN_VOLUME) == 0
  }

  function Last<T>(s: seq<T>): T
    requires s != []
  {
    s[|s| - 1]
  }

  /** From a fresh pod: one proxy, one init container, one token volume, and the
      proxy's mount is that volume. */
  lemma FreshPodGetsOneOfEach(ns: string, notes: map<string, string>, p: PodSpec, v: View)
    requires Fresh(p) && Read(notes).Ok? && Read(notes).value.Inject? && Admit(ns, notes, p, v).Ok?
    ensures var q := Admit(ns, notes, p, v).value;
      && Count(q.containers, PROXY) == 1 && Count(q.inits, INIT) == 1 && Volumes(q.volumes, TOKEN_VOLUME) == 1
      && Count(q.inits, PROXY) == 0 && Count(q.containers, INIT) == 0
      && q.containers != [] && Last(q.containers).name == PROXY
      && Last(q.containers).mounts == [Mount(TOKEN_VOLUME, TOKEN_PATH)]
      && q.volumes != [] && Last(q.volumes).name == TOKEN_VOLUME
      && q.account == AccountName(Read(notes).value)
  {
    var plan := Read(notes).value;
    var t := TypeOf(v, ns, plan).value;
    var extra := ProviderArgs(v, ns, plan, t).value;
    var c := ProxyContainer(p.containers, plan, t, extra);
    var p1 := AddProxy(p, plan, t, extra);
    NamedAppend(p.containers, c, INIT);
    assert !Holds(p1, INIT);
    forall name ensures Count(p1.containers, name) == Count(p.containers, name) + (if name == PROXY then 1 else 0) {
      CountAppend(p.containers, c, name);
    }
    CountAppend(p.inits, InitContainer(plan), INIT);
    CountAppend(p.inits, InitContainer(plan), PROXY);
    CountZero(p.containers, PROXY);
    CountZero(p.containers, INIT);
    CountZero(p.inits, PROXY);
    CountZero(p.inits, INIT);
    VolumesAppend(p.volumes, Volume(TOKEN_VOLUME, Audience(t)), TOKEN_VOLUME);
  }

  // ---------------------------------------------------------------- the proxy's environment

  function WithEither(env: seq<EnvVar>): seq<EnvVar>
    decreases |env|
  {
    if env == [] then []
    else (if "OTEL" <= env[0].name || "AEGIS" <= env[0].name then [env[0]] else []) + WithEither(env[1..])
  }

  lemma NotBoth(name: string)
    ensures !("OTEL" <= name && "AEGIS" <= name)
  {
    if "OTEL" <= name { assert name[0] == "OTEL"[0]; }
  }

  lemma {:induction false} EachOnce(env: seq<EnvVar>)
    ensures multiset(WithPrefix(env, "OTEL")) + multiset(WithPrefix(env, "AEGIS")) == multiset(WithEither(env))
    decreases |env|
  {
    if env != [] {
      EachOnce(env[1..]);
      NotBoth(env[0].name);
    }
  }

  /** Two passes over the variables copy each one that has either prefix exactly as
      often as it occurs. */
  lemma EnvCopiedOnce(cs: seq<Container>)
    ensures multiset(CopiedEnv(cs)) == multiset(WithEither(AllEnv(cs)))
  {
    EachOnce(AllEnv(cs));
  }

  /** Each copy keeps the order of the variables. */
  lemma {:induction false} FilterInOrder(a: seq<EnvVar>, b: seq<EnvVar>, prefix: string)
    ensures WithPrefix(a + b, prefix) == WithPrefix(a, prefix) + WithPrefix(b, prefix)
    ensures |a| == 1 ==> WithPrefix(a, prefix) == if prefix <= a[0].name then a else []
    decreases |a|
  {
    if a == [] {
      assert a + b == b;
    } else {
      var first := if prefix <= a[0].name then [a[0]] else [];
      assert (a + b)[0] == a[0] && (a + b)[1..] == a[1..] + b;
      FilterInOrder(a[1..], b, prefix);
      assert first + (WithPrefix(a[1..], prefix) + WithPrefix(b, prefix)) == first + WithPrefix(a[1..], prefix) + WithPrefix(b, prefix);
    }
  }

  // ---------------------------------------------------------------- pod and nat table fit together

  /** The script as the shell sees it, if its arguments are numbers. */
  function Filled(f: Formatted): Option<Netfilter.Script> {
    match f
    case EgressText(uid, out) =>
      if Decimal(uid).None? || Decimal(out).None? then None
      else Some(Netfilter.Egress(Decimal(uid).value, Decimal(out).value))
    case IngressText(uid, inn, app) =>
      if Decimal(uid).None? || Decimal(inn).None? || Decimal(app).None? then None
      else Some(Netfilter.Ingress(Decimal(uid).value, Decimal(inn).value, Decimal(app).value))
    case BothText(uid, inn, out, app) =>
      if Decimal(uid).None? || Decimal(inn).None? || Decimal(out).None? || Decimal(app).None? then None
      else Some(Netfilter.Combined(Decimal(uid).value, Decimal(inn).value, Decimal(out).value, Decimal(app).value))
  }

  lemma FourDigits(s: string, a: nat, b: nat, c: nat, d: nat)
    requires |s| == 4
    requires Digit(s[0]) == Some(a) && Digit(s[1]) == Some(b) && Digit(s[2]) == Some(c) && Digit(s[3]) == Some(d)
    ensures Decimal(s) == Some(1000 * a + 100 * b + 10 * c + d)
  {
    assert s[..3][..2] == s[..2] && s[..2][..1] == s[..1];
    assert Decimal(s[..1]) == Some(a);
    assert Decimal(s[..2]) == Some(10 * a + b);
    assert Decimal(s[..3]) == Some(100 * a + 10 * b + c);
  }

  lemma Constants()
    ensures Decimal("1137") == Some(USER_ID) && Decimal(OUT_PORT) == Some(3128) && Decimal(IN_PORT) == Some(3127)
  {
    FourDigits("1137", 1, 1, 3, 7);
    FourDigits("3128", 3, 1, 2, 8);
    FourDigits("3127", 3, 1, 2, 7);
  }

  /** How the proxy reads its command line: words that stand alone, and flags with
      the value after them, of which the last counts. */
  function Options(args: seq<string>): map<string, string>
    decreases |args|
  {
    if args == [] then map[]
    else if args[0] == "run" || args[0] == "-vvvvv" || |args| == 1 then Options(args[1..])
    else map[args[0] := args[1]] + Options(args[2..])
  }

  lemma OptionAt(args: seq<string>, i: nat)
    requires i + 2 <= |args| && Flag(args[i])
    ensures Options(args[i..]) == map[args[i] := args[i + 1]] + Options(args[i + 2..])
  {
    assert args[i..][2..] == args[i + 2..];
  }

  lemma WordAt(args: seq<string>, i: nat)
    requires i < |args| && (args[i] == "run" || args[i] == "-vvvvv")
    ensures Options(args[i..]) == Options(args[i + 1..])
  {
    assert args[i..][1..] == args[i + 1..];
  }

  /** The options before the provider's own. */
  function CommonOptions(proxyType: string, account: string, typeName: string, policy: string): map<string, string> {
    map["--type" := proxyType] + map["--inport" := "3127"] + map["--outport" := "3128"]
    + map["--token" := "/var/run/secrets/tokens/token"] + map["--identity" := account] + map["--identity-provider" := typeName]
    + (if policy != "" then map["--policy" := policy] else map[])
  }

  lemma ArgsAreOptions(plan: Plan, typeName: string, extra: seq<string>)
    requires plan.Inject?
    ensures Options(Args(plan, typeName, extra)) ==
      CommonOptions(TypeName(plan.proxy), AccountName(plan), typeName, plan.policy) + Options(extra)
  {
    var args := Args(plan, typeName, extra);
    assert TOKEN_PATH + "/" + "token" == "/var/run/secrets/tokens/token";
    var policy := if plan.policy != "" then ["--policy", plan.policy] else [];
    var more := if plan.policy != "" then map["--policy" := plan.policy] else map[];
    assert args[14..] == policy + extra;
    HeadOptions(args);
    PolicyOption(plan.policy, extra);
    hide Options, TypeName, AccountName;
    Regroup(FirstSix(args), more, Options(extra));
  }

  /** Six pairs of flag and value, from the second argument on. */
  function FirstSix(args: seq<string>): map<string, string>
    requires |args| >= 14
  {
    map[args[1] := args[2]] + map[args[3] := args[4]] + map[args[5] := args[6]]
    + map[args[7] := args[8]] + map[args[9] := args[10]] + map[args[11] := args[12]]
  }

  lemma HeadOptions(args: seq<string>)
    requires |args| >= 14 && args[0] == "run" && args[13] == "-vvvvv"
    requires Flag(args[1]) && Flag(args[3]) && Flag(args[5]) && Flag(args[7]) && Flag(args[9]) && Flag(args[11])
    ensures Options(args) == FirstSix(args) + Options(args[14..])
  {
    hide Options, Flag;
    assert args[0..] == args;
    WordAt(args, 0);
    var m1 := map[args[1] := args[2]];
    OptionAt(args, 1);
    var m2 := Onward(args, 3, m1);
    var m3 := Onward(args, 5, m2);
    var m4 := Onward(args, 7, m3);
    var m5 := Onward(args, 9, m4);
    var m6 := Onward(args, 11, m5);
    WordAt(args, 13);
  }

  predicate Flag(word: string) {
    word != "run" && word != "-vvvvv"
  }

  /** What was read so far, and one more pair. */
  lemma Onward(args: seq<string>, i: nat, before: map<string, string>) returns (now: map<string, string>)
    requires i + 2 <= |args| && Flag(args[i]) && Options(args) == before + Options(args[i..])
    ensures now == before + map[args[i] := args[i + 1]] && Options(args) == now + Options(args[i + 2..])
  {
    hide Options, Flag;
    now := before + map[args[i] := args[i + 1]];
    OptionAt(args, i);
    Regroup(before, map[args[i] := args[i + 1]], Options(args[i + 2..]));
  }

  lemma Regroup(a: map<string, string>, b: map<string, string>, c: map<string, string>)
    ensures a + (b + c) == a + b + c
  {
  }

  lemma PolicyOption(policy: string, extra: seq<string>)
    ensures var first := if policy != "" then ["--policy", policy] else [];
      Options(first + extra) == (if policy != "" then map["--policy" := policy] else map[]) + Options(extra)
  {
    var args := (if policy != "" then ["--policy", policy] else []) + extra;
    if policy != "" {
      assert args[0..] == args && args[2..] == extra;
      OptionAt(args, 0);
    } else {
      assert args == extra;
    }
  }

  /** What the last arguments say: two or three options, all for the provider. */
  lemma PairsAreOptions(args: seq<string>)
    requires |args| == 2 || |args| == 4
    requires Flag(args[0]) && (|args| == 4 ==> Flag(args[2]))
    ensures Options(args) == if |args| == 2 then map[args[0] := args[1]] else map[args[0] := args[1]] + map[args[2] := args[3]]
  {
    assert args[0..] == args && args[|args|..] == [] && Options([]) == map[];
    OptionAt(args, 0);
    if |args| == 4 { OptionAt(args, 2); }
  }

  /** The provider a plan is about, by the reads of `v`. */
  function ProviderName(v: View, ns: string, plan: Plan): string
    requires plan.Inject? && (plan.provider == "" ==> v.identity(Key(ns, plan.identity), ForArgs).Found?)
  {
    if plan.provider != "" then plan.provider else v.identity(Key(ns, plan.identity), ForArgs).value.provider
  }

  /** The provider's own options are those of the object of that kind and name, each
      under its flag, and for an outgoing aws or azure proxy the identity's own id. */
  predicate OwnOptions(v: View, ns: string, plan: Plan, typeName: string, o: map<string, string>)
    requires plan.Inject? && (plan.provider == "" ==> v.identity(Key(ns, plan.identity), ForArgs).Found?)
  {
    var key := Key(ns, ProviderName(v, ns, plan));
    var id := v.identity(Key(ns, plan.identity), ForId);
    if typeName == "hashicorp.vault" then
      var p := v.provider(ProviderKey(Vault, key), ForArgs);
      p.Found? && o == map["--identity-provider" := "hashicorp.vault", "--vault-address" := p.value.endpoint]
    else if typeName == "kubernetes" then
      var p := v.provider(ProviderKey(Kubernetes, key), ForArgs);
      p.Found? && o == map["--identity-provider" := "kubernetes", "--kubernetes-issuer" := p.value.issuer]
    else if typeName == "aws" then
      var p := v.provider(ProviderKey(Aws, key), ForArgs);
      p.Found? && CloudOptions(o, "--aws-region", p.value.endpoint, "--aws-identity-id", plan.proxy, id)
    else if typeName == "azure" then
      var p := v.provider(ProviderKey(Azure, key), ForArgs);
      p.Found? && CloudOptions(o, "--azure-tenant-id", p.value.endpoint, "--azure-client-id", plan.proxy, id)
    else false
  }

  predicate CloudOptions(o: map<string, string>, flag: string, endpoint: string, idFlag: string, proxy: ProxyType, id: Reply<Identity>) {
    (proxy.Ingress? ==> o == map[flag := endpoint]) &&
    (!proxy.Ingress? ==>
       && id.Found? && "aegis.identity.id" in id.value.metadata
       && o == map[flag := endpoint, idFlag := id.value.metadata["aegis.identity.id"]])
  }

  lemma ProviderArgsAreOwn(v: View, ns: string, plan: Plan, typeName: string)
    requires plan.Inject? && (plan.proxy.Ingress? <==> plan.provider != "")
    requires ProviderArgs(v, ns, plan, typeName).Ok?
    ensures plan.provider == "" ==> v.identity(Key(ns, plan.identity), ForArgs).Found?
    ensures OwnOptions(v, ns, plan, typeName, Options(ProviderArgs(v, ns, plan, typeName).value))
  {
    hide Options;
    var extra := ProviderArgs(v, ns, plan, typeName).value;
    PairsAreOptions(extra);
  }

  // ---------------------------------------------------------------- what the annotations ask for

  predicate On(notes: map<string, string>, key: string) {
    key in notes && notes[key] == "true"
  }

  predicate Given(notes: map<string, string>, key: string) {
    key in notes && notes[key] != ""
  }

  /** The annotations decide, one by one: whether there is a proxy, of which type,
      for which identity, provider, policy and port, and each way to be refused. */
  lemma AnnotationsDecide(notes: map<string, string>)
    ensures var egress, ingress := On(notes, "aegisproxy.io/egress"), On(notes, "aegisproxy.io/ingress");
      var identity, port := Given(notes, "aegisproxy.io/identity"), "aegisproxy.io/ingress.port" in notes;
      var provider := Given(notes, "aegisproxy.io/identity.provider");
      && (Read(notes) == Ok(Skip) <==> !egress && !ingress)
      && (Read(notes) == Denied(NoIdentity) <==> egress && !identity)
      && (Read(notes) == Denied(NoPort) <==> ingress && !port && (egress ==> identity))
      && (Read(notes) == Denied(NoProvider) <==> ingress && port && !egress && !provider)
      && (Read(notes).Ok? && Read(notes).value.Inject? <==>
            (egress || ingress) && (egress ==> identity) && (ingress ==> port && (egress || provider)))
    ensures Read(notes).Ok? && Read(notes).value.Inject? ==> Follows(notes, Read(notes).value)
  {
  }

  predicate Follows(notes: map<string, string>, plan: Plan)
    requires plan.Inject?
  {
    var egress, ingress := On(notes, "aegisproxy.io/egress"), On(notes, "aegisproxy.io/ingress");
    && (plan.proxy.Both? <==> egress && ingress)
    && (plan.proxy.Egress? <==> egress && !ingress)
    && (plan.proxy.Ingress? <==> !egress && ingress)
    && (if egress then Given(notes, "aegisproxy.io/identity") && plan.identity == notes["aegisproxy.io/identity"]
        else plan.identity == "")
    && (if egress then plan.provider == ""
        else Given(notes, "aegisproxy.io/identity.provider") && plan.provider == notes["aegisproxy.io/identity.provider"])
    && (if ingress && Given(notes, "aegisproxy.io/ingress.policy") then plan.policy == notes["aegisproxy.io/ingress.policy"]
        else plan.policy == "")
    && (if ingress then "aegisproxy.io/ingress.port" in notes && plan.port == notes["aegisproxy.io/ingress.port"]
        else plan.port == "")
  }

  /** The provider type: what the identity's status says, or the first kind that
      bears the annotated name. */
  predicate IsType(v: View, ns: string, notes: map<string, string>, typeName: string) {
    if On(notes, "aegisproxy.io/egress") then
      Given(notes, "aegisproxy.io/identity") &&
      var i := v.identity(Key(ns, notes["aegisproxy.io/identity"]), ForType);
      i.Found? && typeName == i.value.statusProvider
    else
      Given(notes, "aegisproxy.io/identity.provider") &&
      exists kind: Kind :: typeName == KindName(kind) && FirstFound(v, Key(ns, notes["aegisproxy.io/identity.provider"]), kind)
  }

  /** Vault, Azure, Kubernetes, AWS: the first whose read succeeds. */
  predicate FirstFound(v: View, key: Key, kind: Kind) {
    && v.provider(ProviderKey(kind, key), ForType).Found?
    && (!kind.Vault? ==> !v.provider(ProviderKey(Vault, key), ForType).Found?)
    && (kind.Kubernetes? || kind.Aws? ==> !v.provider(ProviderKey(Azure, key), ForType).Found?)
    && (kind.Aws? ==> !v.provider(ProviderKey(Kubernetes, key), ForType).Found?)
  }

  lemma TypeIsType(v: View, ns: string, notes: map<string, string>)
    requires Read(notes).Ok? && Read(notes).value.Inject?
    ensures var t := TypeOf(v, ns, Read(notes).value);
      && (t.Ok? ==> IsType(v, ns, notes, t.value))
      && forall typeName :: IsType(v, ns, notes, typeName) ==> t == Ok(typeName)
  {
    hide Read;
    AnnotationsDecide(notes);
    if !On(notes, "aegisproxy.io/egress") {
      var key := Key(ns, notes["aegisproxy.io/identity.provider"]);
      var found := FindType(v, key);
      if found.Ok? { assert FirstFound(v, key, found.value); }
      forall kind: Kind | FirstFound(v, key, kind) ensures found == Ok(kind) { FirstIsFound(v, key, kind); }
    }
  }

  lemma FirstIsFound(v: View, key: Key, kind: Kind)
    requires FirstFound(v, key, kind)
    ensures FindType(v, key) == Ok(kind)
  {
    match kind case Vault => case Azure => case Kubernetes => case Aws =>
  }

  /** The options of the injected proxy, and the audience of its token, from the
      annotations and the objects they name; `own` are the provider's. */
  lemma InjectedOptions(ns: string, notes: map<string, string>, p: PodSpec, v: View)
    returns (typeName: string, own: map<string, string>)
    requires Fresh(p) && (On(notes, "aegisproxy.io/egress") || On(notes, "aegisproxy.io/ingress"))
    requires Admit(ns, notes, p, v).Ok?
    ensures Read(notes).Ok? && Read(notes).value.Inject? && Follows(notes, Read(notes).value)
    ensures IsType(v, ns, notes, typeName)
    ensures var plan := Read(notes).value;
      && (plan.provider == "" ==> v.identity(Key(ns, plan.identity), ForArgs).Found?)
      && OwnOptions(v, ns, plan, typeName, own)
    ensures var q := Admit(ns, notes, p, v).value;
      && q.containers != [] && q.volumes != []
      && Last(q.containers).env == CopiedEnv(p.containers)
      && Last(q.volumes).audience ==
           (if typeName == "hashicorp.vault" then "vault" else if typeName == "azure" then "api://AzureADTokenExchange"
            else if typeName == "kubernetes" then "kubernetes" else "sts.amazonaws.com")
      && Options(Last(q.containers).args) == AskedFor(notes, typeName) + own
  {
    AnnotationsDecide(notes);
    var plan := Read(notes).value;
    hide Read, Options, Args, Holds, Volumes, CopiedEnv, On, Given, IsType, OwnOptions, Admit, Follows, AskedFor, ProviderArgs, TypeOf, Fresh, CommonOptions, AccountName;
    InjectedShape(ns, notes, p, v);
    TypeIsType(v, ns, notes);
    typeName := TypeOf(v, ns, plan).value;
    var extra := ProviderArgs(v, ns, plan, typeName).value;
    own := Options(extra);
    PlanShape(notes, plan);
    ProviderArgsAreOwn(v, ns, plan, typeName);
    ArgsAreOptions(plan, typeName, extra);
    CommonIsAskedFor(notes, plan, typeName);
    OwnIsKnown(v, ns, plan, typeName, own);
  }

  /** The options that follow from the annotations and the provider type alone. */
  function AskedFor(notes: map<string, string>, typeName: string): map<string, string> {
    var egress, ingress := On(notes, "aegisproxy.io/egress"), On(notes, "aegisproxy.io/ingress");
    CommonOptions(
      if egress && ingress then "ingress-egress" else if egress then "egress" else "ingress",
      if egress && Given(notes, "aegisproxy.io/identity") then notes["aegisproxy.io/identity"] else "default",
      typeName,
      if ingress && Given(notes, "aegisproxy.io/ingress.policy") then notes["aegisproxy.io/ingress.policy"] else "")
  }

  lemma CommonIsAskedFor(notes: map<string, string>, plan: Plan, typeName: string)
    requires plan.Inject? && Follows(notes, plan) && (On(notes, "aegisproxy.io/egress") || On(notes, "aegisproxy.io/ingress"))
    ensures CommonOptions(TypeName(plan.proxy), AccountName(plan), typeName, plan.policy) == AskedFor(notes, typeName)
  {
    hide CommonOptions;
    PlanShape(notes, plan);
  }

  lemma PlanShape(notes: map<string, string>, plan: Plan)
    requires plan.Inject? && Follows(notes, plan) && (On(notes, "aegisproxy.io/egress") || On(notes, "aegisproxy.io/ingress"))
    ensures plan.proxy.Ingress? <==> plan.provider != ""
    ensures AccountName(plan) == if On(notes, "aegisproxy.io/egress") then notes["aegisproxy.io/identity"] else "default"
    ensures TypeName(plan.proxy) ==
      if On(notes, "aegisproxy.io/egress") && On(notes, "aegisproxy.io/ingress") then "ingress-egress"
      else if On(notes, "aegisproxy.io/egress") then "egress" else "ingress"
    ensures plan.policy == if On(notes, "aegisproxy.io/ingress") && Given(notes, "aegisproxy.io/ingress.policy")
      then notes["aegisproxy.io/ingress.policy"] else ""
    ensures Given(notes, "aegisproxy.io/ingress.policy") ==> notes["aegisproxy.io/ingress.policy"] != ""
  {
  }

  lemma OwnIsKnown(v: View, ns: string, plan: Plan, typeName: string, o: map<string, string>)
    requires plan.Inject? && (plan.provider == "" ==> v.identity(Key(ns, plan.identity), ForArgs).Found?)
    requires OwnOptions(v, ns, plan, typeName, o)
    ensures typeName in {"hashicorp.vault", "kubernetes", "aws", "azure"}
  {
  }

  // ---------------------------------------------------------------- who gets in

  predicate ProviderRead(v: View, ns: string, typeName: string, name: string) {
    exists kind: Kind :: KindName(kind) == typeName && v.provider(ProviderKey(kind, Key(ns, name)), ForArgs).Found?
  }

  predicate HasId(i: Reply<Identity>) {
    i.Found? && "aegis.identity.id" in i.value.metadata && i.value.metadata["aegis.identity.id"] != ""
  }

  /** An outgoing pod needs its identity, that identity's provider object, and for
      aws and azure the identity's id. */
  predicate EgressReady(v: View, ns: string, notes: map<string, string>) {
    && Given(notes, "aegisproxy.io/identity")
    && (On(notes, "aegisproxy.io/ingress") ==> "aegisproxy.io/ingress.port" in notes)
    && var k := Key(ns, notes["aegisproxy.io/identity"]);
       var status, spec := v.identity(k, ForType), v.identity(k, ForArgs);
       && status.Found? && spec.Found? && ProviderRead(v, ns, status.value.statusProvider, spec.value.provider)
       && (status.value.statusProvider == "aws" || status.value.statusProvider == "azure" ==> HasId(v.identity(k, ForId)))
  }

  /** An incoming one needs a port, its provider, and the webhook's own account. */
  predicate IngressReady(v: View, ns: string, notes: map<string, string>) {
    && "aegisproxy.io/ingress.port" in notes && Given(notes, "aegisproxy.io/identity.provider")
    && var account := v.account(Key(ns, "aegisproxy"));
    && (account.Found? || (account.NotFound? && v.creates))
    && exists kind: Kind ::
         && FirstFound(v, Key(ns, notes["aegisproxy.io/identity.provider"]), kind)
         && v.provider(ProviderKey(kind, Key(ns, notes["aegisproxy.io/identity.provider"])), ForArgs).Found?
  }

  /** Exactly which pods are admitted, whatever is in them already. */
  lemma AdmittedExactly(ns: string, notes: map<string, string>, p: PodSpec, v: View)
    ensures Admit(ns, notes, p, v).Ok? <==>
      if On(notes, "aegisproxy.io/egress") then EgressReady(v, ns, notes)
      else On(notes, "aegisproxy.io/ingress") ==> IngressReady(v, ns, notes)
  {
    hide Read, AddProxy, AddInit;
    AnnotationsDecide(notes);
    if Read(notes).Ok? && Read(notes).value.Inject? {
      var plan := Read(notes).value;
      TypeIsType(v, ns, notes);
      var t := TypeOf(v, ns, plan);
      if t.Ok? { ArgsExactly(v, ns, plan, t.value); }
      if On(notes, "aegisproxy.io/egress") {
        if EgressReady(v, ns, notes) { assert t.Ok?; }
      } else {
        IngressExactly(v, ns, notes, plan);
      }
    }
  }

  lemma ArgsExactly(v: View, ns: string, plan: Plan, typeName: string)
    requires plan.Inject? && (plan.proxy.Ingress? <==> plan.provider != "")
    ensures ProviderArgs(v, ns, plan, typeName).Ok? <==>
      && (plan.provider == "" ==> v.identity(Key(ns, plan.identity), ForArgs).Found?)
      && ProviderRead(v, ns, typeName, ProviderName(v, ns, plan))
      && (!plan.proxy.Ingress? && (typeName == "aws" || typeName == "azure") ==> HasId(v.identity(Key(ns, plan.identity), ForId)))
  {
    KindNames(typeName);
  }

  lemma KindNames(typeName: string)
    ensures forall kind: Kind :: KindName(kind) == typeName <==> KindNamed(typeName) == Some(kind)
  {
    forall kind: Kind ensures KindName(kind) == typeName <==> KindNamed(typeName) == Some(kind) {
      match kind case Vault => case Azure => case Kubernetes => case Aws =>
    }
  }

  lemma IngressExactly(v: View, ns: string, notes: map<string, string>, plan: Plan)
    requires Read(notes) == Ok(plan) && plan.Inject? && Follows(notes, plan) && plan.proxy.Ingress?
    ensures (EnsureAccount(v, ns).Ok? && TypeOf(v, ns, plan).Ok? && ProviderArgs(v, ns, plan, TypeOf(v, ns, plan).value).Ok?)
      <==> IngressReady(v, ns, notes)
  {
    var key := Key(ns, plan.provider);
    var found := FindType(v, key);
    if found.Ok? {
      KindNames(KindName(found.value));
      assert FirstFound(v, key, found.value);
      ArgsExactly(v, ns, plan, KindName(found.value));
    }
    forall kind: Kind | FirstFound(v, key, kind) ensures found == Ok(kind) { FirstIsFound(v, key, kind); }
  }

  // ---------------------------------------------------------------- where the pod's traffic goes

  /** What traffic of the pod is meant to do. */
  function Meant(egress: bool, ingress: bool, runAs: nat, inPort: nat, outPort: nat, appPort: nat,
                 hook: Netfilter.Chain, p: Netfilter.Packet): Netfilter.Verdict
  {
    if hook.OUTPUT? && egress && p.tcp && p.uid != Some(runAs) then Netfilter.RedirectTo(outPort)
    else if hook.PREROUTING? && ingress && p.tcp && p.dport == appPort then Netfilter.RedirectTo(inPort)
    else Netfilter.Accept
  }

  lemma InjectedShape(ns: string, notes: map<string, string>, p: PodSpec, v: View)
    requires Fresh(p) && Read(notes).Ok? && Read(notes).value.Inject? && Admit(ns, notes, p, v).Ok?
    ensures var plan := Read(notes).value;
      var q := Admit(ns, notes, p, v).value;
      var t := TypeOf(v, ns, plan);
      && q.containers != [] && q.inits != [] && q.volumes != []
      && Last(q.inits) == InitContainer(plan) && t.Ok? && ProviderArgs(v, ns, plan, t.value).Ok?
      && Last(q.volumes) == Volume(TOKEN_VOLUME, Audience(t.value))
      && Last(q.containers) == ProxyContainer(p.containers, plan, t.value, ProviderArgs(v, ns, plan, t.value).value)
  {
    hide Read, Args, CopiedEnv, TypeOf, ProviderArgs;
    var plan := Read(notes).value;
    var typeName := TypeOf(v, ns, plan).value;
    var extra := ProviderArgs(v, ns, plan, typeName).value;
    NamedAppend(p.containers, ProxyContainer(p.containers, plan, typeName, extra), INIT);
  }

  lemma ScriptArguments(plan: Plan)
    requires plan.Inject? && (plan.proxy.Egress? || Decimal(plan.port).Some?)
    ensures Filled(Script(plan)) == Some(
      match plan.proxy
      case Egress => Netfilter.Egress(USER_ID, 3128)
      case Ingress => Netfilter.Ingress(USER_ID, 3127, Decimal(plan.port).value)
      case Both => Netfilter.Combined(USER_ID, 3127, 3128, Decimal(plan.port).value))
  {
    Constants();
  }

  /** The annotated port, as a number. */
  function AppPort(notes: map<string, string>): Option<nat> {
    if "aegisproxy.io/ingress.port" in notes then Decimal(notes["aegisproxy.io/ingress.port"]) else None
  }

  /** What the annotations ask for happens to the packets: in a fresh pod that is
      admitted, the init container sends exactly the right ones to exactly the ports
      and past exactly the user that the proxy container runs with. */
  lemma InjectedTraffic(ns: string, notes: map<string, string>, p: PodSpec, v: View,
                        t: Netfilter.Table, level: map<Netfilter.Chain, nat>, hook: Netfilter.Chain, packet: Netfilter.Packet)
    requires Fresh(p) && (On(notes, "aegisproxy.io/egress") || On(notes, "aegisproxy.io/ingress"))
    requires Admit(ns, notes, p, v).Ok?
    requires On(notes, "aegisproxy.io/ingress") ==> AppPort(notes).Some?
    requires Netfilter.IsNat(t) && Netfilter.BuiltIn(hook)
    ensures var egress, ingress := On(notes, "aegisproxy.io/egress"), On(notes, "aegisproxy.io/ingress");
      var q := Admit(ns, notes, p, v).value;
      && q.containers != [] && q.inits != [] && Last(q.inits).script.Some? && Last(q.containers).runAs.Some?
      && Filled(Last(q.inits).script.value).Some?
      && var proxy := Last(q.containers);
         var after := Netfilter.Exec(t, Netfilter.Text(Filled(Last(q.inits).script.value).value));
         var o := Options(proxy.args);
         && "--inport" in o && "--outport" in o
         && Decimal(o["--inport"]) == Some(3127) && Decimal(o["--outport"]) == Some(3128)
         && Netfilter.Layered(after, Netfilter.Levels(after))
         && (Netfilter.Layered(after, level) ==>
               Netfilter.Fate(after, level, hook, packet) ==
               Meant(egress, ingress, proxy.runAs.value, 3127, 3128, if ingress then AppPort(notes).value else 0, hook, packet))
  {
    hide Netfilter.Text, Netfilter.Exec, Netfilter.Fate, Netfilter.Layered, Netfilter.IsNat, Netfilter.BuiltIn, Netfilter.Levels;
    AnnotationsDecide(notes);
    var plan := Read(notes).value;
    hide Admit, Read, Args, Options, Decimal, Filled, Holds, Fresh, Meant, Script, CopiedEnv, OwnOptions, CommonOptions, ProviderArgs, TypeOf;
    var q := Admit(ns, notes, p, v).value;
    InjectedShape(ns, notes, p, v);
    var typeName := TypeOf(v, ns, plan).value;
    var extra := ProviderArgs(v, ns, plan, typeName).value;
    PlanShape(notes, plan);
    ProviderArgsAreOwn(v, ns, plan, typeName);
    OwnKeepsPorts(v, ns, plan, typeName, Options(extra));
    Constants();
    ArgsAreOptions(plan, typeName, extra);
    PortsKept(plan, typeName, extra);
    ScriptArguments(plan);
    var s := Filled(Script(plan)).value;
    Netfilter.ScriptTerminates(t, s);
    if Netfilter.Layered(Netfilter.Exec(t, Netfilter.Text(s)), level) {
      IntentIsMeant(t, s, plan, level, hook, packet);
    }
  }

  /** The provider's options leave the ports alone. */
  predicate PortsLast(extra: seq<string>) {
    "--inport" !in Options(extra) && "--outport" !in Options(extra)
  }

  lemma PortsKept(plan: Plan, typeName: string, extra: seq<string>)
    requires plan.Inject? && PortsLast(extra)
    ensures var o := CommonOptions(TypeName(plan.proxy), AccountName(plan), typeName, plan.policy) + Options(extra);
      "--inport" in o && o["--inport"] == "3127" && "--outport" in o && o["--outport"] == "3128"
  {
    hide Options;
  }

  lemma OwnKeepsPorts(v: View, ns: string, plan: Plan, typeName: string, o: map<string, string>)
    requires plan.Inject? && (plan.provider == "" ==> v.identity(Key(ns, plan.identity), ForArgs).Found?)
    requires OwnOptions(v, ns, plan, typeName, o)
    ensures "--inport" !in o && "--outport" !in o
  {
  }

  lemma IntentIsMeant(t: Netfilter.Table, s: Netfilter.Script, plan: Plan, level: map<Netfilter.Chain, nat>,
                      hook: Netfilter.Chain, packet: Netfilter.Packet)
    requires plan.Inject? && (plan.proxy.Egress? || Decimal(plan.port).Some?)
    requires Netfilter.IsNat(t) && Netfilter.BuiltIn(hook)
    requires s == match plan.proxy
      case Egress => Netfilter.Egress(USER_ID, 3128)
      case Ingress => Netfilter.Ingress(USER_ID, 3127, Decimal(plan.port).value)
      case Both => Netfilter.Combined(USER_ID, 3127, 3128, Decimal(plan.port).value)
    requires Netfilter.Layered(Netfilter.Exec(t, Netfilter.Text(s)), level)
    ensures Netfilter.Fate(Netfilter.Exec(t, Netfilter.Text(s)), level, hook, packet) ==
      Meant(!plan.proxy.Ingress?, !plan.proxy.Egress?, USER_ID, 3127, 3128,
            if plan.proxy.Egress? then 0 else Decimal(plan.port).value, hook, packet)
  {
    hide Netfilter.Text, Netfilter.Exec, Netfilter.Fate, Netfilter.Layered, Netfilter.IsNat, Decimal;
    Netfilter.ScriptMeetsIntent(t, s, level, hook, packet);
  }

  // ---------------------------------------------------------------- webhook and controller fit together

  /** Every read gives what is in the store, or fails. */
  ghost predicate Reads(v: View, s: Store) {
    && (forall k, use: Use :: v.identity(k, use).Found? ==> k in s.ids && v.identity(k, use).value == s.ids[k])
    && (forall p, use: Use :: v.provider(p, use).Found? ==> p in s.providers && v.provider(p, use).value == s.providers[p])
  }

  /** ... and none fails. */
  ghost predicate ReadsAll(v: View, s: Store) {
    && Reads(v, s)
    && (forall k, use: Use :: k in s.ids ==> v.identity(k, use).Found?)
    && (forall p, use: Use :: p in s.providers ==> v.provider(p, use).Found?)
  }

  /** A pod that goes out as an aws or azure identity is admitted only with an
      account that exists and is bound to the policy reader role. */
  lemma EgressAccountIsReal(w: Protocol.World, ns: string, notes: map<string, string>, p: PodSpec, v: View)
    requires WriteOrder.OrderInv(w) && Reads(v, w.store)
    requires Fresh(p) && Read(notes).Ok? && Read(notes).value.Inject? && !Read(notes).value.proxy.Ingress?
    requires Admit(ns, notes, p, v).Ok?
    requires var t := TypeOf(v, ns, Read(notes).value); t.Ok? && (t.value == "aws" || t.value == "azure")
    ensures var q := Admit(ns, notes, p, v).value;
      var k := Key(ns, q.account);
      k in w.store.ids && WriteOrder.Complete(w.store, k)
  {
    hide WriteOrder.OrderInv, WriteOrder.Complete, AddProxy, AddInit, Holds, Count, Volumes, TypeOf, ProviderArgs, Read, AccountName;
    var plan := Read(notes).value;
    var typeName := TypeOf(v, ns, plan).value;
    FreshPodGetsOneOfEach(ns, notes, p, v);
    ReadIdentity(notes);
    assert ProviderArgs(v, ns, plan, typeName).Ok?;
    var k := Key(ns, plan.identity);
    IdentityIsRead(v, ns, plan, typeName);
    PublishedIsComplete(w, k);
  }

  lemma ReadIdentity(notes: map<string, string>)
    requires Read(notes).Ok? && Read(notes).value.Inject? && !Read(notes).value.proxy.Ingress?
    ensures Read(notes).value.identity != "" && AccountName(Read(notes).value) == Read(notes).value.identity
  {
  }

  /** For an aws or azure egress proxy the arguments need the identity's own id. */
  lemma IdentityIsRead(v: View, ns: string, plan: Plan, typeName: string)
    requires plan.Inject? && !plan.proxy.Ingress? && (typeName == "aws" || typeName == "azure")
    requires ProviderArgs(v, ns, plan, typeName).Ok?
    ensures var i := v.identity(Key(ns, plan.identity), ForId); i.Found? && i.value.metadata != map[]
  {
    var i := v.identity(Key(ns, plan.identity), ForId);
    assert IdOf(i).Ok?;
    assert ID_META in i.value.metadata;
  }

  lemma PublishedIsComplete(w: Protocol.World, k: Key)
    requires WriteOrder.OrderInv(w) && k in w.store.ids && w.store.ids[k].metadata != map[]
    ensures WriteOrder.Complete(w.store, k)
  {
    assert WriteOrder.KeyOk(w, k);
  }

  /** With an up-to-date status the webhook finds the provider object. */
  lemma StatusNamesProvider(s: Store, ns: string, plan: Plan, v: View, b: Backend)
    requires ReadsAll(v, s) && plan.Inject? && !plan.proxy.Ingress? && plan.provider == ""
    requires Key(ns, plan.identity) in s.ids
    requires var o := s.ids[Key(ns, plan.identity)];
      Convergence.Resolve(s, Key(ns, o.provider)) == Some(b) && o.statusProvider == KindName(b.kind)
    ensures var t := TypeOf(v, ns, plan);
      t.Ok? && ProviderArgs(v, ns, plan, t.value) != Denied(ProviderFailed)
        && ProviderArgs(v, ns, plan, t.value) != Denied(UnknownType)
        && ProviderArgs(v, ns, plan, t.value) != Denied(IdentityFailed)
  {
  }
}
