/** The nat table, the commands the init container runs on it, and what becomes of
    a packet. */
module Netfilter {
  import opened Cluster

  /** The chains of the nat table: built in, made by the scripts, or anything else. */
  datatype Chain =
    | PREROUTING | INPUT | OUTPUT | POSTROUTING
    | AEGIS_OUTPUT | AEGIS_OUT_REDIRECT | AEGIS_INBOUND | AEGIS_IN_REDIRECT
    | UserChain(name: string)

  datatype Target = Jump(chain: Chain) | Return | Redirect(port: nat)

  /** A rule applies when all its given conditions hold. */
  datatype Rule = Rule(tcp: bool, owner: Option<nat>, dport: Option<nat>, target: Target)

  datatype Packet = Packet(tcp: bool, uid: Option<nat>, dport: nat)

  datatype Verdict = Accept | RedirectTo(port: nat)

  type Table = map<Chain, seq<Rule>>

  predicate Matches(r: Rule, p: Packet) {
    && (r.tcp ==> p.tcp)
    && (r.owner.Some? ==> p.uid == r.owner)
    && (r.dport.Some? ==> p.tcp && p.dport == r.dport.value)
  }

  // ---------------------------------------------------------------- traversal

  /** A certificate that jumps never come back: they lead to lower levels. */
  ghost predicate Layered(t: Table, level: map<Chain, nat>) {
    forall c :: c in t ==> c in level && forall r :: r in t[c] && r.target.Jump? ==>
      r.target.chain in t && r.target.chain in level && level[r.target.chain] < level[c]
  }

  /** The rules left to try in a chain: a redirection ends the traversal (Some),
      RETURN and the end of the chain go back to the caller (None). */
  ghost function Walk(t: Table, level: map<Chain, nat>, bound: nat, rules: seq<Rule>, p: Packet): Option<nat>
    requires Layered(t, level)
    requires forall r :: r in rules && r.target.Jump? ==> r.target.chain in t && level[r.target.chain] < bound
    decreases bound, |rules|
  {
    if rules == [] then None
    else if !Matches(rules[0], p) then Walk(t, level, bound, rules[1..], p)
    else match rules[0].target
      case Return => None
      case Redirect(port) => Some(port)
      case Jump(c) =>
        var inner := Walk(t, level, level[c], t[c], p);
        if inner.Some? then inner else Walk(t, level, bound, rules[1..], p)
  }

  /** The fate of a packet at a built-in chain whose policy is ACCEPT. */
  ghost function Fate(t: Table, level: map<Chain, nat>, hook: Chain, p: Packet): Verdict
    requires Layered(t, level)
  {
    if hook !in t then Accept
    else
      var r := Walk(t, level, level[hook], t[hook], p);
      if r.Some? then RedirectTo(r.value) else Accept
  }

  /** The fate does not depend on the certificate. */
  lemma {:induction false} WalkUnique(t: Table, l1: map<Chain, nat>, b1: nat, l2: map<Chain, nat>, b2: nat, rules: seq<Rule>, p: Packet)
    requires Layered(t, l1) && Layered(t, l2)
    requires forall r :: r in rules && r.target.Jump? ==> r.target.chain in t && l1[r.target.chain] < b1 && l2[r.target.chain] < b2
    ensures Walk(t, l1, b1, rules, p) == Walk(t, l2, b2, rules, p)
    decreases b1, |rules|
  {
    if rules != [] {
      WalkUnique(t, l1, b1, l2, b2, rules[1..], p);
      if rules[0].target.Jump? {
        var c := rules[0].target.chain;
        WalkUnique(t, l1, l1[c], l2, l2[c], t[c], p);
      }
    }
  }

  lemma FateUnique(t: Table, l1: map<Chain, nat>, l2: map<Chain, nat>, hook: Chain, p: Packet)
    requires Layered(t, l1) && Layered(t, l2)
    ensures Fate(t, l1, hook, p) == Fate(t, l2, hook, p)
  {
    if hook in t { WalkUnique(t, l1, l1[hook], l2, l2[hook], t[hook], p); }
  }

  // ---------------------------------------------------------------- commands

  datatype Command =
    | Flush                                   // iptables -t nat -F
    | Other                                   // iptables -F (another table), -L
    | NewChain(name: Chain)                  // -N
    | Append(chain: Chain, rule: Rule)       // -A

  /** A command that cannot be carried out fails and changes nothing. */
  function Step(t: Table, c: Command): Table {
    match c
    case Flush => map n | n in t :: []
    case Other => t
    case NewChain(n) => if n in t then t else t[n := []]
    case Append(n, r) =>
      if n !in t || (r.target.Jump? && r.target.chain !in t) then t else t[n := t[n] + [r]]
  }

  /** The script goes on after a failing command. */
  function Exec(t: Table, cs: seq<Command>): Table
    decreases |cs|
  {
    if cs == [] then t else Exec(Step(t, cs[0]), cs[1..])
  }

  /** The table as the init container changes it. */
  class NatTable {
    var chains: Table

    constructor (chains: Table)
      ensures this.chains == chains
    {
      this.chains := chains;
    }

    method FlushAll()
      modifies this
      ensures chains.Keys == old(chains).Keys && forall n :: n in chains ==> chains[n] == []
    {
      chains := map n | n in chains :: [];
    }

    method Make(name: Chain) returns (ok: bool)
      modifies this
      ensures ok <==> name !in old(chains)
      ensures chains == if ok then old(chains)[name := []] else old(chains)
    {
      ok := name !in chains;
      if ok { chains := chains[name := []]; }
    }

    method Add(chain: Chain, rule: Rule) returns (ok: bool)
      modifies this
      ensures ok <==> chain in old(chains) && (rule.target.Jump? ==> rule.target.chain in old(chains))
      ensures chains == if ok then old(chains)[chain := old(chains)[chain] + [rule]] else old(chains)
    {
      ok := chain in chains && (rule.target.Jump? ==> rule.target.chain in chains);
      if ok { chains := chains[chain := chains[chain] + [rule]]; }
    }

    /** /bin/sh -c: one command after another, whatever their exit status. */
    method Shell(script: seq<Command>)
      modifies this
      ensures chains == Exec(old(chains), script)
    {
      for i := 0 to |script|
        invariant Exec(old(chains), script) == Exec(chains, script[i..])
      {
        assert script[i..][0] == script[i] && script[i..][1..] == script[i + 1..];
        match script[i] {
          case Flush =>
            ghost var before := chains;
            FlushAll();
            assert chains == Step(before, Flush);
          case Other =>
          case NewChain(name) => var _ := Make(name);
          case Append(chain, rule) => var _ := Add(chain, rule);
        }
      }
      assert script[|script|..] == [];
    }
  }

  // ---------------------------------------------------------------- the three scripts

  /** A script with its parameters filled in. */
  datatype Script =
    | Egress(uid: nat, outPort: nat)
    | Ingress(uid: nat, inPort: nat, appPort: nat)
    | Combined(uid: nat, inPort: nat, outPort: nat, appPort: nat)

  function To(target: Target): Rule { Rule(false, None, None, target) }
  function Tcp(target: Target): Rule { Rule(true, None, None, target) }
  function TcpTo(dport: nat, target: Target): Rule { Rule(true, None, Some(dport), target) }
  function From(uid: nat, target: Target): Rule { Rule(false, Some(uid), None, target) }

  /** The sections the three files are made of. */
  const RESET: seq<Command> := [Flush, Other]

  function Declare(s: Script): seq<Command> {
    match s
    case Egress(_, _) => [NewChain(AEGIS_OUTPUT), NewChain(AEGIS_OUT_REDIRECT)]
    case Ingress(_, _, _) => [NewChain(AEGIS_OUTPUT), NewChain(AEGIS_IN_REDIRECT), NewChain(AEGIS_INBOUND)]
    case Combined(_, _, _, _) =>
      [NewChain(AEGIS_OUTPUT), NewChain(AEGIS_IN_REDIRECT), NewChain(AEGIS_OUT_REDIRECT), NewChain(AEGIS_INBOUND)]
  }

  function Common(uid: nat): seq<Command> {
    [Append(OUTPUT, Tcp(Jump(AEGIS_OUTPUT))), Append(AEGIS_OUTPUT, From(uid, Return))]
  }

  function Outbound(outPort: nat): seq<Command> {
    [Append(AEGIS_OUTPUT, To(Jump(AEGIS_OUT_REDIRECT))), Append(AEGIS_OUT_REDIRECT, Tcp(Redirect(outPort)))]
  }

  function Inbound(inPort: nat, appPort: nat): seq<Command> {
    [Append(PREROUTING, Tcp(Jump(AEGIS_INBOUND))),
     Append(AEGIS_INBOUND, TcpTo(appPort, Jump(AEGIS_IN_REDIRECT))),
     Append(AEGIS_IN_REDIRECT, Tcp(Redirect(inPort))),
     Append(OUTPUT, Tcp(Jump(AEGIS_OUTPUT)))]
  }

  const LAST: seq<Command> := [Append(POSTROUTING, To(Return))]

  /** Everything a script appends. */
  function Body(s: Script): seq<Command> {
    match s
    case Egress(uid, outPort) => Common(uid) + Outbound(outPort) + LAST
    case Ingress(uid, inPort, appPort) => Common(uid) + Inbound(inPort, appPort) + LAST
    case Combined(uid, inPort, outPort, appPort) => Common(uid) + Outbound(outPort) + Inbound(inPort, appPort) + LAST
  }

  /** The whole script; two of them end by listing the table. */
  function Text(s: Script): seq<Command> {
    RESET + Declare(s) + Body(s) + (if s.Egress? then [] else [Other])
  }

  /** Line by line as the three files have them. */
  lemma EgressAsWritten(uid: nat, outPort: nat)
    ensures Text(Egress(uid, outPort)) == [
      Flush, Other, NewChain(AEGIS_OUTPUT), NewChain(AEGIS_OUT_REDIRECT),
      Append(OUTPUT, Rule(true, None, None, Jump(AEGIS_OUTPUT))),
      Append(AEGIS_OUTPUT, Rule(false, Some(uid), None, Return)),
      Append(AEGIS_OUTPUT, Rule(false, None, None, Jump(AEGIS_OUT_REDIRECT))),
      Append(AEGIS_OUT_REDIRECT, Rule(true, None, None, Redirect(outPort))),
      Append(POSTROUTING, Rule(false, None, None, Return))]
  {
  }

  lemma IngressAsWritten(uid: nat, inPort: nat, appPort: nat)
    ensures Text(Ingress(uid, inPort, appPort)) == [
      Flush, Other, NewChain(AEGIS_OUTPUT), NewChain(AEGIS_IN_REDIRECT), NewChain(AEGIS_INBOUND),
      Append(OUTPUT, Rule(true, None, None, Jump(AEGIS_OUTPUT))),
      Append(AEGIS_OUTPUT, Rule(false, Some(uid), None, Return)),
      Append(PREROUTING, Rule(true, None, None, Jump(AEGIS_INBOUND))),
      Append(AEGIS_INBOUND, Rule(true, None, Some(appPort), Jump(AEGIS_IN_REDIRECT))),
      Append(AEGIS_IN_REDIRECT, Rule(true, None, None, Redirect(inPort))),
      Append(OUTPUT, Rule(true, None, None, Jump(AEGIS_OUTPUT))),
      Append(POSTROUTING, Rule(false, None, None, Return)), Other]
  {
  }

  lemma CombinedAsWritten(uid: nat, inPort: nat, outPort: nat, appPort: nat)
    ensures Text(Combined(uid, inPort, outPort, appPort)) == [
      Flush, Other, NewChain(AEGIS_OUTPUT), NewChain(AEGIS_IN_REDIRECT), NewChain(AEGIS_OUT_REDIRECT), NewChain(AEGIS_INBOUND),
      Append(OUTPUT, Rule(true, None, None, Jump(AEGIS_OUTPUT))),
      Append(AEGIS_OUTPUT, Rule(false, Some(uid), None, Return)),
      Append(AEGIS_OUTPUT, Rule(false, None, None, Jump(AEGIS_OUT_REDIRECT))),
      Append(AEGIS_OUT_REDIRECT, Rule(true, None, None, Redirect(outPort))),
      Append(PREROUTING, Rule(true, None, None, Jump(AEGIS_INBOUND))),
      Append(AEGIS_INBOUND, Rule(true, None, Some(appPort), Jump(AEGIS_IN_REDIRECT))),
      Append(AEGIS_IN_REDIRECT, Rule(true, None, None, Redirect(inPort))),
      Append(OUTPUT, Rule(true, None, None, Jump(AEGIS_OUTPUT))),
      Append(POSTROUTING, Rule(false, None, None, Return)), Other]
  {
  }

  /** The built-in chains of the nat table, which always exist. */
  predicate IsNat(t: Table) {
    PREROUTING in t && INPUT in t && OUTPUT in t && POSTROUTING in t
  }

  // ---------------------------------------------------------------- what they install

  function Declared(s: Script): set<Chain> {
    {AEGIS_OUTPUT} + (if s.Ingress? then {} else {AEGIS_OUT_REDIRECT})
      + (if s.Egress? then {} else {AEGIS_IN_REDIRECT, AEGIS_INBOUND})
  }

  /** The rules of each chain once a script has run. */
  function RulesOf(s: Script, c: Chain): seq<Rule> {
    match c
    case OUTPUT =>
      if s.Egress? then [Tcp(Jump(AEGIS_OUTPUT))] else [Tcp(Jump(AEGIS_OUTPUT)), Tcp(Jump(AEGIS_OUTPUT))]
    case AEGIS_OUTPUT =>
      if s.Ingress? then [From(s.uid, Return)] else [From(s.uid, Return), To(Jump(AEGIS_OUT_REDIRECT))]
    case AEGIS_OUT_REDIRECT => if s.Ingress? then [] else [Tcp(Redirect(s.outPort))]
    case PREROUTING => if s.Egress? then [] else [Tcp(Jump(AEGIS_INBOUND))]
    case AEGIS_INBOUND => if s.Egress? then [] else [TcpTo(s.appPort, Jump(AEGIS_IN_REDIRECT))]
    case AEGIS_IN_REDIRECT => if s.Egress? then [] else [Tcp(Redirect(s.inPort))]
    case POSTROUTING => [To(Return)]
    case _ => []
  }

  /** The old chains and the declared ones, holding the script's rules and no others. */
  function Installed(t: Table, s: Script): Table {
    map c | c in t.Keys + Declared(s) :: RulesOf(s, c)
  }

  /** The rules appended to one chain, in order. */
  function Only(cs: seq<Command>, c: Chain): seq<Rule>
    decreases |cs|
  {
    if cs == [] then []
    else (if cs[0].Append? && cs[0].chain == c then [cs[0].rule] else []) + Only(cs[1..], c)
  }

  predicate Fits(t: Table, c: Command) {
    c.Append? && c.chain in t && (c.rule.target.Jump? ==> c.rule.target.chain in t)
  }

  lemma {:induction false} ExecAppend(t: Table, a: seq<Command>, b: seq<Command>)
    ensures Exec(t, a + b) == Exec(Exec(t, a), b)
    decreases |a|
  {
    if a == [] {
      assert a + b == b;
    } else {
      assert (a + b)[0] == a[0] && (a + b)[1..] == a[1..] + b;
      ExecAppend(Step(t, a[0]), a[1..], b);
    }
  }

  lemma {:induction false} OnlyAppend(a: seq<Command>, b: seq<Command>, c: Chain)
    ensures Only(a + b, c) == Only(a, c) + Only(b, c)
    decreases |a|
  {
    if a == [] {
      assert a + b == b;
    } else {
      assert (a + b)[0] == a[0] && (a + b)[1..] == a[1..] + b;
      OnlyAppend(a[1..], b, c);
    }
  }

  /** Appends that can all be carried out extend each chain by its own rules. */
  lemma {:induction false} AppendsExtend(t: Table, cs: seq<Command>)
    requires forall c :: c in cs ==> Fits(t, c)
    ensures Exec(t, cs).Keys == t.Keys
    ensures forall n :: n in t ==> Exec(t, cs)[n] == t[n] + Only(cs, n)
    decreases |cs|
  {
    if cs != [] {
      assert Fits(t, cs[0]);
      var t' := Step(t, cs[0]);
      forall c | c in cs[1..] ensures Fits(t', c) { assert c in cs; }
      AppendsExtend(t', cs[1..]);
    }
  }

  predicate Blank(t: Table, keys: set<Chain>) {
    t.Keys == keys && forall n :: n in t ==> t[n] == []
  }

  lemma {:induction false} DeclaresAdd(t: Table, keys: set<Chain>, cs: seq<Command>)
    requires Blank(t, keys) && forall c :: c in cs ==> c.NewChain?
    ensures Blank(Exec(t, cs), keys + set c | c in cs && c.NewChain? :: c.name)
    decreases |cs|
  {
    if cs != [] {
      assert cs[0].NewChain? && cs == [cs[0]] + cs[1..];
      var t' := Step(t, cs[0]);
      forall c | c in cs[1..] ensures c.NewChain? { assert c in cs; }
      DeclaresAdd(t', keys + {cs[0].name}, cs[1..]);
      assert keys + {cs[0].name} + (set c | c in cs[1..] && c.NewChain? :: c.name)
          == keys + set c | c in cs && c.NewChain? :: c.name;
    }
  }

  function Own(cmd: Command, c: Chain): seq<Rule> {
    if cmd.Append? && cmd.chain == c then [cmd.rule] else []
  }

  lemma OnlyTwo(x: Command, y: Command, c: Chain)
    ensures Only([x], c) == Own(x, c) && Only([x, y], c) == Own(x, c) + Own(y, c)
  {
    assert [x][1..] == [] && [x, y][1..] == [y] && [y][1..] == [];
  }

  lemma InboundRules(inPort: nat, appPort: nat, c: Chain)
    ensures Only(Inbound(inPort, appPort), c) ==
      match c
      case PREROUTING => [Tcp(Jump(AEGIS_INBOUND))]
      case AEGIS_INBOUND => [TcpTo(appPort, Jump(AEGIS_IN_REDIRECT))]
      case AEGIS_IN_REDIRECT => [Tcp(Redirect(inPort))]
      case OUTPUT => [Tcp(Jump(AEGIS_OUTPUT))]
      case _ => []
  {
    var cs := Inbound(inPort, appPort);
    assert cs == [cs[0], cs[1]] + [cs[2], cs[3]];
    OnlyAppend([cs[0], cs[1]], [cs[2], cs[3]], c);
    OnlyTwo(cs[0], cs[1], c);
    OnlyTwo(cs[2], cs[3], c);
  }

  lemma CommonOutbound(uid: nat, outPort: nat, c: Chain)
    ensures Only(Common(uid), c) == RulesOf(Ingress(uid, 0, 0), c)[..if c == OUTPUT || c == AEGIS_OUTPUT then 1 else 0]
    ensures Only(Common(uid) + Outbound(outPort), c) == if c == POSTROUTING then [] else RulesOf(Egress(uid, outPort), c)
  {
    OnlyAppend(Common(uid), Outbound(outPort), c);
    OnlyTwo(Common(uid)[0], Common(uid)[1], c);
    OnlyTwo(Outbound(outPort)[0], Outbound(outPort)[1], c);
  }

  lemma LastRules(cs: seq<Command>, c: Chain)
    ensures Only(cs + LAST, c) == Only(cs, c) + if c == POSTROUTING then [To(Return)] else []
  {
    OnlyAppend(cs, LAST, c);
    OnlyTwo(LAST[0], LAST[0], c);
  }

  lemma BodyRules(s: Script, c: Chain)
    ensures Only(Body(s), c) == RulesOf(s, c)
  {
    hide Only, Common, Outbound, Inbound;
    match s
    case Egress(uid, outPort) =>
      CommonOutbound(uid, outPort, c);
      LastRules(Common(uid) + Outbound(outPort), c);
    case Ingress(uid, inPort, appPort) =>
      CommonOutbound(uid, 0, c);
      InboundRules(inPort, appPort, c);
      OnlyAppend(Common(uid), Inbound(inPort, appPort), c);
      LastRules(Common(uid) + Inbound(inPort, appPort), c);
    case Combined(uid, inPort, outPort, appPort) =>
      CommonOutbound(uid, outPort, c);
      InboundRules(inPort, appPort, c);
      OnlyAppend(Common(uid) + Outbound(outPort), Inbound(inPort, appPort), c);
      LastRules(Common(uid) + Outbound(outPort) + Inbound(inPort, appPort), c);
  }

  lemma DeclaredChains(t: Table, s: Script)
    ensures Blank(Exec(Exec(t, RESET), Declare(s)), t.Keys + Declared(s))
  {
    assert RESET[1..] == [Other] && RESET[1..][1..] == [];
    assert Exec(t, RESET) == Step(t, Flush);
    DeclaresAdd(Exec(t, RESET), t.Keys, Declare(s));
    DeclaredIs(s);
  }

  lemma DeclaredIs(s: Script)
    ensures (forall c :: c in Declare(s) ==> c.NewChain?)
    ensures (set c | c in Declare(s) && c.NewChain? :: c.name) == Declared(s)
  {
    forall n | n in Declared(s) ensures NewChain(n) in Declare(s) { }
  }

  lemma BodyFits(t: Table, s: Script)
    requires IsNat(t) && Declared(s) <= t.Keys
    ensures forall c :: c in Body(s) ==> Fits(t, c)
  {
  }

  /** Whatever was in the table before, a script leaves exactly its own rules. */
  lemma ScriptInstalls(t: Table, s: Script)
    requires IsNat(t)
    ensures Exec(t, Text(s)) == Installed(t, s)
  {
    hide Body, Declare, RulesOf, Declared;
    var tail: seq<Command> := if s.Egress? then [] else [Other];
    ExecAppend(t, RESET + Declare(s) + Body(s), tail);
    ExecAppend(t, RESET + Declare(s), Body(s));
    ExecAppend(t, RESET, Declare(s));
    DeclaredChains(t, s);
    var blank := Exec(Exec(t, RESET), Declare(s));
    BodyFits(blank, s);
    AppendsExtend(blank, Body(s));
    var full := Exec(blank, Body(s));
    assert Exec(full, tail) == full by {
      if !s.Egress? { assert tail[1..] == []; }
    }
    forall c | c in full ensures full[c] == RulesOf(s, c) {
      BodyRules(s, c);
      assert blank[c] == [];
    }
    assert full == Installed(t, s);
  }

  // ---------------------------------------------------------------- what becomes of packets

  /** What a script is for: traffic of anyone but the proxy goes out through it,
      traffic to the application's port comes in through it. */
  function Intent(s: Script, hook: Chain, p: Packet): Verdict {
    if hook.OUTPUT? && !s.Ingress? && p.tcp && p.uid != Some(s.uid) then RedirectTo(s.outPort)
    else if hook.PREROUTING? && !s.Egress? && p.tcp && p.dport == s.appPort then RedirectTo(s.inPort)
    else Accept
  }

  predicate BuiltIn(hook: Chain) {
    hook.PREROUTING? || hook.INPUT? || hook.OUTPUT? || hook.POSTROUTING?
  }

  function Levels(t: Table): map<Chain, nat> {
    map c | c in t :: (if c.OUTPUT? || c.PREROUTING? then 2 else if c.AEGIS_OUTPUT? || c.AEGIS_INBOUND? then 1 else 0)
  }

  /** No jump of an installed script ever leads back. */
  lemma InstalledLayered(t: Table, s: Script)
    requires IsNat(t)
    ensures Layered(Installed(t, s), Levels(Installed(t, s)))
  {
    var u := Installed(t, s);
    forall c: Chain, r: Rule | c in u && r in u[c] && r.target.Jump?
      ensures r.target.chain in u && Levels(u)[r.target.chain] < Levels(u)[c]
    {
      assert r in RulesOf(s, c);
    }
  }

  lemma WalkOne(t: Table, level: map<Chain, nat>, bound: nat, r: Rule, rest: seq<Rule>, p: Packet)
    requires Layered(t, level)
    requires forall q :: q in [r] + rest && q.target.Jump? ==> q.target.chain in t && level[q.target.chain] < bound
    ensures Walk(t, level, bound, [r] + rest, p) ==
      if Matches(r, p) && r.target.Return? then None
      else if Matches(r, p) && r.target.Redirect? then Some(r.target.port)
      else if Matches(r, p) && Walk(t, level, level[r.target.chain], t[r.target.chain], p).Some?
        then Walk(t, level, level[r.target.chain], t[r.target.chain], p)
      else Walk(t, level, bound, rest, p)
  {
    assert ([r] + rest)[1..] == rest;
  }

  lemma WalkSingle(t: Table, level: map<Chain, nat>, bound: nat, r: Rule, p: Packet)
    requires Layered(t, level)
    requires r.target.Jump? ==> r.target.chain in t && level[r.target.chain] < bound
    ensures Walk(t, level, bound, [r], p) ==
      if !Matches(r, p) || r.target.Return? then None
      else if r.target.Redirect? then Some(r.target.port)
      else Walk(t, level, level[r.target.chain], t[r.target.chain], p)
  {
    assert [r] + [] == [r];
    WalkOne(t, level, bound, r, [], p);
  }

  /** The common part of both directions, and the outbound part. */
  lemma OutputWalk(t: Table, s: Script, level: map<Chain, nat>, p: Packet)
    requires IsNat(t) && Layered(Installed(t, s), level)
    ensures Walk(Installed(t, s), level, level[AEGIS_OUTPUT], RulesOf(s, AEGIS_OUTPUT), p) ==
      if !s.Ingress? && p.tcp && p.uid != Some(s.uid) then Some(s.outPort) else None
  {
    var u := Installed(t, s);
    var bound := level[AEGIS_OUTPUT];
    assert u[AEGIS_OUTPUT] == RulesOf(s, AEGIS_OUTPUT);
    if s.Ingress? {
      WalkSingle(u, level, bound, From(s.uid, Return), p);
    } else {
      var out := To(Jump(AEGIS_OUT_REDIRECT));
      assert out in u[AEGIS_OUTPUT];
      assert [From(s.uid, Return)] + [out] == RulesOf(s, AEGIS_OUTPUT);
      WalkOne(u, level, bound, From(s.uid, Return), [out], p);
      WalkSingle(u, level, bound, out, p);
      WalkSingle(u, level, level[AEGIS_OUT_REDIRECT], Tcp(Redirect(s.outPort)), p);
    }
  }

  lemma InboundWalk(t: Table, s: Script, level: map<Chain, nat>, p: Packet)
    requires IsNat(t) && !s.Egress? && Layered(Installed(t, s), level)
    ensures Walk(Installed(t, s), level, level[PREROUTING], RulesOf(s, PREROUTING), p) ==
      if p.tcp && p.dport == s.appPort then Some(s.inPort) else None
  {
    var u := Installed(t, s);
    var jump, port := Tcp(Jump(AEGIS_INBOUND)), TcpTo(s.appPort, Jump(AEGIS_IN_REDIRECT));
    assert jump in u[PREROUTING] && port in u[AEGIS_INBOUND];
    WalkSingle(u, level, level[PREROUTING], jump, p);
    WalkSingle(u, level, level[AEGIS_INBOUND], port, p);
    WalkSingle(u, level, level[AEGIS_IN_REDIRECT], Tcp(Redirect(s.inPort)), p);
  }

  /** For every table there was before, every packet and every built-in chain, the
      script gives exactly the intended verdict. */
  lemma ScriptMeetsIntent(t: Table, s: Script, level: map<Chain, nat>, hook: Chain, p: Packet)
    requires IsNat(t) && BuiltIn(hook) && Layered(Exec(t, Text(s)), level)
    ensures Fate(Exec(t, Text(s)), level, hook, p) == Intent(s, hook, p)
  {
    ScriptInstalls(t, s);
    var u := Installed(t, s);
    hide Text, Exec;
    assert u[hook] == RulesOf(s, hook);
    match hook
    case OUTPUT =>
      var jump := Tcp(Jump(AEGIS_OUTPUT));
      assert jump in u[OUTPUT];
      OutputWalk(t, s, level, p);
      WalkSingle(u, level, level[OUTPUT], jump, p);
      if !s.Egress? {
        assert [jump] + [jump] == RulesOf(s, OUTPUT);
        WalkOne(u, level, level[OUTPUT], jump, [jump], p);
      }
    case PREROUTING => if !s.Egress? { InboundWalk(t, s, level, p); }
    case POSTROUTING => WalkSingle(u, level, level[POSTROUTING], To(Return), p);
    case _ =>
  }

  /** The combined script is the two simple ones side by side, second OUTPUT jump
      notwithstanding. */
  lemma CombinedIsBoth(t: Table, uid: nat, inPort: nat, outPort: nat, appPort: nat, hook: Chain, p: Packet,
                       l: map<Chain, nat>, le: map<Chain, nat>, li: map<Chain, nat>)
    requires IsNat(t)
    requires Layered(Exec(t, Text(Combined(uid, inPort, outPort, appPort))), l)
    requires Layered(Exec(t, Text(Egress(uid, outPort))), le)
    requires Layered(Exec(t, Text(Ingress(uid, inPort, appPort))), li)
    ensures Fate(Exec(t, Text(Combined(uid, inPort, outPort, appPort))), l, OUTPUT, p)
         == Fate(Exec(t, Text(Egress(uid, outPort))), le, OUTPUT, p)
    ensures Fate(Exec(t, Text(Combined(uid, inPort, outPort, appPort))), l, PREROUTING, p)
         == Fate(Exec(t, Text(Ingress(uid, inPort, appPort))), li, PREROUTING, p)
  {
    hide Text, Exec, Fate;
    ScriptMeetsIntent(t, Combined(uid, inPort, outPort, appPort), l, OUTPUT, p);
    ScriptMeetsIntent(t, Combined(uid, inPort, outPort, appPort), l, PREROUTING, p);
    ScriptMeetsIntent(t, Egress(uid, outPort), le, OUTPUT, p);
    ScriptMeetsIntent(t, Ingress(uid, inPort, appPort), li, PREROUTING, p);
  }

  /** Running a script over its own result leaves the same table, and so no packet's
      verdict changes. */
  lemma RerunChangesNothing(t: Table, s: Script, l: map<Chain, nat>, again: map<Chain, nat>, hook: Chain, p: Packet)
    requires IsNat(t)
    requires Layered(Exec(t, Text(s)), l) && Layered(Exec(Exec(t, Text(s)), Text(s)), again)
    ensures Exec(Exec(t, Text(s)), Text(s)) == Exec(t, Text(s))
    ensures Fate(Exec(Exec(t, Text(s)), Text(s)), again, hook, p) == Fate(Exec(t, Text(s)), l, hook, p)
  {
    hide Text, Exec, Fate;
    ScriptInstalls(t, s);
    ScriptInstalls(Installed(t, s), s);
    FateUnique(Exec(t, Text(s)), l, again, hook, p);
  }

  /** The scripts do not depend on one another's leftovers. */
  lemma LaterScriptWins(t: Table, first: Script, s: Script, level: map<Chain, nat>, hook: Chain, p: Packet)
    requires IsNat(t) && BuiltIn(hook) && Layered(Exec(Exec(t, Text(first)), Text(s)), level)
    ensures Fate(Exec(Exec(t, Text(first)), Text(s)), level, hook, p) == Intent(s, hook, p)
  {
    hide Text, Exec, Fate;
    ScriptInstalls(t, first);
    ScriptMeetsIntent(Installed(t, first), s, level, hook, p);
  }

  /** A level assignment always exists, so the verdict is defined. */
  lemma ScriptTerminates(t: Table, s: Script)
    requires IsNat(t)
    ensures Layered(Exec(t, Text(s)), Levels(Exec(t, Text(s))))
  {
    hide Text, Exec;
    ScriptInstalls(t, s);
    InstalledLayered(t, s);
  }
}
