/** The generated deep copies: an IngressPolicy's rules are a slice of structs of
    slices, an Identity's status holds a slice and a map. */
module DeepCopy {
  import opened Cluster
  import opened Slices

  /** What a slice of values holds; a nil slice differs from an empty one. */
  function Contents<T>(s: Slice<T>): Option<seq<T>>
    requires s.Valid()
    reads s.Repr()
  {
    if s.Nil? then None else Some(s.View())
  }

  // ---------------------------------------------------------------- rules

  datatype RuleValue = RuleValue(paths: Option<seq<string>>, methods: Option<seq<string>>, identities: Option<seq<string>>)

  datatype Rule = Rule(paths: Slice<string>, methods: Slice<string>, identities: Slice<string>)
  {
    predicate Valid() {
      paths.Valid() && methods.Valid() && identities.Valid()
    }

    function Repr(): set<object> {
      paths.Repr() + methods.Repr() + identities.Repr()
    }

    function Value(): RuleValue
      requires Valid()
      reads Repr()
    {
      RuleValue(Contents(paths), Contents(methods), Contents(identities))
    }
  }

  const ZERO_RULE := Rule(Nil, Nil, Nil)

  /** make and copy of a slice of plain values. */
  method CopySlice<T>(s: Slice<T>, zero: T) returns (out: Slice<T>)
    requires s.Valid()
    ensures out.Valid() && Contents(out) == Contents(s) && fresh(out.Repr())
    ensures out.Slice? ==> out.off == 0 && out.len == out.cap == out.a.Length
  {
    if s.Nil? { return Nil; }
    var a := new T[s.len](_ => zero);
    forall i | 0 <= i < s.len { a[i] := s.a[s.off + i]; }
    out := Slice(a, 0, s.len, s.len);
    assert out.View() == s.View();
  }

  /** Rule.DeepCopyInto. */
  method CopyRule(rule: Rule) returns (out: Rule)
    requires rule.Valid()
    ensures out.Valid() && out.Value() == rule.Value() && fresh(out.Repr())
    ensures Separate(out)
  {
    var paths := CopySlice(rule.paths, "");
    var methods := CopySlice(rule.methods, "");
    var identities := CopySlice(rule.identities, "");
    out := Rule(paths, methods, identities);
  }

  /** No two of its lists share an array. */
  predicate Separate(r: Rule) {
    r.paths.Repr() !! r.methods.Repr() && r.paths.Repr() !! r.identities.Repr() && r.methods.Repr() !! r.identities.Repr()
  }

  // ---------------------------------------------------------------- slices of rules

  predicate AllValid(rs: seq<Rule>) {
    forall i :: 0 <= i < |rs| ==> rs[i].Valid()
  }

  /** Every array the rules' lists are in. */
  ghost function ReprOf(rs: seq<Rule>): set<object> {
    set i, o | 0 <= i < |rs| && o in rs[i].Repr() :: o
  }

  ghost function Values(rs: seq<Rule>): (vs: seq<RuleValue>)
    requires AllValid(rs)
    reads ReprOf(rs)
    ensures |vs| == |rs| && forall i :: 0 <= i < |rs| ==> vs[i] == rs[i].Value()
  {
    seq(|rs|, i requires 0 <= i < |rs| reads ReprOf(rs) => rs[i].Value())
  }

  ghost predicate ValidRules(rules: Slice<Rule>)
    reads rules.Repr()
  {
    rules.Valid() && AllValid(rules.View())
  }

  ghost function RulesRepr(rules: Slice<Rule>): (r: set<object>)
    requires rules.Valid()
    reads rules.Repr()
  {
    rules.Repr() + ReprOf(rules.View())
  }

  /** The rules down to the bottom, nil kept apart from empty. */
  ghost function RulesValue(rules: Slice<Rule>): Option<seq<RuleValue>>
    requires ValidRules(rules)
    reads rules.Repr(), RulesRepr(rules)
  {
    if rules.Nil? then None else Some(Values(rules.View()))
  }

  /** No two of the rules' lists share an array. */
  ghost predicate AllSeparate(rs: seq<Rule>) {
    && (forall i :: 0 <= i < |rs| ==> Separate(rs[i]))
    && forall i, j :: 0 <= i < j < |rs| ==> rs[i].Repr() !! rs[j].Repr()
  }

  lemma OneMore(done: seq<Rule>, r: Rule)
    requires AllValid(done) && r.Valid() && AllSeparate(done) && Separate(r) && r.Repr() !! ReprOf(done)
    ensures AllValid(done + [r]) && AllSeparate(done + [r])
    ensures ReprOf(done + [r]) == ReprOf(done) + r.Repr()
    ensures Values(done + [r]) == Values(done) + [r.Value()]
  {
    hide Separate, Rule.Value, Rule.Valid;
    var all := done + [r];
    assert forall i :: 0 <= i < |done| ==> all[i] == done[i];
    forall o | o in r.Repr() ensures o in ReprOf(all) { assert o in all[|done|].Repr(); }
    forall o | o in ReprOf(done) ensures o in ReprOf(all) {
      var i :| 0 <= i < |done| && o in done[i].Repr();
      assert o in all[i].Repr();
    }
    forall i, j | 0 <= i < j < |all| ensures all[i].Repr() !! all[j].Repr() {
      if j == |done| { assert done[i].Repr() <= ReprOf(done); }
    }
  }

  /** The lists of rules are in arrays of strings, not of rules. */
  lemma OtherArrays(rs: seq<Rule>, a: array<Rule>)
    ensures a !in ReprOf(rs)
  {
  }

  lemma Reached(rs: seq<Rule>)
    ensures forall o :: o in ReprOf(rs) ==> allocated(o)
  {
  }

  lemma NothingYet()
    ensures AllValid([]) && AllSeparate([]) && ReprOf([]) == {} && Values([]) == []
  {
  }

  /** IngressPolicySpec.DeepCopyInto: the loop over the rules.  Even if rules of the
      original share arrays, those of the copy do not. */
  method CopyRules(rules: Slice<Rule>) returns (out: Slice<Rule>)
    requires ValidRules(rules)
    ensures ValidRules(out) && RulesValue(out) == RulesValue(rules) && AllSeparate(out.View())
    ensures fresh(RulesRepr(out))
  {
    hide AllSeparate, Values, Separate, ReprOf, Rule.Value, Rule.Repr, AllValid;
    NothingYet();
    if rules.Nil? { return Nil; }
    ghost var rs := rules.View();
    ghost var vs := Values(rs);
    Reached(rs);
    var a := new Rule[rules.len](_ => ZERO_RULE);
    OtherArrays(rs, a);
    ghost var done: seq<Rule>, seen: set<object> := [], {};
    for i := 0 to rules.len
      invariant rules.View() == rs && Values(rs) == vs
      invariant |done| == i && a[..i] == done
      invariant AllValid(done) && AllSeparate(done) && Values(done) == vs[..i]
      invariant ReprOf(done) == seen && fresh(seen)
    {
      Reached(rs);
      var r := CopyElement(rules, i);
      OneMore(done, r);
      OtherArrays(done + [r], a);
      a[i] := r;
      done, seen := done + [r], seen + r.Repr();
    }
    out := Slice(a, 0, rules.len, rules.len);
    assert out.View() == a[..] == done && vs[..rules.len] == vs;
  }

  method CopyElement(rules: Slice<Rule>, i: nat) returns (r: Rule)
    requires ValidRules(rules) && i < rules.Len()
    ensures r.Valid() && fresh(r.Repr()) && Separate(r)
    ensures r.Value() == Values(rules.View())[i]
  {
    hide Separate;
    assert rules.View()[i] == rules.At(i);
    r := CopyRule(rules.At(i));
  }

  // ---------------------------------------------------------------- the policy object

  datatype Condition = Condition(kind: string, status: string, reason: string, message: string)

  datatype PolicyValue = PolicyValue(meta: string, rules: Option<seq<RuleValue>>, conditions: Option<seq<Condition>>)

  /** `meta` stands for TypeMeta and ObjectMeta, copied by library code. */
  class IngressPolicy {
    var meta: string
    var rules: Slice<Rule>
    var conditions: Slice<Condition>

    constructor (meta: string, rules: Slice<Rule>, conditions: Slice<Condition>)
      ensures this.meta == meta && this.rules == rules && this.conditions == conditions
    {
      this.meta, this.rules, this.conditions := meta, rules, conditions;
    }

    ghost predicate Valid()
      reads this, rules.Repr()
    {
      ValidRules(rules) && conditions.Valid()
    }

    ghost function Repr(): set<object>
      requires Valid()
      reads this, rules.Repr()
    {
      RulesRepr(rules) + conditions.Repr()
    }

    ghost function Value(): PolicyValue
      requires Valid()
      reads this, rules.Repr(), Repr()
    {
      PolicyValue(meta, RulesValue(rules), Contents(conditions))
    }

    /** DeepCopyInto.  What `out` held before is dropped, not written through. */
    method DeepCopyInto(out: IngressPolicy)
      requires Valid()
      modifies out
      ensures out.Valid() && out.Value() == old(Value()) && AllSeparate(out.rules.View()) && fresh(out.Repr())
      ensures out != this ==> Valid() && Value() == old(Value()) && Repr() == old(Repr())
    {
      hide AllSeparate, Values, AllValid, Separate, ReprOf, Contents, RulesValue;
      NotReached(rules, conditions, out);
      var rules', conditions' := CopyLists();
      NotReached(rules', conditions', out);
      out.meta, out.rules, out.conditions := meta, rules', conditions';
    }

    method CopyLists() returns (rules': Slice<Rule>, conditions': Slice<Condition>)
      requires Valid()
      ensures ValidRules(rules') && conditions'.Valid()
      ensures RulesValue(rules') == RulesValue(rules) == old(RulesValue(rules))
      ensures Contents(conditions') == Contents(conditions) == old(Contents(conditions))
      ensures AllSeparate(rules'.View()) && fresh(RulesRepr(rules')) && fresh(conditions'.Repr())
    {
      hide AllSeparate, Values, AllValid, Separate, ReprOf;
      Reached(rules.View());
      rules' := CopyRules(rules);
      Reached(rules'.View());
      Reached(rules.View());
      conditions' := CopySlice(conditions, Condition("", "", "", ""));
    }
  }

  /** A policy is none of the arrays its rules are in. */
  lemma NotReached(rules: Slice<Rule>, conditions: Slice<Condition>, p: IngressPolicy)
    requires rules.Valid()
    ensures p !in RulesRepr(rules) && p !in conditions.Repr()
  {
  }

  datatype Which = Paths | Methods | Identities

  function ListOf(r: Rule, which: Which): Slice<string> {
    match which case Paths => r.paths case Methods => r.methods case Identities => r.identities
  }

  function Field(v: RuleValue, which: Which): Option<seq<string>> {
    match which case Paths => v.paths case Methods => v.methods case Identities => v.identities
  }

  function With(v: RuleValue, which: Which, list: Option<seq<string>>): RuleValue {
    match which
    case Paths => v.(paths := list)
    case Methods => v.(methods := list)
    case Identities => v.(identities := list)
  }

  /** An element of any list, written deep inside one of two policies that share no
      array, be it the copy or the original: the other reads as before.  If the lists
      of the written one are separate, as a copy's are, nothing but that list of that
      rule changes in it either. */
  method WriteList(ghost rs: seq<Rule>, ghost other: seq<Rule>, ghost i: nat, ghost which: Which,
                   list: Slice<string>, j: nat, x: string)
    requires AllValid(rs) && AllValid(other) && i < |rs| && ReprOf(rs) !! ReprOf(other)
    requires list == ListOf(rs[i], which) && j < list.Len()
    modifies list.Repr()
    ensures Values(other) == old(Values(other))
    ensures list.View() == old(list.View())[j := x]
    ensures AllSeparate(rs) ==> Values(rs) == old(Values(rs))[i := With(old(Values(rs))[i], which, Some(list.View()))]
  {
    hide Rule.Repr, Rule.Value, Rule.Valid, ReprOf, AllSeparate, Separate, ListOf, Contents, Values, With, Field;
    ghost var vs, os := Values(rs), Values(other);
    ghost var rule := rs[i];
    Within(rs, i, which);
    ValidList(rule, which);
    FieldsOf(rule);
    Reached(other);
    Reached(rs);
    SetElement(list, j, x);
    assert Values(other) == os;
    if AllSeparate(rs) {
      forall k | 0 <= k < |rs| && k != i ensures Values(rs)[k] == vs[k] {
        RulesApart(rs, i, k, which);
        Within(rs, k, which);
        assert rs[k].Value() == old(rs[k].Value());
      }
      forall w: Which | w != which ensures Contents(ListOf(rule, w)) == Field(vs[i], w) {
        ListsApart(rs, i, w, which);
        ValidList(rule, w);
        assert Contents(ListOf(rule, w)) == old(Contents(ListOf(rule, w)));
      }
      OneList(rule, which, vs[i]);
      ListIs(list);
    }
  }

  method SetElement(list: Slice<string>, j: nat, x: string)
    requires list.Valid() && j < list.Len()
    modifies list.Repr()
    ensures list.View() == old(list.View())[j := x]
  {
    list.a[list.off + j] := x;
  }

  lemma Within(rs: seq<Rule>, i: nat, which: Which)
    requires i < |rs| && AllValid(rs)
    ensures ListOf(rs[i], which).Repr() <= rs[i].Repr() <= ReprOf(rs) && rs[i].Valid()
  {
  }

  lemma ValidList(r: Rule, which: Which)
    requires r.Valid()
    ensures ListOf(r, which).Valid()
  {
  }

  lemma FieldsOf(r: Rule)
    requires r.Valid()
    ensures forall w: Which :: ListOf(r, w).Valid() && Contents(ListOf(r, w)) == Field(r.Value(), w)
  {
  }

  lemma ListIs(list: Slice<string>)
    requires list.Valid() && list.Slice?
    ensures Contents(list) == Some(list.View())
  {
  }

  lemma RulesApart(rs: seq<Rule>, i: nat, k: nat, which: Which)
    requires i < |rs| && k < |rs| && i != k && AllSeparate(rs)
    ensures ListOf(rs[i], which).Repr() !! rs[k].Repr()
  {
    if i < k { assert rs[i].Repr() !! rs[k].Repr(); } else { assert rs[k].Repr() !! rs[i].Repr(); }
  }

  lemma ListsApart(rs: seq<Rule>, i: nat, w: Which, which: Which)
    requires i < |rs| && w != which && AllSeparate(rs)
    ensures ListOf(rs[i], w).Repr() !! ListOf(rs[i], which).Repr()
  {
    assert Separate(rs[i]);
  }

  lemma OneList(r: Rule, which: Which, v: RuleValue)
    requires r.Valid()
    requires forall w: Which :: w != which ==> Contents(ListOf(r, w)) == Field(v, w)
    ensures r.Value() == With(v, which, Contents(ListOf(r, which)))
  {
    assert Paths != which ==> Contents(ListOf(r, Paths)) == Field(v, Paths);
    assert Methods != which ==> Contents(ListOf(r, Methods)) == Field(v, Methods);
    assert Identities != which ==> Contents(ListOf(r, Identities)) == Field(v, Identities);
  }

  // ---------------------------------------------------------------- the status of an identity

  /** A Go map: shared by whoever holds the reference. */
  class StringMap {
    var m: map<string, string>

    constructor ()
      ensures m == map[]
    {
      m := map[];
    }
  }

  method CopyMap(s: StringMap) returns (out: StringMap)
    ensures fresh(out) && out.m == s.m
  {
    out := new StringMap();
    var left := s.m.Keys;
    while left != {}
      invariant left <= s.m.Keys && out.m.Keys == s.m.Keys - left
      invariant forall k :: k in out.m ==> out.m[k] == s.m[k]
      decreases left
    {
      var key :| key in left;
      out.m := out.m[key := s.m[key]];
      left := left - {key};
    }
  }

  class IdentityStatus {
    var conditions: Slice<Condition>
    var provider: string
    var metadata: StringMap?

    constructor (conditions: Slice<Condition>, provider: string, metadata: StringMap?)
      ensures this.conditions == conditions && this.provider == provider && this.metadata == metadata
    {
      this.conditions, this.provider, this.metadata := conditions, provider, metadata;
    }

    predicate Valid()
      reads this
    {
      conditions.Valid()
    }

    function Repr(): set<object>
      reads this
    {
      conditions.Repr() + if metadata == null then {} else {metadata}
    }

    function Metadata(): Option<map<string, string>>
      reads this, Repr()
    {
      if metadata == null then None else Some(metadata.m)
    }

    function Value(): (Option<seq<Condition>>, string, Option<map<string, string>>)
      requires Valid()
      reads this, Repr()
    {
      (Contents(conditions), provider, Metadata())
    }

    method DeepCopyInto(out: IdentityStatus)
      requires Valid()
      modifies out
      ensures out.Valid() && out.Value() == old(Value()) && fresh(out.Repr())
      ensures out != this ==> Valid() && Value() == old(Value()) && Repr() == old(Repr())
    {
      out.conditions, out.provider, out.metadata := conditions, provider, metadata;
      var conditions' := CopySlice(conditions, Condition("", "", "", ""));
      out.conditions := conditions';
      if metadata != null {
        var metadata' := CopyMap(metadata);
        out.metadata := metadata';
      }
    }
  }

  /** Why the copy matters: an identity and its copy, each then written through,
      keep to themselves. */
  method CopyThenWrite(s: IdentityStatus, key: string, mine: string, theirs: string) returns (copy: IdentityStatus)
    requires s.Valid() && s.metadata != null
    modifies s.metadata
    ensures fresh(copy) && s.Metadata() == Some(old(s.metadata.m)[key := mine])
    ensures copy.Metadata() == Some(old(s.metadata.m)[key := theirs])
  {
    copy := new IdentityStatus(Nil, "", null);
    s.DeepCopyInto(copy);
    s.metadata.m := s.metadata.m[key := mine];
    copy.metadata.m := copy.metadata.m[key := theirs];
  }
}
