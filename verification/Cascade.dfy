/** Who owns what the operator makes: so that garbage collection, which follows owner
    references, takes exactly what was made for an identity once that is gone. */
module Cascade {
  import opened Cluster
  import opened Protocol
  import opened Safety
  import opened WriteOrder
  import opened Convergence
  import opened Ownership
  import Hypotheses

  // ---------------------------------------------------------------- the owners of new objects

  predicate New(s: Store, t: Store, ref: Ref) {
    ref !in s.deps && ref in t.deps
  }

  /** The owner of anything a worker's call adds: the account of an identity belongs
      to that identity, its binding to that account, the namespace's role to the
      default account, and the default account's binding to nobody. */
  predicate OwnersRight(s: Store, t: Store, k: Key) {
    var account, binding, root := Account(k.ns, k.name), Binding(k.ns, k.name), Account(k.ns, "default");
    && (New(s, t, account) ==> k in s.ids && t.deps[account].owner == Some(s.ids[k].uid))
    && (New(s, t, binding) && k.name != "default" ==>
          account in s.deps && t.deps[binding].owner == Some(s.deps[account].uid))
    && (New(s, t, Role(k.ns)) ==> root in s.deps && t.deps[Role(k.ns)].owner == Some(s.deps[root].uid))
    && (New(s, t, Binding(k.ns, "default")) ==> t.deps[Binding(k.ns, "default")].owner == None)
    && (forall r :: r in t.deps && r !in s.deps ==> r == account || r == binding || r == Role(k.ns) || r == Binding(k.ns, "default"))
  }

  lemma EnsureOwners(s: Store, k: Key, stage: Stage, missing: bool, c: Identity, helper: Backend, account: nat, io: Io)
    requires PcOk(s, k, Ensure(stage, missing, c, helper, account))
    requires PcBuilt(s, k, Ensure(stage, missing, c, helper, account))
    ensures OwnersRight(s, EnsureStep(s, k, stage, missing, c, helper, account, io).0, k)
  {
  }

  lemma NothingNew(s: Store, t: Store, k: Key)
    requires forall r :: r in t.deps ==> r in s.deps
    ensures OwnersRight(s, t, k)
  {
  }

  lemma StepOwners(s: Store, k: Key, pc: IdPc, io: Io)
    requires PcOk(s, k, pc) && PcBuilt(s, k, pc)
    ensures OwnersRight(s, IdStep(s, k, pc, io).0, k)
  {
    hide PcOk, PcBuilt, EnsureStep, OwnersRight, UpdateIdentity, UpdateIdentityStatus, Stored, AfterRead;
    var t := IdStep(s, k, pc, io).0;
    if pc.Ensure? {
      EnsureIsStep(s, k, pc.stage, pc.missing, pc.copy, pc.helper, pc.account, io);
      EnsureOwners(s, k, pc.stage, pc.missing, pc.copy, pc.helper, pc.account, io);
    } else {
      SameDependents(s, k, pc, io);
      NothingNew(s, t, k);
    }
  }

  lemma SameDependents(s: Store, k: Key, pc: IdPc, io: Io)
    requires !pc.Ensure?
    ensures IdStep(s, k, pc, io).0.deps == s.deps
  {
    hide Stored, AfterRead, CreateDep;
  }

  /** In every world a run reaches, a call of the worker of `k` gives what it adds its
      right owner. */
  lemma NewOwners(w: World, k: Key, io: Io)
    requires OrderInv(w)
    ensures OwnersRight(w.store, Do(w, IdCall(k, io)).store, k)
  {
    hide IdStep, PcOk, PcBuilt, OwnersRight;
    assert KeyOk(w, k);
    StepOwners(w.store, k, PcOf(w, k), io);
  }

  // ---------------------------------------------------------------- over a Reconcile

  /** The account and the binding of `k`, if there, were made for it. */
  predicate MadeFor(s: Store, k: Key) {
    var account, binding := Account(k.ns, k.name), Binding(k.ns, k.name);
    k in s.ids ==>
      && (account in s.deps ==> s.deps[account].owner == Some(s.ids[k].uid))
      && (binding in s.deps ==> account in s.deps && s.deps[binding].owner == Some(s.deps[account].uid))
  }

  predicate Up(s: Store, k: Key) {
    k in s.ids && !s.ids[k].deleting
  }

  lemma StepKeepsUp(s: Store, k: Key, pc: IdPc, io: Io)
    requires Up(s, k)
    ensures var t := IdStep(s, k, pc, io).0; Up(t, k) && t.ids.Keys == s.ids.Keys
  {
    hide EnsureStep, AfterRead, Stored;
    if pc.Ensure? {
      EnsureIsStep(s, k, pc.stage, pc.missing, pc.copy, pc.helper, pc.account, io);
      EnsureEffect(s, k, pc.stage, pc.missing, pc.copy, pc.helper, pc.account, io);
    }
  }

  lemma StepMadeFor(s: Store, t: Store, k: Key)
    requires MadeFor(s, k) && k.name != "default" && OwnersRight(s, t, k) && Hypotheses.Grows(s, t)
    ensures MadeFor(t, k)
  {
  }

  /** Every owner is still there. */
  lemma StepSettled(s: Store, t: Store, k: Key)
    requires Settled(s) && OwnersRight(s, t, k) && k.name != "default"
    requires Hypotheses.Grows(s, t) && t.ids.Keys == s.ids.Keys
    ensures Settled(t)
  {
    forall r ensures !Collectable(t, r) {
      if r in t.deps && t.deps[r].owner.Some? {
        OwnerThere(s, t, k, r);
      }
    }
  }

  lemma OwnerThere(s: Store, t: Store, k: Key, r: Ref)
    requires Settled(s) && OwnersRight(s, t, k) && k.name != "default"
    requires Hypotheses.Grows(s, t) && t.ids.Keys == s.ids.Keys
    requires r in t.deps && t.deps[r].owner.Some?
    ensures Alive(t, t.deps[r].owner.value)
  {
    var uid := t.deps[r].owner.value;
    if r in s.deps {
      assert !Collectable(s, r);
      if j :| j in s.ids && s.ids[j].uid == uid {
        assert j in t.ids;
      } else {
        var q :| q in s.deps && s.deps[q].uid == uid;
        assert q in t.deps;
      }
    } else {
      assert New(s, t, r);
      if r == Account(k.ns, k.name) {
        assert k in t.ids && t.ids[k].uid == uid;
      } else if r == Binding(k.ns, k.name) {
        assert Account(k.ns, k.name) in t.deps;
      } else {
        assert Account(k.ns, "default") in t.deps;
      }
    }
  }

  /** What holds while only the worker of `k` moves. */
  ghost predicate InMaking(w: World, k: Key) {
    && OrderInv(w) && Uids(w.store) && Edges(w.store) && Settled(w.store)
    && MadeFor(w.store, k) && Up(w.store, k)
  }

  lemma {:induction false} MakingOnRun(w: World, k: Key, actions: seq<Action>)
    requires InMaking(w, k) && k.name != "default"
    requires forall i :: 0 <= i < |actions| ==> actions[i].IdCall? && actions[i].k == k
    ensures InMaking(Run(w, actions), k) && Hypotheses.Grows(w.store, Run(w, actions).store)
    decreases |actions|
  {
    hide OrderInv, Uids, Edges, Settled, MadeFor, Up, OwnersRight, IdStep, Hypotheses.Grows;
    if actions == [] {
      Hypotheses.ItselfGrows(w.store);
    } else {
      var a := actions[0];
      var v := Do(w, a);
      CallIsOrderly(w.store, a);
      OrderKept(w, a);
      EdgesKept(w, a);
      NewOwners(w, k, a.io);
      Hypotheses.StepGrows(w.store, k, PcOf(w, k), a.io);
      StepKeepsUp(w.store, k, PcOf(w, k), a.io);
      StepMadeFor(w.store, v.store, k);
      StepSettled(w.store, v.store, k);
      MakingOnRun(v, k, actions[1..]);
      Hypotheses.GrowsOn(w.store, v.store, Run(w, actions).store);
    }
  }

  lemma CallIsOrderly(s: Store, a: Action)
    requires a.IdCall?
    ensures Orderly(s, a)
  {
  }

  /** From an identity that has neither account nor binding yet, two calls make both,
      owned so that once the identity is gone the collector takes exactly these two,
      in whatever order it works, and leaves everything else. */
  lemma MadeAndCollected(w: World, k: Key, b: Backend, meta: map<string, string>, refs: seq<Ref>)
    requires OrderInv(w) && Uids(w.store) && Edges(w.store) && Settled(w.store) && PcOf(w, k) == Idle
    requires Ready(w.store, k, b) && k.name != "default"
    requires Account(k.ns, k.name) !in w.store.deps && Binding(k.ns, k.name) !in w.store.deps
    ensures var account, binding := Account(k.ns, k.name), Binding(k.ns, k.name);
      var t := Reconcile(Reconcile(w.store, k, meta), k, meta);
      && Goal(t, k, b, meta) && k in t.ids && t.ids[k].uid == w.store.ids[k].uid
      && account in t.deps && t.deps[account].owner == Some(t.ids[k].uid)
      && binding in t.deps && t.deps[binding].owner == Some(t.deps[account].uid)
      && var u := CollectAll(t.(ids := t.ids - {k}), refs);
         && (forall r :: r in t.deps && r != account && r != binding ==> r in u.deps && u.deps[r] == t.deps[r])
         && (Settled(u) ==> u.deps.Keys == t.deps.Keys - {account, binding})
  {
    hide OrderInv, Uids, Edges, Settled, IdStep, Reconcile, Resolve, Hypotheses.Grows, CollectAll;
    TwoCallsConverge(w.store, k, b, meta);
    var first := ReconcileIsRun(w, k, meta);
    var w1 := Run(w, first);
    MakingOnRun(w, k, first);
    var second := ReconcileIsRun(w1, k, meta);
    var w2 := Run(w1, second);
    MakingOnRun(w1, k, second);
    SameUid(w.store, w1.store, k);
    SameUid(w1.store, w2.store, k);
    IsRooted(w2, k);
    ExactCascade(w2.store, k, refs);
  }

  lemma SameUid(s: Store, t: Store, k: Key)
    requires Hypotheses.Grows(s, t) && k in t.ids
    ensures k in s.ids && t.ids[k].uid == s.ids[k].uid
  {
  }

  lemma IsRooted(w: World, k: Key)
    requires OrderInv(w) && k in w.store.ids
    ensures Rooted(w.store, k.ns)
  {
    assert KeyOk(w, k);
  }
}
