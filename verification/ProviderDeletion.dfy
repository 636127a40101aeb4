/** Deleting a provider: when its finalizer may go, and that it does go. */
module ProviderDeletion {
  import opened Cluster
  import opened Protocol
  import opened Safety
  import opened Convergence

  // ---------------------------------------------------------------- looking back over a run

  /** The state before action `n`. */
  ghost function At(w: World, actions: seq<Action>, n: nat): World
    requires n <= |actions|
  {
    if n == 0 then w else Do(At(w, actions, n - 1), actions[n - 1])
  }

  lemma {:induction false} AtIsRun(w: World, actions: seq<Action>)
    ensures At(w, actions, |actions|) == Run(w, actions)
    decreases |actions|
  {
    if actions != [] {
      var last := |actions| - 1;
      AtIsRun(w, actions[..last]);
      AtPrefix(w, actions, last, last);
      assert actions[..last] + [actions[last]] == actions;
      RunAppend(w, actions[..last], [actions[last]]);
      assert [actions[last]][1..] == [];
    }
  }

  lemma {:induction false} AtPrefix(w: World, actions: seq<Action>, m: nat, n: nat)
    requires n <= m <= |actions|
    ensures At(w, actions[..m], n) == At(w, actions, n)
  {
    if n > 0 { AtPrefix(w, actions, m, n - 1); }
  }

  /** Hypothesis: a failing read in the check loop means not-found, that is, no
      such read fails for another reason. */
  ghost predicate ChecksTruthful(w: World, actions: seq<Action>, p: ProviderKey) {
    forall n :: 0 <= n < |actions| && actions[n].ProviderCall? && actions[n].p == p && PrPcOf(At(w, actions, n), p).PCheck?
      ==> !actions[n].io.fault
  }

  /** Action `m` is the List of `p` that returned `items`. */
  ghost predicate ListedAt(w: World, actions: seq<Action>, m: nat, p: ProviderKey, items: seq<Key>) {
    && m < |actions| && actions[m].ProviderCall? && actions[m].p == p && actions[m].items == items
    && PrPcOf(At(w, actions, m), p).PList?
    && IsListing(At(w, actions, m).store, p.key.name, items)
  }

  ghost predicate AbsentBetween(w: World, actions: seq<Action>, m: nat, n: nat, k: Key)
    requires n <= |actions|
  {
    exists j :: m < j < n && k !in At(w, actions, j).store.ids
  }

  /** The pass of a reconciler that listed `items` is under way. */
  predicate Carries(pc: PrPc, items: seq<Key>) {
    (pc.PDelete? || pc.PCheck? || pc.PRelease?) && pc.items == items
  }

  /** In the pass that is under way at `n`, `p` listed `items` at `m`, and by `n` the
      first `i` of them had been absent. */
  ghost predicate Seen(w: World, actions: seq<Action>, m: nat, n: nat, p: ProviderKey, items: seq<Key>, i: nat)
    requires n <= |actions|
  {
    && m < n && ListedAt(w, actions, m, p, items) && i <= |items|
    && (forall j :: m < j <= n ==> Carries(PrPcOf(At(w, actions, j), p), items))
    && (forall x :: 0 <= x < i ==> AbsentBetween(w, actions, m, n, items[x]))
  }

  ghost predicate SeenSince(w: World, actions: seq<Action>, n: nat, p: ProviderKey, items: seq<Key>, i: nat)
    requires n <= |actions|
  {
    exists m: nat :: Seen(w, actions, m, n, p, items, i)
  }

  /** How many of the listed identities the program counter claims to have seen gone. */
  function Checked(pc: PrPc): nat
    requires pc.PDelete? || pc.PCheck? || pc.PRelease?
  {
    match pc
    case PDelete(_, _, _) => 0
    case PCheck(_, _, i) => i
    case PRelease(_, items) => |items|
  }

  /** What the program counter of `p` before action `n` says about the past. */
  ghost predicate Explained(w: World, actions: seq<Action>, n: nat, p: ProviderKey, pc: PrPc)
    requires n <= |actions|
  {
    pc.PDelete? || pc.PCheck? || pc.PRelease? ==> SeenSince(w, actions, n, p, pc.items, Checked(pc))
  }

  /** One step on in the same pass: at least as many had been absent, and one more
      if it is absent now. */
  lemma SeenLater(w: World, actions: seq<Action>, n: nat, p: ProviderKey, items: seq<Key>, i: nat, i': nat)
    requires n < |actions| && SeenSince(w, actions, n, p, items, i) && i' <= |items|
    requires Carries(PrPcOf(At(w, actions, n + 1), p), items)
    requires i' <= i || (i' == i + 1 && items[i] !in At(w, actions, n).store.ids)
    ensures SeenSince(w, actions, n + 1, p, items, i')
  {
    hide ListedAt, At, Carries;
    var m: nat :| Seen(w, actions, m, n, p, items, i);
    forall x | 0 <= x < i' ensures AbsentBetween(w, actions, m, n + 1, items[x]) {
      if x < i {
        var j :| m < j < n && items[x] !in At(w, actions, j).store.ids;
      } else {
        assert m < n < n + 1;
      }
    }
    assert Seen(w, actions, m, n + 1, p, items, i');
  }

  lemma SeenFirst(w: World, actions: seq<Action>, n: nat, p: ProviderKey, items: seq<Key>)
    requires n < |actions| && ListedAt(w, actions, n, p, items)
    requires Carries(PrPcOf(At(w, actions, n + 1), p), items)
    ensures SeenSince(w, actions, n + 1, p, items, 0)
  {
    hide ListedAt, At;
    assert Seen(w, actions, n, n + 1, p, items, 0);
  }

  lemma {:induction false} PastOf(w: World, actions: seq<Action>, p: ProviderKey, n: nat)
    requires n <= |actions| && PrPcOf(w, p) == PIdle && ChecksTruthful(w, actions, p)
    ensures Explained(w, actions, n, p, PrPcOf(At(w, actions, n), p))
  {
    hide Do, SeenSince;
    if n > 0 {
      var v, a := At(w, actions, n - 1), actions[n - 1];
      var pc, next := PrPcOf(v, p), PrPcOf(At(w, actions, n), p);
      PastOf(w, actions, p, n - 1);
      NextPoint(v, a, p);
      if a.ProviderCall? && a.p == p && At(w, actions, n) != v {
        PastOfCall(w, actions, p, n - 1);
      } else if next == pc && (pc.PDelete? || pc.PCheck? || pc.PRelease?) {
        SeenBound(w, actions, n - 1, p, pc.items, Checked(pc));
        SeenLater(w, actions, n - 1, p, pc.items, Checked(pc), Checked(pc));
      }
    }
  }

  lemma SeenBound(w: World, actions: seq<Action>, n: nat, p: ProviderKey, items: seq<Key>, i: nat)
    requires n <= |actions| && SeenSince(w, actions, n, p, items, i)
    ensures i <= |items|
  {
    hide ListedAt, At, Carries;
  }

  /** Only its own calls and a crash move a reconciler. */
  lemma NextPoint(v: World, a: Action, p: ProviderKey)
    ensures (a.ProviderCall? && a.p == p && Do(v, a) != v) || PrPcOf(Do(v, a), p) == PrPcOf(v, p) || PrPcOf(Do(v, a), p) == PIdle
  {
    hide IdStep, PrStep, Outside, ProgressStep, IsListing;
  }

  lemma PastOfCall(w: World, actions: seq<Action>, p: ProviderKey, n: nat)
    requires n < |actions| && ChecksTruthful(w, actions, p)
    requires actions[n].ProviderCall? && actions[n].p == p && At(w, actions, n + 1) != At(w, actions, n)
    requires Explained(w, actions, n, p, PrPcOf(At(w, actions, n), p))
    ensures Explained(w, actions, n + 1, p, PrPcOf(At(w, actions, n + 1), p))
  {
    hide IsListing, UpdateProvider, UpdateProviderStatus, DeleteIdentity, PutIdentity, PutProvider, Run, SeenSince;
    var v, a := At(w, actions, n), actions[n];
    var pc := PrPcOf(v, p);
    var next := PrStep(v.store, p, pc, a.io, a.items, a.issuer).1;
    assert PrPcOf(At(w, actions, n + 1), p) == next;
    match pc
    case PList(c) =>
      if next != PIdle { SeenFirst(w, actions, n, p, a.items); }
    case PDelete(c, items, i) =>
      if next != PIdle { SeenLater(w, actions, n, p, items, 0, Checked(next)); }
    case PCheck(c, items, i) =>
      if next != PIdle { SeenLater(w, actions, n, p, items, i, Checked(next)); }
    case _ =>
  }

  predicate PHeld(s: Store, p: ProviderKey) {
    p in s.providers && PROVIDER_FINALIZER in s.providers[p].finalizers
  }

  /** The finalizer leaves a provider through its own reconciler only after every
      identity that the List of that very pass returned, in whatever namespace, was
      absent from the store at some moment between this List and the release. */
  lemma ReleasedAfterAbsence(w: World, actions: seq<Action>, p: ProviderKey, n: nat)
    requires PrPcOf(w, p) == PIdle && ChecksTruthful(w, actions, p)
    requires n < |actions| && actions[n].ProviderCall? && actions[n].p == p
    requires PHeld(At(w, actions, n).store, p) && !PHeld(At(w, actions, n + 1).store, p)
    ensures var pc := PrPcOf(At(w, actions, n), p);
      pc.PRelease? && SeenSince(w, actions, n, p, pc.items, |pc.items|)
  {
    PastOf(w, actions, p, n);
    var pc := PrPcOf(At(w, actions, n), p);
    OnlyReleaseReleases(At(w, actions, n).store, p, pc, actions[n].io, actions[n].items, actions[n].issuer);
  }

  lemma OnlyReleaseReleases(s: Store, p: ProviderKey, pc: PrPc, io: Io, items: seq<Key>, issuer: string)
    requires PHeld(s, p) && !PHeld(PrStep(s, p, pc, io, items, issuer).0, p)
    ensures pc.PRelease?
  {
  }

  lemma {:induction false} InvAt(home: Home, w: World, actions: seq<Action>, n: nat)
    requires Inv(home, w) && n <= |actions|
    requires forall i :: 0 <= i < |actions| ==> Benign(home, At(w, actions, i), actions[i])
    ensures Inv(home, At(w, actions, n))
  {
    if n > 0 {
      InvAt(home, w, actions, n - 1);
      InvKept(home, At(w, actions, n - 1), actions[n - 1]);
    }
  }

  ghost predicate NoRecord(s: Store, k: Key) {
    forall b :: Record(b, k) !in s.ext
  }

  /** Together with the safety theorem: at that moment nothing was left of the
      identity at any external provider either. */
  lemma AbsentMeansCleanedUp(home: Home, w: World, actions: seq<Action>, m: nat, n: nat, k: Key)
    requires Inv(home, w) && n <= |actions| && AbsentBetween(w, actions, m, n, k)
    requires forall i :: 0 <= i < |actions| ==> Benign(home, At(w, actions, i), actions[i])
    ensures exists j :: m < j < n && k !in At(w, actions, j).store.ids && NoRecord(At(w, actions, j).store, k)
  {
    var j :| m < j < n && k !in At(w, actions, j).store.ids;
    InvAt(home, w, actions, j);
    assert KeyInv(home, At(w, actions, j), k);
  }

  // ---------------------------------------------------------------- deletion does finish

  function PRank(pc: PrPc, items: seq<Key>): nat {
    match pc
    case PIdle => 0
    case PList(_) => 2 * |items| + 5
    case PDelete(_, list, i) => if i < |list| then 2 * |list| - i + 3 else 1
    case PCheck(_, list, i) => if i < |list| then |list| - i + 2 else 1
    case PRelease(_, _) => 1
    case PInit(_) => 3
    case PRefetch => 2
    case PClaim(_) => 1
    case PAnnounce(_) => 1
  }

  lemma PRankFalls(s: Store, p: ProviderKey, pc: PrPc, io: Io, items: seq<Key>, issuer: string)
    requires pc != PIdle
    ensures PRank(PrStep(s, p, pc, io, items, issuer).1, items) < PRank(pc, items)
  {
    hide UpdateProvider, UpdateProviderStatus, DeleteIdentity;
  }

  /** A provider's Reconcile carried to its end without faults. */
  function PSettle(s: Store, p: ProviderKey, pc: PrPc, items: seq<Key>, issuer: string): Store
    decreases PRank(pc, items)
  {
    if pc == PIdle then s
    else
      var r := PrStep(s, p, pc, OK, items, issuer);
      PRankFalls(s, p, pc, OK, items, issuer);
      PSettle(r.0, p, r.1, items, issuer)
  }

  /** What the running Reconcile returns in the end. */
  function PEnds(s: Store, p: ProviderKey, pc: PrPc, items: seq<Key>, issuer: string): Outcome
    decreases PRank(pc, items)
  {
    var r := PrStep(s, p, pc, OK, items, issuer);
    if pc == PIdle || r.1 == PIdle then PrResult(s, p, pc, OK)
    else
      PRankFalls(s, p, pc, OK, items, issuer);
      PEnds(r.0, p, r.1, items, issuer)
  }

  /** A failing call that ends a pass is reported, with the one exception of a check
      that fails. */
  lemma PFailuresAreReported(s: Store, p: ProviderKey, pc: PrPc, io: Io, items: seq<Key>, issuer: string)
    requires PrStep(s, p, pc, io, items, issuer).1 == PIdle && io.fault && !pc.PCheck?
    ensures PrResult(s, p, pc, io) == Error
  {
  }

  function PassOf(s: Store, p: ProviderKey, items: seq<Key>, issuer: string): Store {
    PSettle(s, p, PrStep(s, p, PIdle, OK, items, issuer).1, items, issuer)
  }

  /** A deletion does not ask for the issuer. */
  function ProviderPass(s: Store, p: ProviderKey, items: seq<Key>): Store {
    PassOf(s, p, items, "")
  }

  function DeleteAll(s: Store, ks: seq<Key>): Store
    decreases |ks|
  {
    if ks == [] then s else DeleteAll(GetOr(DeleteIdentity(s, ks[0]), s), ks[1..])
  }

  predicate Distinct(ks: seq<Key>) {
    forall i, j :: 0 <= i < j < |ks| ==> ks[i] != ks[j]
  }

  /** A DELETE of `k` removes it if nothing holds it, and else marks it. */
  predicate Marked(s: Store, t: Store, k: Key)
    requires k in s.ids
  {
    && (k in t.ids <==> s.ids[k].finalizers != {})
    && (k in t.ids ==> t.ids[k] == s.ids[k].(deleting := true, rv := t.ids[k].rv))
  }

  /** Nothing but identities differs. */
  predicate OnlyIds(s: Store, t: Store) {
    t.providers == s.providers && t.ext == s.ext && s.clock <= t.clock
  }

  lemma DeleteMarks(s: Store, k: Key)
    requires WellFormed(s) && k in s.ids
    ensures DeleteIdentity(s, k).Some?
    ensures var t := GetOr(DeleteIdentity(s, k), s);
      && WellFormed(t) && OnlyIds(s, t) && t.ids.Keys <= s.ids.Keys && Marked(s, t, k)
      && (forall j :: j in s.ids && j != k ==> j in t.ids && t.ids[j] == s.ids[j])
  {
  }

  lemma {:induction false} DeleteAllMarks(s: Store, ks: seq<Key>)
    requires WellFormed(s) && Distinct(ks) && forall k :: k in ks ==> k in s.ids
    ensures var t := DeleteAll(s, ks);
      && WellFormed(t) && OnlyIds(s, t) && t.ids.Keys <= s.ids.Keys
      && (forall k :: k in ks ==> Marked(s, t, k))
      && (forall j :: j in s.ids && j !in ks ==> j in t.ids && t.ids[j] == s.ids[j])
    decreases |ks|
  {
    hide DeleteIdentity, WellFormed, Marked;
    if ks != [] {
      DeleteMarks(s, ks[0]);
      var s1 := GetOr(DeleteIdentity(s, ks[0]), s);
      assert ks == [ks[0]] + ks[1..] && ks[0] !in ks[1..];
      forall k | k in ks[1..] ensures k in s1.ids { assert k in ks; }
      DeleteAllMarks(s1, ks[1..]);
      var t := DeleteAll(s, ks);
      forall k | k in ks ensures Marked(s, t, k) {
        if k == ks[0] {
          SameMark(s, s1, t, k);
        } else {
          assert k in ks[1..];
          LaterMark(s, s1, t, k);
        }
      }
    }
  }

  lemma SameMark(s: Store, s1: Store, t: Store, k: Key)
    requires k in s.ids && Marked(s, s1, k) && t.ids.Keys <= s1.ids.Keys && (k in s1.ids ==> k in t.ids && t.ids[k] == s1.ids[k])
    ensures Marked(s, t, k)
  {
  }

  lemma LaterMark(s: Store, s1: Store, t: Store, k: Key)
    requires k in s.ids && k in s1.ids && s1.ids[k] == s.ids[k] && Marked(s1, t, k)
    ensures Marked(s, t, k)
  {
  }

  lemma {:induction false} DeleteLoop(s: Store, p: ProviderKey, c: Provider, items: seq<Key>, i: nat)
    requires i <= |items| && WellFormed(s) && Distinct(items)
    requires forall k :: k in items[i..] ==> k in s.ids
    ensures PSettle(s, p, Deleting(c, items, i), items, "") == PSettle(DeleteAll(s, items[i..]), p, Checking(c, items, 0), items, "")
    decreases |items| - i
  {
    if i < |items| {
      var k := items[i];
      assert items[i..][0] == k && items[i..][1..] == items[i + 1..];
      DeleteMarks(s, k);
      var s1 := GetOr(DeleteIdentity(s, k), s);
      forall j | j in items[i + 1..] ensures j in s1.ids { assert j in items[i..] && j != k; }
      DeleteLoop(s1, p, c, items, i + 1);
      PRankFalls(s, p, PDelete(c, items, i), OK, items, "");
    } else {
      assert items[i..] == [];
    }
  }

  /** The check loop releases the finalizer, or stops at the first survivor. */
  lemma {:induction false} CheckLoop(s: Store, p: ProviderKey, c: Provider, items: seq<Key>, i: nat)
    requires i <= |items|
    ensures PSettle(s, p, Checking(c, items, i), items, "") ==
      if exists k :: k in items[i..] && k in s.ids then s
      else PSettle(s, p, Checking(c, items, |items|), items, "")
    decreases |items| - i
  {
    if i < |items| {
      assert items[i..] == [items[i]] + items[i + 1..];
      CheckLoop(s, p, c, items, i + 1);
      PRankFalls(s, p, PCheck(c, items, i), OK, items, "");
    }
  }

  /** The provider of `k` can be found, and its helper will not refuse. */
  predicate CanUndo(s: Store, k: Key)
    requires k in s.ids
  {
    var b := Resolve(s, Key(k.ns, s.ids[k].provider));
    b.Some? && Accepts(s, k, b.value)
  }

  /** `k` can be brought to its end by the operator alone. */
  predicate Finishable(s: Store, k: Key) {
    k in s.ids && s.ids[k].finalizers != {} ==> s.ids[k].finalizers == {IDENTITY_FINALIZER} && CanUndo(s, k)
  }

  /** Only `k` and its records differ. */
  ghost predicate OnlyOne(s: Store, t: Store, k: Key) {
    && t.providers == s.providers && s.clock <= t.clock
    && (forall j :: j != k ==> (j in t.ids <==> j in s.ids))
    && (forall j :: j != k && j in s.ids ==> t.ids[j] == s.ids[j])
    && (forall b, j :: j != k ==> (Record(b, j) in t.ext <==> Record(b, j) in s.ext))
  }

  lemma OneStepOnly(s: Store, k: Key, pc: IdPc, io: Io)
    ensures OnlyOne(s, IdStep(s, k, pc, io).0, k)
    ensures k !in s.ids ==> k !in IdStep(s, k, pc, io).0.ids
  {
    hide UpdateIdentity, UpdateIdentityStatus, Stored, AfterRead, EnsureStep, OnlyOne, AddRecord, DropRecord;
    ElsewhereOnly(s, k);
    match pc
    case Enroll(_, helper) => RecordOnly(s, k, helper);
    case Undo(_, helper) => RecordOnly(s, k, helper);
    case Ensure(stage, missing, c, helper, account) => EnsureOnly(s, k, stage, missing, c, helper, account, io);
    case Release(c) => WriteOnly(s, k, ReleasedCopy(c));
    case Claim(c) => WriteOnly(s, k, ClaimedCopy(c));
    case Init(c, _) => WriteOnly(s, k, c.(phase := Reconciling));
    case Announce(c, helper) => WriteOnly(s, k, AnnouncedCopy(c, helper));
    case Tag(c, _) => WriteOnly(s, k, TaggedCopy(c));
    case Publish(c, meta) => WriteOnly(s, k, c.(metadata := meta));
    case _ =>
  }

  lemma ElsewhereOnly(s: Store, k: Key)
    ensures OnlyOne(s, s, k)
  {
  }

  lemma RecordOnly(s: Store, k: Key, helper: Backend)
    ensures OnlyOne(s, AddRecord(s, helper, k), k) && AddRecord(s, helper, k).ids == s.ids
    ensures OnlyOne(s, DropRecord(s, helper, k), k) && DropRecord(s, helper, k).ids == s.ids
  {
  }

  lemma EnsureOnly(s: Store, k: Key, stage: Stage, missing: bool, c: Identity, helper: Backend, account: nat, io: Io)
    ensures var t := EnsureStep(s, k, stage, missing, c, helper, account, io).0; OnlyOne(s, t, k) && t.ids == s.ids
  {
  }

  lemma WriteOnly(s: Store, k: Key, sent: Identity)
    ensures var t := GetOr(UpdateIdentity(s, k, sent), s); OnlyOne(s, t, k) && (k !in s.ids ==> k !in t.ids)
    ensures var t := GetOr(UpdateIdentityStatus(s, k, sent), s); OnlyOne(s, t, k) && (k !in s.ids ==> k !in t.ids)
  {
  }

  lemma {:induction false} SettleOnly(s: Store, k: Key, pc: IdPc, meta: map<string, string>)
    ensures OnlyOne(s, Settle(s, k, pc, meta), k)
    ensures k !in s.ids ==> k !in Settle(s, k, pc, meta).ids
    decreases Rank(pc)
  {
    hide IdStep;
    if pc != Idle {
      var io := Answer(s, k, pc, meta);
      RankFalls(s, k, pc, io);
      OneStepOnly(s, k, pc, io);
      var r := IdStep(s, k, pc, io);
      SettleOnly(r.0, k, r.1, meta);
    }
  }

  lemma ReconcileOnly(s: Store, k: Key, meta: map<string, string>)
    ensures OnlyOne(s, Reconcile(s, k, meta), k)
    ensures k !in s.ids ==> k !in Reconcile(s, k, meta).ids
  {
    SettleOnly(s, k, IdStep(s, k, Idle, Io(false, true, meta)).1, meta);
  }

  /** What is said of `k` does not depend on other identities. */
  lemma FinishableDepends(s: Store, t: Store, k: Key)
    requires t.providers == s.providers && (k in t.ids <==> k in s.ids)
    requires k in s.ids ==> t.ids[k].finalizers == s.ids[k].finalizers && t.ids[k].provider == s.ids[k].provider
    requires forall b :: Record(b, k) in t.ext <==> Record(b, k) in s.ext
    ensures Finishable(t, k) <==> Finishable(s, k)
  {
    if k in s.ids { ResolveDepends(s, t, Key(k.ns, s.ids[k].provider)); }
  }

  lemma RefusedUndo(s: Store, k: Key, b: Backend, meta: map<string, string>)
    requires k in s.ids && !Accepts(s, k, b)
    ensures Settle(s, k, Undo(s.ids[k], b), meta) == s
  {
    var io := Answer(s, k, Undo(s.ids[k], b), meta);
    assert IdStep(s, k, Undo(s.ids[k], b), io) == (s, Idle);
    assert Settle(s, k, Undo(s.ids[k], b), meta) == Settle(s, k, Idle, meta);
  }

  lemma AcceptedUndo(s: Store, k: Key, b: Backend, meta: map<string, string>)
    requires k in s.ids && s.ids[k].deleting && Accepts(s, k, b)
    ensures var t := Settle(s, k, Undo(s.ids[k], b), meta);
      && t.ext == s.ext - {Record(b, k)}
      && (s.ids[k].finalizers == {IDENTITY_FINALIZER} ==> t.ids == s.ids - {k})
      && (s.ids[k].finalizers != {IDENTITY_FINALIZER} && s.ids[k].finalizers != {} ==>
            k in t.ids && t.ids[k] == s.ids[k].(finalizers := s.ids[k].finalizers - {IDENTITY_FINALIZER}, rv := t.ids[k].rv))
  {
    var c := s.ids[k];
    var io := Answer(s, k, Undo(c, b), meta);
    var r := IdStep(s, k, Undo(c, b), io);
    assert r.0 == DropRecord(s, b, k) && io == Io(false, true, meta);
    if IDENTITY_FINALIZER in c.finalizers {
      assert Settle(s, k, Undo(c, b), meta) == Settle(r.0, k, Release(c), meta);
      var last := IdStep(r.0, k, Release(c), Io(false, true, meta));
      assert Settle(r.0, k, Release(c), meta) == Settle(last.0, k, Idle, meta) == last.0;
      if c.finalizers == {IDENTITY_FINALIZER} {
        assert ReleasedCopy(c).finalizers == {};
      } else {
        assert exists f :: f in c.finalizers && f != IDENTITY_FINALIZER;
      }
    } else {
      assert Settle(s, k, Undo(c, b), meta) == Settle(r.0, k, Idle, meta) == r.0;
    }
  }

  /** One Reconcile of a marked identity: it is finished exactly if nobody else
      holds it, its provider is found and the helper does not refuse, that is, the
      helper is lenient or its record is there.  Otherwise it stays, unfinishable. */
  lemma MarkedIsFinished(s: Store, k: Key, meta: map<string, string>)
    requires k in s.ids && s.ids[k].deleting && s.ids[k].finalizers != {}
    ensures var t := Reconcile(s, k, meta);
      && OnlyOne(s, t, k)
      && (k !in t.ids <==> Finishable(s, k))
      && (k !in t.ids ==> NoneAt(t, k, Resolve(s, Key(k.ns, s.ids[k].provider)).value))
      && (k in t.ids ==> !Finishable(t, k) && t.ids[k].deleting && t.ids[k].finalizers != {} && t.ids[k].labels == s.ids[k].labels)
  {
    var o := s.ids[k];
    var b := Resolve(s, Key(k.ns, o.provider));
    ReconcileOnly(s, k, meta);
    var t := Reconcile(s, k, meta);
    if b.None? {
      UnresolvedIsStuck(s, k, meta);
    } else {
      AfterFind(s, k, b.value, meta);
      if Accepts(s, k, b.value) { AcceptedUndo(s, k, b.value, meta); } else { RefusedUndo(s, k, b.value, meta); }
    }
  }

  predicate NoneAt(s: Store, k: Key, b: Backend) {
    Record(b, k) !in s.ext
  }

  lemma {:induction false} UnresolvedFind(s: Store, k: Key, kind: Kind, c: Identity, meta: map<string, string>)
    requires Resolve(s, Key(k.ns, c.provider)).None?
    ensures Settle(s, k, Find(kind, c), meta) == s
    decreases Rank(Find(kind, c))
  {
    match kind
    case Vault => UnresolvedFind(s, k, Azure, c, meta);
    case Azure => UnresolvedFind(s, k, Kubernetes, c, meta);
    case Kubernetes => UnresolvedFind(s, k, Aws, c, meta);
    case Aws => assert Settle(s, k, Idle, meta) == s;
  }

  /** An identity whose provider is nowhere to be found is stuck. */
  lemma UnresolvedIsStuck(s: Store, k: Key, meta: map<string, string>)
    requires k in s.ids && Resolve(s, Key(k.ns, s.ids[k].provider)).None?
    ensures Reconcile(s, k, meta) == s
  {
    UnresolvedFind(s, k, Vault, s.ids[k], meta);
  }

  /** A provider under deletion that only the operator holds. */
  predicate Going(s: Store, p: ProviderKey) {
    p in s.providers && s.providers[p].deleting && s.providers[p].finalizers == {PROVIDER_FINALIZER}
  }

  lemma ReleaseRemoves(s: Store, p: ProviderKey, c: Provider, items: seq<Key>)
    requires Going(s, p) && c == s.providers[p]
    ensures var t := PSettle(s, p, Checking(c, items, |items|), items, "");
      p !in t.providers && t.ids == s.ids
  {
    assert c.finalizers - {PROVIDER_FINALIZER} == {};
    assert PSettle(s, p, PRelease(c, items), items, "") ==
      PSettle(PrStep(s, p, PRelease(c, items), OK, items, "").0, p, PIdle, items, "");
  }

  /** A pass over `items`: each is removed or marked, and the provider is released
      exactly if none of them is left. */
  lemma PassMarksOrReleases(s: Store, p: ProviderKey, items: seq<Key>)
    requires WellFormed(s) && Going(s, p) && IsListing(s, p.key.name, items)
    ensures var t := ProviderPass(s, p, items);
      && (forall k :: k in items ==> Marked(s, t, k))
      && t.ids.Keys <= s.ids.Keys && (forall j :: j in s.ids && j !in items ==> j in t.ids && t.ids[j] == s.ids[j])
      && (if exists k :: k in items && k in t.ids then WellFormed(t) && OnlyIds(s, t) else p !in t.providers)
  {
    hide PSettle, WellFormed, DeleteAll, Marked;
    var c := s.providers[p];
    assert items[0..] == items;
    DeleteLoop(s, p, c, items, 0);
    DeleteAllMarks(s, items);
    var t := DeleteAll(s, items);
    CheckLoop(t, p, c, items, 0);
    ReleaseRemoves(t, p, c, items);
    PassLists(s, p, items);
    var u := ProviderPass(s, p, items);
    forall k | k in items ensures Marked(s, u, k) { MarkDepends(s, t, u, k); }
  }

  lemma {:induction false} DeleteLoopEnds(s: Store, p: ProviderKey, c: Provider, items: seq<Key>, i: nat)
    requires i < |items| && WellFormed(s) && Distinct(items)
    requires forall k :: k in items[i..] ==> k in s.ids
    ensures PEnds(s, p, PDelete(c, items, i), items, "") == PEnds(DeleteAll(s, items[i..]), p, PCheck(c, items, 0), items, "")
    decreases |items| - i
  {
    var k := items[i];
    assert items[i..][0] == k && items[i..][1..] == items[i + 1..];
    DeleteMarks(s, k);
    var s1 := GetOr(DeleteIdentity(s, k), s);
    forall j | j in items[i + 1..] ensures j in s1.ids { assert j in items[i..] && j != k; }
    PRankFalls(s, p, PDelete(c, items, i), OK, items, "");
    if i + 1 < |items| {
      DeleteLoopEnds(s1, p, c, items, i + 1);
    } else {
      assert items[i + 1..] == [] && DeleteAll(s, items[i..]) == s1;
    }
  }

  lemma {:induction false} CheckLoopEnds(s: Store, p: ProviderKey, c: Provider, items: seq<Key>, i: nat)
    requires i < |items| && Going(s, p) && c == s.providers[p]
    ensures PEnds(s, p, PCheck(c, items, i), items, "") == if exists k :: k in items[i..] && k in s.ids then Requeue else Done
    decreases |items| - i
  {
    assert items[i..] == [items[i]] + items[i + 1..];
    PRankFalls(s, p, PCheck(c, items, i), OK, items, "");
    if items[i] !in s.ids {
      if i + 1 < |items| {
        CheckLoopEnds(s, p, c, items, i + 1);
      } else {
        assert items[i + 1..] == [];
        ReleaseEnds(s, p, c, items);
      }
    }
  }

  lemma ReleaseEnds(s: Store, p: ProviderKey, c: Provider, items: seq<Key>)
    requires Going(s, p) && c == s.providers[p]
    ensures PEnds(s, p, PRelease(c, items), items, "") == Done
  {
  }

  /** A pass of a provider under deletion asks to be repeated exactly if a listed
      identity is still there when it ends; otherwise it is done. */
  lemma DeletionReturns(s: Store, p: ProviderKey, items: seq<Key>)
    requires WellFormed(s) && Going(s, p) && IsListing(s, p.key.name, items)
    ensures PEnds(s, p, PList(s.providers[p]), items, "") ==
      if exists k :: k in items && k in ProviderPass(s, p, items).ids then Requeue else Done
  {
    hide PSettle, WellFormed, DeleteAll, Marked, PEnds;
    var c := s.providers[p];
    PassMarksOrReleases(s, p, items);
    ListEnds(s, p, items);
    if items == [] {
      ReleaseEnds(s, p, c, items);
    } else {
      assert items[0..] == items;
      DeleteLoopEnds(s, p, c, items, 0);
      DeleteAllMarks(s, items);
      var t := DeleteAll(s, items);
      CheckLoopEnds(t, p, c, items, 0);
      var u := ProviderPass(s, p, items);
      forall k | k in items ensures k in t.ids <==> k in u.ids { BothMarked(s, t, u, k); }
    }
  }

  lemma ListEnds(s: Store, p: ProviderKey, items: seq<Key>)
    requires Going(s, p)
    ensures var c := s.providers[p];
      PEnds(s, p, PList(c), items, "") == PEnds(s, p, if items == [] then PRelease(c, items) else PDelete(c, items, 0), items, "")
  {
    PRankFalls(s, p, PList(s.providers[p]), OK, items, "");
  }

  lemma BothMarked(s: Store, t: Store, u: Store, k: Key)
    requires k in s.ids && Marked(s, t, k) && Marked(s, u, k)
    ensures k in t.ids <==> k in u.ids
  {
  }

  lemma MarkDepends(s: Store, t: Store, u: Store, k: Key)
    requires k in s.ids && Marked(s, t, k) && u.ids == t.ids
    ensures Marked(s, u, k)
  {
  }

  lemma PassLists(s: Store, p: ProviderKey, items: seq<Key>)
    requires Going(s, p)
    ensures ProviderPass(s, p, items) == PSettle(s, p, Deleting(s.providers[p], items, 0), items, "")
  {
    PRankFalls(s, p, PList(s.providers[p]), OK, items, "");
  }

  lemma EmptyPass(s: Store, p: ProviderKey)
    requires p in s.providers ==> Going(s, p)
    ensures var t := ProviderPass(s, p, []); p !in t.providers && t.ids == s.ids
  {
    if p in s.providers {
      ReleaseRemoves(s, p, s.providers[p], []);
      PRankFalls(s, p, PList(s.providers[p]), OK, [], "");
    }
  }

  // ---------------------------------------------------------------- in any order

  /** Whole Reconciles, in whatever order: a pass of the provider, which lists
      `items`, or one of any identity. */
  datatype Move = Pass(items: seq<Key>) | Finish(k: Key, meta: map<string, string>)

  function Moved(s: Store, p: ProviderKey, m: Move): Store {
    match m
    case Pass(items) => ProviderPass(s, p, items)
    case Finish(k, meta) => Reconcile(s, k, meta)
  }

  function Play(s: Store, p: ProviderKey, moves: seq<Move>): Store
    decreases |moves|
  {
    if moves == [] then s else Play(Moved(s, p, moves[0]), p, moves[1..])
  }

  function Left(s: Store, p: ProviderKey): set<Key> {
    set k | k in s.ids && Labelled(s.ids[k], p.key.name)
  }

  /** The provider is going, and so is every identity with its label, as after a
      first pass over them all. */
  ghost predicate Doomed(s: Store, p: ProviderKey) {
    && (p in s.providers ==> Going(s, p))
    && forall k :: k in Left(s, p) ==> s.ids[k].deleting && s.ids[k].finalizers != {}
  }

  /** Lists are true, and nobody newly gets the label. */
  ghost predicate LegalMove(s: Store, p: ProviderKey, m: Move) {
    match m
    case Pass(items) => IsListing(s, p.key.name, items)
    case Finish(k, meta) => k in Left(Reconcile(s, k, meta), p) ==> k in Left(s, p)
  }

  ghost predicate Legal(s: Store, p: ProviderKey, moves: seq<Move>)
    decreases |moves|
  {
    moves == [] || (LegalMove(s, p, moves[0]) && Legal(Moved(s, p, moves[0]), p, moves[1..]))
  }

  /** Remaining identities, then the provider itself. */
  function Measure(s: Store, p: ProviderKey): nat {
    |Left(s, p)| + if p in s.providers then 1 else 0
  }

  /** A move that gets something done. */
  predicate Effective(s: Store, p: ProviderKey, m: Move) {
    match m
    case Pass(items) => items == [] && p in s.providers
    case Finish(k, _) => k in Left(s, p) && Finishable(s, k)
  }

  lemma {:induction false} MarkedAlready(s: Store, p: ProviderKey, c: Provider, items: seq<Key>, i: nat)
    requires i <= |items| && forall k :: k in items ==> k in s.ids && s.ids[k].deleting
    ensures PSettle(s, p, Deleting(c, items, i), items, "") == PSettle(s, p, Checking(c, items, 0), items, "")
    decreases |items| - i
  {
    if i < |items| {
      assert items[i] in items && DeleteIdentity(s, items[i]) == Some(s);
      MarkedAlready(s, p, c, items, i + 1);
      PRankFalls(s, p, PDelete(c, items, i), OK, items, "");
    }
  }

  lemma PassMove(s: Store, p: ProviderKey, items: seq<Key>)
    requires Doomed(s, p) && IsListing(s, p.key.name, items)
    ensures var t := ProviderPass(s, p, items);
      if items == [] then p !in t.providers && t.ids == s.ids else t == s
  {
    if p in s.providers {
      var c := s.providers[p];
      forall k | k in items ensures k in s.ids && s.ids[k].deleting { assert k in Left(s, p); }
      PassLists(s, p, items);
      MarkedAlready(s, p, c, items, 0);
      CheckLoop(s, p, c, items, 0);
      assert items[0..] == items;
      if items == [] { ReleaseRemoves(s, p, c, items); } else { assert items[0] in items; }
    } else {
      assert ProviderPass(s, p, items) == s;
      if items != [] { assert items[0] in items; }
    }
  }

  /** What a move leaves: an identity goes by its own Reconcile if it is finishable,
      and in no other way; the rest stay as finishable or unfinishable as they were. */
  ghost predicate Stays(s: Store, t: Store, p: ProviderKey, gone: set<Key>) {
    && (forall k :: k in Left(t, p) <==> k in Left(s, p) && !(k in gone && Finishable(s, k)))
    && (forall k :: k in Left(t, p) ==> (Finishable(t, k) <==> Finishable(s, k)))
    && (forall k :: k in Left(s, p) && k in t.ids ==> k in Left(t, p))
    && (forall k :: k in t.ids ==> k in s.ids)
    && (p in t.providers ==> p in s.providers)
    && (Left(t, p) != {} && p in s.providers ==> p in t.providers)
  }

  lemma FinishStays(s: Store, p: ProviderKey, k: Key, meta: map<string, string>)
    requires Doomed(s, p) && LegalMove(s, p, Finish(k, meta))
    ensures Doomed(Reconcile(s, k, meta), p) && Stays(s, Reconcile(s, k, meta), p, {k})
  {
    hide Reconcile, Resolve, Finishable;
    var t := Reconcile(s, k, meta);
    ReconcileOnly(s, k, meta);
    if k in Left(s, p) { MarkedIsFinished(s, k, meta); }
    forall j | j != k ensures Finishable(t, j) <==> Finishable(s, j) { FinishableDepends(s, t, j); }
  }

  /** No move undoes anything, and each effective one brings the measure down by
      one; so after finitely many of them nothing finishable is left to do. */
  lemma MeasureFalls(s: Store, p: ProviderKey, m: Move)
    requires Doomed(s, p) && LegalMove(s, p, m)
    ensures var t := Moved(s, p, m);
      && Doomed(t, p) && Stays(s, t, p, if m.Finish? then {m.k} else {})
      && Measure(t, p) == Measure(s, p) - (if Effective(s, p, m) then 1 else 0)
  {
    hide ProviderPass, Reconcile, Finishable, Stays, Left, IsListing, Doomed;
    match m
    case Pass(items) =>
      PassMove(s, p, items);
      PassStays(s, p, items);
    case Finish(k, meta) =>
      FinishStays(s, p, k, meta);
      ReconcileOnly(s, k, meta);
      OneLess(s, Reconcile(s, k, meta), p, k);
  }

  lemma PassStays(s: Store, p: ProviderKey, items: seq<Key>)
    requires Doomed(s, p) && IsListing(s, p.key.name, items)
    ensures var t := ProviderPass(s, p, items);
      Doomed(t, p) && Stays(s, t, p, {}) && Left(t, p) == Left(s, p)
  {
    hide ProviderPass, Finishable;
    PassMove(s, p, items);
    if items == [] { NothingListed(s, p); }
    assert Left(ProviderPass(s, p, items), p) == Left(s, p);
  }

  lemma OneLess(s: Store, t: Store, p: ProviderKey, k: Key)
    requires Stays(s, t, p, {k})
    ensures |Left(t, p)| == |Left(s, p)| - (if k in Left(s, p) && Finishable(s, k) then 1 else 0)
  {
    hide Left, Finishable;
    assert Left(t, p) == Left(s, p) - (if Finishable(s, k) then {k} else {});
  }

  lemma NothingListed(s: Store, p: ProviderKey)
    requires IsListing(s, p.key.name, [])
    ensures Left(s, p) == {}
  {
    var none: seq<Key> := [];
    assert forall k :: k in Left(s, p) ==> k in none;
  }

  function Finished(moves: seq<Move>): set<Key>
    decreases |moves|
  {
    if moves == [] then {} else (if moves[0].Finish? then {moves[0].k} else {}) + Finished(moves[1..])
  }

  lemma StaysOn(s: Store, t: Store, u: Store, p: ProviderKey, a: set<Key>, b: set<Key>)
    requires Stays(s, t, p, a) && Stays(t, u, p, b)
    ensures Stays(s, u, p, a + b)
  {
    hide Left, Finishable;
    forall k | k in Left(s, p) && k in u.ids ensures k in Left(u, p) { assert k in t.ids; }
    if Left(u, p) != {} {
      var k :| k in Left(u, p);
      assert k in Left(t, p);
    }
  }

  /** Over any sequence of legal moves exactly the finishable identities that had a
      Reconcile are gone. */
  lemma {:induction false} AnyOrder(s: Store, p: ProviderKey, moves: seq<Move>)
    requires Doomed(s, p) && Legal(s, p, moves)
    ensures Doomed(Play(s, p, moves), p) && Stays(s, Play(s, p, moves), p, Finished(moves))
    decreases |moves|
  {
    hide Doomed, Moved, LegalMove, Stays;
    if moves == [] {
      NoneGone(s, p);
    } else {
      var s1 := Moved(s, p, moves[0]);
      MeasureFalls(s, p, moves[0]);
      AnyOrder(s1, p, moves[1..]);
      StaysOn(s, s1, Play(s, p, moves), p, if moves[0].Finish? then {moves[0].k} else {}, Finished(moves[1..]));
    }
  }

  lemma NoneGone(s: Store, p: ProviderKey)
    ensures Stays(s, s, p, {})
  {
  }

  /** The first pass dooms them all, and changes nothing about who is finishable. */
  lemma FirstPassDooms(s: Store, p: ProviderKey, items: seq<Key>)
    requires WellFormed(s) && Going(s, p) && IsListing(s, p.key.name, items)
    ensures var t := ProviderPass(s, p, items);
      && Doomed(t, p) && t.ids.Keys <= s.ids.Keys
      && (forall k :: k in Left(t, p) <==> k in items && s.ids[k].finalizers != {})
      && (forall k :: k in Left(t, p) ==> (Finishable(t, k) <==> Finishable(s, k)))
      && (forall k :: k in items && k in t.ids ==> k in Left(t, p))
      && (Left(t, p) != {} ==> p in t.providers)
  {
    hide ProviderPass, Finishable;
    var t := ProviderPass(s, p, items);
    PassMarksOrReleases(s, p, items);
    forall k | k in Left(t, p) ensures k in items && (Finishable(t, k) <==> Finishable(s, k)) {
      FinishableDepends(s, t, k);
    }
  }

  /** While one listed identity is unfinishable, neither it nor the provider goes,
      whatever the order of Reconciles. */
  lemma UnfinishableBlocks(s: Store, p: ProviderKey, items: seq<Key>, moves: seq<Move>, last: seq<Key>, k: Key)
    requires WellFormed(s) && Going(s, p) && IsListing(s, p.key.name, items)
    requires Legal(ProviderPass(s, p, items), p, moves)
    requires k in items && !Finishable(s, k)
    requires IsListing(Play(ProviderPass(s, p, items), p, moves), p.key.name, last)
    ensures var t := Play(ProviderPass(s, p, items), p, moves);
      && k in t.ids && p in t.providers && ProviderPass(t, p, last) == t
  {
    hide Legal, Doomed, Play, ProviderPass, WellFormed, Going;
    var s1 := ProviderPass(s, p, items);
    FirstPassDooms(s, p, items);
    AnyOrder(s1, p, moves);
    var t := Play(s1, p, moves);
    assert k in Left(s1, p) && k in Left(t, p);
    PassMove(t, p, last);
    assert k in last;
  }

  /** Exactly when a provider's deletion finishes.  After its first pass, whatever
      the order and however often: once every listed identity had a Reconcile, those
      that are finishable are gone, and the next pass releases the provider if and
      only if all of them were. */
  lemma DeletionFinishes(s: Store, p: ProviderKey, items: seq<Key>, moves: seq<Move>, last: seq<Key>)
    requires WellFormed(s) && Going(s, p) && IsListing(s, p.key.name, items)
    requires Legal(ProviderPass(s, p, items), p, moves) && forall k :: k in items ==> k in Finished(moves)
    requires IsListing(Play(ProviderPass(s, p, items), p, moves), p.key.name, last)
    ensures var t := Play(ProviderPass(s, p, items), p, moves);
      && (forall k :: k in items ==> (k !in t.ids <==> Finishable(s, k)))
      && (p !in ProviderPass(t, p, last).providers <==> forall k :: k in items ==> Finishable(s, k))
  {
    hide Legal, Doomed, Play, ProviderPass, WellFormed, Going, Left;
    var s1 := ProviderPass(s, p, items);
    FirstPassDooms(s, p, items);
    AnyOrder(s1, p, moves);
    var t := Play(s1, p, moves);
    if k :| k in items && !Finishable(s, k) {
      UnfinishableBlocks(s, p, items, moves, last, k);
    } else {
      ListedIsLeft(t, p, last);
      PassMove(t, p, last);
    }
  }

  lemma ListedIsLeft(s: Store, p: ProviderKey, items: seq<Key>)
    requires IsListing(s, p.key.name, items)
    ensures items != [] ==> Left(s, p) != {}
  {
    if items != [] { assert items[0] in items && items[0] in Left(s, p); }
  }

  // ---------------------------------------------------------------- readable until released

  /** Nobody but the operator edits the provider's finalizer. */
  predicate ProviderDiscipline(s: Store, p: ProviderKey, a: Action) {
    match a
    case ProviderEdit(q, _, finalizers) => q == p && PHeld(s, p) ==> PROVIDER_FINALIZER in finalizers
    case _ => true
  }

  predicate Releases(w: World, p: ProviderKey, a: Action) {
    a.ProviderCall? && a.p == p && PrPcOf(w, p).PRelease?
  }

  lemma StepKeepsReadable(w: World, p: ProviderKey, a: Action)
    requires Base(w) && PHeld(w.store, p) && ProviderDiscipline(w.store, p, a) && !Releases(w, p, a)
    ensures PHeld(Do(w, a).store, p)
  {
    hide IdStep, ProgressStep, IsListing, PcOk, PrPcOk, WellFormed, ProvidersOk, DeleteIdentity, UpdateIdentity, UpdateIdentityStatus;
    match a
    case IdCall(k, io) => StepKeepsStore(w.store, k, PcOf(w, k), io);
    case Progress(k) => ProgressQuiet(w.store, k, PcOf(w, k));
    case ProviderCall(q, io, items, issuer) =>
      CallKeepsReadable(w.store, q, PrPcOf(w, q), io, items, issuer, p);
    case _ => OutsideKeepsReadable(w.store, p, a);
  }

  lemma CallKeepsReadable(s: Store, q: ProviderKey, pc: PrPc, io: Io, items: seq<Key>, issuer: string, p: ProviderKey)
    requires PHeld(s, p) && (q != p || !pc.PRelease?)
    requires PrPcOk(s, q, pc)
    ensures PHeld(PrStep(s, q, pc, io, items, issuer).0, p)
  {
    DeleteKeepsProviders(s);
    hide DeleteIdentity;
  }

  lemma OutsideKeepsReadable(s: Store, p: ProviderKey, a: Action)
    requires PHeld(s, p) && ProviderDiscipline(s, p, a)
    ensures PHeld(Outside(s, a), p)
  {
  }

  /** While a finalized provider is being deleted, identities can still read it:
      it stays in the store until its own reconciler releases it. */
  lemma {:induction false} ReadableUntilReleased(w: World, actions: seq<Action>, p: ProviderKey, n: nat)
    requires n <= |actions| && Base(w) && PHeld(w.store, p)
    requires forall i :: 0 <= i < |actions| ==>
      FinalizerDiscipline(At(w, actions, i).store, actions[i]) && ProviderDiscipline(At(w, actions, i).store, p, actions[i])
    ensures Base(At(w, actions, n))
    ensures PHeld(At(w, actions, n).store, p) || exists i :: 0 <= i < n && Releases(At(w, actions, i), p, actions[i])
  {
    hide Base, Do, PHeld, Releases, FinalizerDiscipline, ProviderDiscipline;
    if n > 0 {
      var v := At(w, actions, n - 1);
      ReadableUntilReleased(w, actions, p, n - 1);
      BaseKept(v, actions[n - 1]);
      if PHeld(v.store, p) {
        if !Releases(v, p, actions[n - 1]) { StepKeepsReadable(v, p, actions[n - 1]); }
      } else {
        var i :| 0 <= i < n - 1 && Releases(At(w, actions, i), p, actions[i]);
      }
    }
  }

  // ---------------------------------------------------------------- what breaks without the hypotheses

  /** Where a labelled identity can be unfinishable: the provider itself is found by
      every identity of its own namespace that names it. */
  lemma OwnNamespaceResolves(s: Store, p: ProviderKey, k: Key)
    requires p in s.providers && k in s.ids && k.ns == p.key.ns && s.ids[k].provider == p.key.name
    ensures Resolve(s, Key(k.ns, s.ids[k].provider)).Some?
  {
    match p.kind case Vault => case Azure => case Kubernetes => case Aws =>
  }

  /** hashicorpvaultprovider_controller.go:81-83: the List has no namespace, so it
      marks same-labelled identities anywhere.  One that holds a finalizer and whose
      own namespace has no provider of the name it asks for blocks the provider for
      good: over any moves neither goes. */
  lemma ForeignIdentityBlocks(s: Store, p: ProviderKey, items: seq<Key>, moves: seq<Move>, last: seq<Key>, k: Key)
    requires WellFormed(s) && Going(s, p) && IsListing(s, p.key.name, items) && k in items
    requires k.ns != p.key.ns && s.ids[k].finalizers != {}
    requires forall q :: q in s.providers ==> q.key != Key(k.ns, s.ids[k].provider)
    requires Legal(ProviderPass(s, p, items), p, moves)
    requires IsListing(Play(ProviderPass(s, p, items), p, moves), p.key.name, last)
    ensures var t := Play(ProviderPass(s, p, items), p, moves);
      && k in t.ids && p in t.providers && ProviderPass(t, p, last) == t
  {
    hide Legal, Play, ProviderPass, WellFormed, Going;
    assert !Finishable(s, k);
    UnfinishableBlocks(s, p, items, moves, last, k);
  }

  /** identity_controller.go:183-193: the label comes after the record.  An
      identity that has a record but no label yet is not listed; the provider goes,
      and the identity can never be finished through it. */
  lemma UnlabelledIsLeftBehind(s: Store, p: ProviderKey, k: Key)
    requires Going(s, p) && IsListing(s, p.key.name, [])
    requires k in s.ids && k.ns == p.key.ns && s.ids[k].provider == p.key.name
    requires forall q :: q in s.providers && q.key == p.key ==> q == p
    ensures var t := ProviderPass(s, p, []);
      && p !in t.providers && t.ids == s.ids && t.ext == s.ext
      && Reconcile(t, k, map[]) == t
  {
    EmptyPass(s, p);
    var t := ProviderPass(s, p, []);
    var c := s.providers[p];
    PRankFalls(s, p, PList(c), OK, [], "");
    assert PSettle(s, p, PList(c), [], "") == PSettle(s, p, PRelease(c, []), [], "");
    var last := PrStep(s, p, PRelease(c, []), OK, [], "");
    assert PSettle(s, p, PRelease(c, []), [], "") == PSettle(last.0, p, PIdle, [], "") == last.0;
    assert t == last.0;
    assert forall q :: q in t.providers ==> q in s.providers && q != p;
    UnresolvedIsStuck(t, k, map[]);
  }

  /** hashicorpvaultprovider_controller.go:99: a failing read counts as "deleted",
      so the provider can be released while a listed identity is still there. */
  lemma FailedCheckReleases(s: Store, p: ProviderKey, k: Key)
    requires Going(s, p) && k in s.ids
    ensures var c := s.providers[p];
      var checked := PrStep(s, p, PCheck(c, [k], 0), Io(true, false, map[]), [], "");
      var released := PrStep(checked.0, p, checked.1, OK, [], "");
      p !in released.0.providers && k in released.0.ids
  {
    assert s.providers[p].finalizers - {PROVIDER_FINALIZER} == {};
  }
}
