/** The Azure helper: applications, service principals, app role assignments and
    federated credentials in a tenant, made by looking first and creating what is
    missing.  Ids are opaque and never handed out twice. */
module Azure {
  import opened Cluster
  import Vault

  datatype Credential = Credential(name: string, issuer: string, subject: string)
  datatype App = App(id: nat, appId: nat, displayName: string, role: nat, credentials: seq<Credential>)
  datatype Principal = Principal(id: nat, appId: nat)
  datatype Assignment = Assignment(principal: nat, resource: nat, role: Option<nat>)

  datatype Tenant = Tenant(
    apps: seq<App>, principals: seq<Principal>, assignments: seq<Assignment>,
    roleless: bool,            // does it take an assignment that names no role?
    next: nat)

  /** The helper's fields between its methods. */
  datatype Fields = Fields(objectID: nat, clientID: nat, servicePrincipalID: nat, subject: string, roleID: Option<nat>)

  datatype Metadata = Metadata(objectID: nat, clientID: nat, tenantID: string)

  // ---------------------------------------------------------------- listing

  function Where<T>(s: seq<T>, p: T -> bool): seq<T> {
    if s == [] then [] else (if p(s[0]) then [s[0]] else []) + Where(s[1..], p)
  }

  lemma {:induction false} WhereAppend<T>(s: seq<T>, t: seq<T>, p: T -> bool)
    ensures Where(s + t, p) == Where(s, p) + Where(t, p)
  {
    if s == [] {
      assert s + t == t;
    } else {
      var head := if p(s[0]) then [s[0]] else [];
      assert (s + t)[0] == s[0] && (s + t)[1..] == s[1..] + t;
      WhereAppend(s[1..], t, p);
      assert head + (Where(s[1..], p) + Where(t, p)) == head + Where(s[1..], p) + Where(t, p);
    }
  }

  lemma {:induction false} WhereNone<T>(s: seq<T>, p: T -> bool)
    requires forall i :: 0 <= i < |s| ==> !p(s[i])
    ensures Where(s, p) == []
  {
    if s != [] { WhereNone(s[1..], p); }
  }

  lemma {:induction false} WhereAll<T>(s: seq<T>, p: T -> bool)
    requires forall i :: 0 <= i < |s| ==> p(s[i])
    ensures Where(s, p) == s
  {
    if s != [] { WhereAll(s[1..], p); }
  }

  lemma {:induction false} WhereHolds<T>(s: seq<T>, p: T -> bool, i: nat)
    requires i < |Where(s, p)|
    ensures p(Where(s, p)[i]) && Where(s, p)[i] in s
  {
    if p(s[0]) {
      if i > 0 { WhereHolds(s[1..], p, i - 1); }
    } else {
      WhereHolds(s[1..], p, i);
    }
  }

  function Called(name: string): App -> bool { (a: App) => a.displayName == name }

  function WithId(id: nat): App -> bool { (a: App) => a.id == id }

  function Of(appId: nat): Principal -> bool { (p: Principal) => p.appId == appId }

  function To(resource: nat): Assignment -> bool { (a: Assignment) => a.resource == resource }

  predicate HasCredential(credentials: seq<Credential>, name: string) {
    exists i :: 0 <= i < |credentials| && credentials[i].name == name
  }

  // ---------------------------------------------------------------- writing

  function PostApp(t: Tenant, subject: string): Tenant {
    t.(apps := t.apps + [App(t.next + 1, t.next + 2, subject, t.next, [])], next := t.next + 3)
  }

  function PostPrincipal(t: Tenant, appId: nat): Tenant {
    t.(principals := t.principals + [Principal(t.next, appId)], next := t.next + 1)
  }

  function PostAssignment(t: Tenant, principal: nat, role: Option<nat>): Tenant {
    t.(assignments := t.assignments + [Assignment(principal, principal, role)])
  }

  function WithCredential(apps: seq<App>, id: nat, c: Credential): seq<App> {
    if apps == [] then []
    else [if apps[0].id == id then apps[0].(credentials := apps[0].credentials + [c]) else apps[0]]
         + WithCredential(apps[1..], id, c)
  }

  function PostCredential(t: Tenant, id: nat, c: Credential): Tenant {
    t.(apps := WithCredential(t.apps, id, c))
  }

  // ---------------------------------------------------------------- CreateIdentity

  datatype End = Done | Errored | Panicked

  /** Where a run stops, with `left` of the writes it was granted. */
  datatype Run = Run(end: End, t: Tenant, h: Fields, left: nat)

  /** addAppRoleAssignment, cut off when it wants a write more than `n`. */
  function Assigned(t: Tenant, h: Fields, n: nat): Run {
    var roles := Where(t.assignments, To(h.servicePrincipalID));
    if roles != [] then Run(Done, t, h.(roleID := roles[0].role), n)
    else if n == 0 || (h.roleID.None? && !t.roleless) then Run(Errored, t, h, n)
    else Run(Done, PostAssignment(t, h.servicePrincipalID, h.roleID), h, n - 1)
  }

  /** ensureAppRegistration, likewise. */
  function Registered(t: Tenant, h: Fields, n: nat): Run {
    var apps := Where(t.apps, Called(h.subject));
    if apps == [] then
      var h1 := h.(roleID := Some(t.next), objectID := t.next + 1, clientID := t.next + 2);
      if n == 0 then Run(Errored, t, h1, 0)
      else
        var t1 := PostApp(t, h.subject);
        if n == 1 then Run(Errored, t1, h1, 0)
        else Assigned(PostPrincipal(t1, h1.clientID), h1.(servicePrincipalID := t1.next), n - 2)
    else
      var h1 := h.(clientID := apps[0].appId, objectID := apps[0].id);
      var principals := Where(t.principals, Of(h1.clientID));
      if principals == [] then Run(Panicked, t, h1, n)
      else Assigned(t, h1.(servicePrincipalID := principals[0].id), n)
  }

  /** createFederatedIdentityCredential, likewise. */
  function Federated(t: Tenant, h: Fields, name: string, issuer: string, n: nat): Run {
    var apps := Where(t.apps, WithId(h.objectID));
    if apps == [] then Run(Errored, t, h, n)
    else if HasCredential(apps[0].credentials, name) then Run(Done, t, h, n)
    else if n == 0 then Run(Errored, t, h, 0)
    else Run(Done, PostCredential(t, h.objectID, Credential(name, issuer, h.subject)), h, n - 1)
  }

  /** CreateIdentity, of which only the first `n` writes get through. */
  function Creating(t: Tenant, h: Fields, k: Key, issuer: string, n: nat): Run {
    var r := Registered(t, h.(subject := Vault.Subject(k)), n);
    if r.end.Done? then Federated(r.t, r.h, k.name, issuer, r.left) else r
  }

  /** CreateIdentity makes four writes at most. */
  function Created(t: Tenant, h: Fields, k: Key, issuer: string): Run {
    Creating(t, h, k, issuer, 4)
  }

  function MetadataOf(h: Fields, tenantID: string): Metadata {
    Metadata(h.objectID, h.clientID, tenantID)
  }

  // ---------------------------------------------------------------- creation is idempotent

  /** Every id in use was handed out before. */
  predicate Consistent(t: Tenant) {
    && (forall i :: 0 <= i < |t.apps| ==> t.apps[i].id < t.next && t.apps[i].appId < t.next)
    && (forall i :: 0 <= i < |t.principals| ==> t.principals[i].id < t.next && t.principals[i].appId < t.next)
    && (forall i :: 0 <= i < |t.assignments| ==> t.assignments[i].resource < t.next)
  }

  /** Exactly one application, principal, self assignment of the application's role
      and federated credential stand for the identity. */
  ghost predicate Complete(t: Tenant, k: Key, issuer: string, app: App, principal: Principal) {
    && Where(t.apps, Called(Vault.Subject(k))) == [app]
    && Where(t.apps, WithId(app.id)) == [app]
    && Where(t.principals, Of(app.appId)) == [principal]
    && Where(t.assignments, To(principal.id)) == [Assignment(principal.id, principal.id, Some(app.role))]
    && app.credentials == [Credential(k.name, issuer, Vault.Subject(k))]
  }

  lemma {:induction false} CredentialElsewhere(apps: seq<App>, id: nat, c: Credential)
    requires forall i :: 0 <= i < |apps| ==> apps[i].id != id
    ensures WithCredential(apps, id, c) == apps
  {
    if apps != [] { CredentialElsewhere(apps[1..], id, c); }
  }

  lemma {:induction false} CredentialOnLast(apps: seq<App>, app: App, c: Credential)
    requires forall i :: 0 <= i < |apps| ==> apps[i].id != app.id
    ensures WithCredential(apps + [app], app.id, c) == apps + [app.(credentials := app.credentials + [c])]
  {
    if apps == [] {
      assert apps + [app] == [app];
    } else {
      assert (apps + [app])[1..] == apps[1..] + [app];
      CredentialOnLast(apps[1..], app, c);
    }
  }

  /** The tenant after `n` of the four writes that register a new subject. */
  function After(t: Tenant, k: Key, issuer: string, n: nat): Tenant {
    t.(apps := if n == 0 then t.apps else t.apps + [NewApp(t, k, issuer, n)],
       principals := if n < 2 then t.principals else t.principals + [NewPrincipal(t)],
       assignments := if n < 3 then t.assignments else t.assignments + [NewAssignment(t)],
       next := t.next + if n == 0 then 0 else if n == 1 then 3 else 4)
  }

  function NewApp(t: Tenant, k: Key, issuer: string, n: nat): App {
    App(t.next + 1, t.next + 2, Vault.Subject(k), t.next,
        if n < 4 then [] else [Credential(k.name, issuer, Vault.Subject(k))])
  }

  function NewPrincipal(t: Tenant): Principal { Principal(t.next + 3, t.next + 2) }

  function NewAssignment(t: Tenant): Assignment { Assignment(t.next + 3, t.next + 3, Some(t.next)) }

  predicate Unknown(t: Tenant, k: Key) {
    Consistent(t) && Where(t.apps, Called(Vault.Subject(k))) == []
  }

  /** What the lists of that tenant show of the subject. */
  lemma ListedAfter(t: Tenant, k: Key, issuer: string, n: nat)
    requires Unknown(t, k)
    ensures var t' := After(t, k, issuer, n); var app := NewApp(t, k, issuer, n);
      && Where(t'.apps, Called(Vault.Subject(k))) == (if n == 0 then [] else [app])
      && Where(t'.apps, WithId(app.id)) == (if n == 0 then [] else [app])
      && Where(t'.principals, Of(app.appId)) == (if n < 2 then [] else [NewPrincipal(t)])
      && Where(t'.assignments, To(NewPrincipal(t).id)) == (if n < 3 then [] else [NewAssignment(t)])
  {
    hide Vault.Subject;
    var app := NewApp(t, k, issuer, n);
    WhereNone(t.apps, WithId(app.id));
    WhereNone(t.principals, Of(app.appId));
    WhereNone(t.assignments, To(NewPrincipal(t).id));
    WhereAppend(t.apps, [app], WithId(app.id));
    WhereAppend(t.apps, [app], Called(Vault.Subject(k)));
    WhereAppend(t.principals, [NewPrincipal(t)], Of(app.appId));
    WhereAppend(t.assignments, [NewAssignment(t)], To(NewPrincipal(t).id));
  }

  /** A run cut off after `n` writes leaves exactly that tenant. */
  lemma CutTenant(t: Tenant, h: Fields, k: Key, issuer: string, n: nat)
    requires Unknown(t, k) && n <= 4
    ensures var r := Creating(t, h, k, issuer, n);
      r.t == After(t, k, issuer, n) && (n == 4 ==> r.end.Done? && r.h.objectID == t.next + 1 && r.h.clientID == t.next + 2)
  {
    hide Vault.Subject, Where, Consistent, WithCredential;
    var apps := t.apps;
    ListedAfter(t, k, issuer, 2);
    ListedAfter(t, k, issuer, 3);
    NewCredential(t, k, issuer);
    var r := Registered(t, h.(subject := Vault.Subject(k)), n);
    assert r.t == After(t, k, issuer, if n == 4 then 3 else n);
  }

  lemma NewCredential(t: Tenant, k: Key, issuer: string)
    requires Consistent(t)
    ensures PostCredential(After(t, k, issuer, 3), t.next + 1, Credential(k.name, issuer, Vault.Subject(k))) == After(t, k, issuer, 4)
  {
    hide Vault.Subject, WithCredential;
    var c := Credential(k.name, issuer, Vault.Subject(k));
    CredentialOnLast(t.apps, NewApp(t, k, issuer, 3), c);
    assert [] + [c] == [c];
  }

  /** What the first complete run leaves in a tenant without the subject. */
  lemma CreateFromNothing(t: Tenant, h: Fields, k: Key, issuer: string)
    requires Unknown(t, k)
    ensures var r := Created(t, h, k, issuer); var app := NewApp(t, k, issuer, 4);
      && r.end.Done? && r.t == After(t, k, issuer, 4) && Complete(r.t, k, issuer, app, NewPrincipal(t))
      && r.h.objectID == app.id && r.h.clientID == app.appId
  {
    hide Vault.Subject, Where, Consistent, Creating;
    CutTenant(t, h, k, issuer, 4);
    ListedAfter(t, k, issuer, 4);
  }

  /** Once complete, a further call writes nothing and returns the same, whatever
      was in the helper's fields.  That goes for a changed issuer as well: the
      credential is looked up by name alone and keeps its old issuer. */
  lemma CreateAgain(t: Tenant, k: Key, issuer: string, app: App, principal: Principal, h: Fields, issuer': string, n: nat)
    requires Complete(t, k, issuer, app, principal)
    ensures var r := Creating(t, h, k, issuer', n);
      r.end.Done? && r.t == t && r.h.objectID == app.id && r.h.clientID == app.appId
  {
    hide Vault.Subject;
    assert app.credentials[0].name == k.name;
  }

  /** Display names are not unique.  Of several applications of the subject the first
      in the list is the one used, with the first of its principals. */
  lemma CreateUsesFirst(t: Tenant, k: Key, issuer: string, h: Fields, n: nat)
    requires Where(t.apps, Called(Vault.Subject(k))) != []
    ensures var app := Where(t.apps, Called(Vault.Subject(k)))[0];
      var principals := Where(t.principals, Of(app.appId));
      var r := Creating(t, h, k, issuer, n);
      && r.h.objectID == app.id && r.h.clientID == app.appId
      && (principals != [] ==> r.h.servicePrincipalID == principals[0].id)
      && |r.t.apps| == |t.apps| && r.t.principals == t.principals
  {
    hide Vault.Subject;
    var app := Where(t.apps, Called(Vault.Subject(k)))[0];
    CredentialLength(t.apps, app.id, Credential(k.name, issuer, Vault.Subject(k)));
  }

  lemma {:induction false} CredentialLength(apps: seq<App>, id: nat, c: Credential)
    ensures |WithCredential(apps, id, c)| == |apps|
  {
    if apps != [] { CredentialLength(apps[1..], id, c); }
  }

  /** The runs of one call after another, each by a helper of its own. */
  function Calls(t: Tenant, k: Key, issuer: string, helpers: seq<Fields>): seq<Run>
    decreases |helpers|
  {
    if helpers == [] then []
    else
      var r := Created(t, helpers[0], k, issuer);
      [r] + Calls(r.t, k, issuer, helpers[1..])
  }

  lemma {:induction false} CallsChangeNothing(t: Tenant, k: Key, issuer: string, app: App, principal: Principal, helpers: seq<Fields>)
    requires Complete(t, k, issuer, app, principal)
    ensures var rs := Calls(t, k, issuer, helpers);
      |rs| == |helpers| && forall i :: 0 <= i < |rs| ==>
        rs[i].end.Done? && rs[i].t == t && rs[i].h.objectID == app.id && rs[i].h.clientID == app.appId
    decreases |helpers|
  {
    hide Complete, Created, Vault.Subject;
    if helpers != [] {
      CreatedAgain(t, k, issuer, app, principal, helpers[0]);
      CallsChangeNothing(t, k, issuer, app, principal, helpers[1..]);
    }
  }

  lemma CreatedAgain(t: Tenant, k: Key, issuer: string, app: App, principal: Principal, h: Fields)
    requires Complete(t, k, issuer, app, principal)
    ensures var r := Created(t, h, k, issuer);
      r.end.Done? && r.t == t && r.h.objectID == app.id && r.h.clientID == app.appId
  {
    CreateAgain(t, k, issuer, app, principal, h, issuer, 4);
  }

  /** After any number of calls, at least one, there is one of each, and every call
      returned the same metadata. */
  lemma RepeatedCreate(t: Tenant, k: Key, issuer: string, helpers: seq<Fields>, tenantID: string)
    requires Unknown(t, k) && helpers != []
    ensures var rs := Calls(t, k, issuer, helpers); var app := NewApp(t, k, issuer, 4);
      && |rs| == |helpers| && Complete(rs[|rs| - 1].t, k, issuer, app, NewPrincipal(t))
      && forall i :: 0 <= i < |rs| ==>
           rs[i].end.Done? && rs[i].t == rs[0].t && MetadataOf(rs[i].h, tenantID) == Metadata(app.id, app.appId, tenantID)
  {
    hide Complete, Created, Vault.Subject, Unknown, After;
    CreateFromNothing(t, helpers[0], k, issuer);
    CallsChangeNothing(After(t, k, issuer, 4), k, issuer, NewApp(t, k, issuer, 4), NewPrincipal(t), helpers[1..]);
  }

  // ---------------------------------------------------------------- not resumable everywhere

  /** A helper as the controller makes it: a new one for every reconcile. */
  predicate New(h: Fields) {
    h.roleID.None?
  }

  /** The tenants a run can leave half way: an application without a principal, or
      a principal without an assignment. */
  ghost predicate NoPrincipal(t: Tenant, k: Key) {
    var apps := Where(t.apps, Called(Vault.Subject(k)));
    apps != [] && Where(t.principals, Of(apps[0].appId)) == []
  }

  ghost predicate NoAssignment(t: Tenant, k: Key) {
    var apps := Where(t.apps, Called(Vault.Subject(k)));
    apps != [] &&
    var principals := Where(t.principals, Of(apps[0].appId));
    principals != [] && Where(t.assignments, To(principals[0].id)) == []
  }

  /** identity.go:234: with the application there and its principal missing, every
      call from then on indexes an empty list, and nothing repairs it. */
  lemma PanicsForEver(t: Tenant, k: Key, issuer: string, h: Fields, n: nat)
    ensures Creating(t, h, k, issuer, n).end.Panicked? <==> NoPrincipal(t, k)
    ensures NoPrincipal(t, k) ==> Creating(t, h, k, issuer, n).t == t
  {
    hide Vault.Subject;
  }

  /** identity.go:273: with the principal there and its assignment missing, a new
      helper knows no role id.  The call fails for good, or leaves an assignment
      without a role that every later call takes for the wanted one. */
  lemma RoleIsLost(t: Tenant, k: Key, issuer: string, h: Fields)
    requires NoAssignment(t, k) && New(h)
    ensures var r := Created(t, h, k, issuer);
      && (!t.roleless ==> r.end.Errored? && r.t == t)
      && (t.roleless ==> exists p: Principal :: p in t.principals && Where(r.t.assignments, To(p.id)) == [Assignment(p.id, p.id, None)])
  {
    hide Vault.Subject;
    var apps := Where(t.apps, Called(Vault.Subject(k)));
    var principals := Where(t.principals, Of(apps[0].appId));
    WhereHolds(t.principals, Of(apps[0].appId), 0);
    var p := principals[0];
    assert p in t.principals;
    WhereAppend(t.assignments, [Assignment(p.id, p.id, None)], To(p.id));
  }

  /** Exactly which failures a retry mends: a run cut off after `n` writes, taken up
      by a new helper, ends as one whole run does unless it stopped right after the
      application or right after the principal. */
  lemma RetryCompletes(t: Tenant, h: Fields, k: Key, issuer: string, n: nat, h': Fields)
    requires Unknown(t, k) && n <= 4 && New(h')
    ensures var retry := Created(Creating(t, h, k, issuer, n).t, h', k, issuer);
      (retry.end.Done? && retry.t == Created(t, h, k, issuer).t) <==> (n != 1 && n != 2)
  {
    hide Vault.Subject, Where, Consistent, Creating, Complete;
    var cut := After(t, k, issuer, n);
    CutTenant(t, h, k, issuer, n);
    CutTenant(t, h, k, issuer, 4);
    ListedAfter(t, k, issuer, n);
    match n {
      case 0 => CutTenant(t, h', k, issuer, 4);
      case 1 => PanicsForEver(cut, k, issuer, h', 4);
      case 2 => RetryWithoutRole(cut, k, issuer, h', After(t, k, issuer, 4), NewAssignment(t));
      case 3 => RetryAfterAssignment(t, k, issuer, h');
      case 4 =>
        CreateFromNothing(t, h, k, issuer);
        CreatedAgain(cut, k, issuer, NewApp(t, k, issuer, 4), NewPrincipal(t), h');
    }
  }

  lemma RetryWithoutRole(cut: Tenant, k: Key, issuer: string, h': Fields, whole: Tenant, a: Assignment)
    requires NoAssignment(cut, k) && New(h')
    requires whole.assignments == cut.assignments + [a] && a.role.Some?
    ensures var retry := Created(cut, h', k, issuer); !(retry.end.Done? && retry.t == whole)
  {
    hide Vault.Subject, Where;
    var r := Created(cut, h', k, issuer);
    if r.end.Done? {
      assert r.t.assignments[|cut.assignments|].role == None;
      assert whole.assignments[|cut.assignments|] == a;
    }
  }

  lemma RetryAfterAssignment(t: Tenant, k: Key, issuer: string, h': Fields)
    requires Unknown(t, k)
    ensures var retry := Created(After(t, k, issuer, 3), h', k, issuer);
      retry.end.Done? && retry.t == After(t, k, issuer, 4)
  {
    hide Vault.Subject, Where, Consistent, WithCredential;
    ListedAfter(t, k, issuer, 3);
    NewCredential(t, k, issuer);
  }

  // ---------------------------------------------------------------- other identities

  lemma {:induction false} CredentialKeepsOthers(apps: seq<App>, id: nat, c: Credential, name: string)
    requires forall i :: 0 <= i < |apps| && apps[i].id == id ==> apps[i].displayName != name
    ensures Where(WithCredential(apps, id, c), Called(name)) == Where(apps, Called(name))
  {
    if apps != [] {
      CredentialKeepsOthers(apps[1..], id, c, name);
      var a := if apps[0].id == id then apps[0].(credentials := apps[0].credentials + [c]) else apps[0];
      assert WithCredential(apps, id, c)[1..] == WithCredential(apps[1..], id, c);
      assert a.displayName == name ==> a == apps[0];
    }
  }

  /** Distinct applications have distinct object ids. */
  predicate DistinctApps(t: Tenant) {
    forall i, j :: 0 <= i < j < |t.apps| ==> t.apps[i].id != t.apps[j].id
  }

  lemma RegisterKeepsOthers(t: Tenant, h: Fields, n: nat, name: string)
    requires Consistent(t) && DistinctApps(t) && name != h.subject
    ensures var r := Registered(t, h, n);
      && Where(r.t.apps, Called(name)) == Where(t.apps, Called(name))
      && t.principals <= r.t.principals && t.assignments <= r.t.assignments
      && (r.end.Done? ==> forall i :: 0 <= i < |r.t.apps| && r.t.apps[i].id == r.h.objectID ==> r.t.apps[i].displayName != name)
  {
    hide Where;
    var apps := Where(t.apps, Called(h.subject));
    if apps == [] {
      AppKeepsOthers(t.apps, App(t.next + 1, t.next + 2, h.subject, t.next, []), name);
    } else {
      WhereHolds(t.apps, Called(h.subject), 0);
    }
  }

  lemma AppKeepsOthers(apps: seq<App>, app: App, name: string)
    requires app.displayName != name
    ensures Where(apps + [app], Called(name)) == Where(apps, Called(name))
  {
    WhereAppend(apps, [app], Called(name));
  }

  /** However far it gets, CreateIdentity leaves the applications of every other
      name as they were and only adds to the principals and assignments. */
  lemma CreateKeepsOthers(t: Tenant, h: Fields, k: Key, issuer: string, n: nat, name: string)
    requires Consistent(t) && DistinctApps(t) && name != Vault.Subject(k)
    ensures var t' := Creating(t, h, k, issuer, n).t;
      && Where(t'.apps, Called(name)) == Where(t.apps, Called(name))
      && t.principals <= t'.principals && t.assignments <= t'.assignments
  {
    hide Vault.Subject, Where, Registered, WithCredential, Consistent, DistinctApps;
    var h1 := h.(subject := Vault.Subject(k));
    var r := Registered(t, h1, n);
    RegisterKeepsOthers(t, h1, n, name);
    if r.end.Done? {
      CredentialKeepsOthers(r.t.apps, r.h.objectID, Credential(k.name, issuer, r.h.subject), name);
    }
  }

  // ---------------------------------------------------------------- DeleteIdentity

  function IdsOf(principals: seq<Principal>): set<nat> {
    set p | p in principals :: p.id
  }

  /** DeleteIdentity: the first application of the name goes, with its principals
      and what was assigned on them; none is an error. */
  function Deleted(t: Tenant, k: Key): Option<Tenant> {
    var apps := Where(t.apps, Called(Vault.Subject(k)));
    if apps == [] then None else Some(DeleteApp(t, apps[0]))
  }

  function DeleteApp(t: Tenant, app: App): Tenant {
    var gone := IdsOf(Where(t.principals, Of(app.appId)));
    t.(apps := Where(t.apps, OtherThan(app.id)),
       principals := Where(t.principals, NotOf(app.appId)),
       assignments := Where(t.assignments, NotTo(gone)))
  }

  function OtherThan(id: nat): App -> bool { (a: App) => a.id != id }

  function NotOf(appId: nat): Principal -> bool { (p: Principal) => p.appId != appId }

  function NotTo(resources: set<nat>): Assignment -> bool { (a: Assignment) => a.resource !in resources }

  /** Create, then delete: the tenant is as it was, ids apart; deleting again fails. */
  lemma CreateThenDeleteRestores(t: Tenant, h: Fields, k: Key, issuer: string)
    requires Unknown(t, k)
    ensures Deleted(Created(t, h, k, issuer).t, k) == Some(t.(next := t.next + 4))
    ensures Deleted(t.(next := t.next + 4), k).None?
  {
    hide Vault.Subject, Creating;
    CutTenant(t, h, k, issuer, 4);
    ListedAfter(t, k, issuer, 4);
    DeleteNew(t, k, issuer);
  }

  lemma {:induction false} WhereWhere<T>(s: seq<T>, p: T -> bool, q: T -> bool)
    requires forall i :: 0 <= i < |s| && q(s[i]) ==> p(s[i])
    ensures Where(Where(s, p), q) == Where(s, q)
  {
    if s != [] {
      WhereWhere(s[1..], p, q);
      WhereAppend(if p(s[0]) then [s[0]] else [], Where(s[1..], p), q);
      assert [s[0]][1..] == [];
    }
  }

  /** Of distinct applications the one taken out by its id is the first of its name. */
  lemma {:induction false} FirstTakenOut(apps: seq<App>, name: string)
    requires forall i, j :: 0 <= i < j < |apps| ==> apps[i].id != apps[j].id
    requires Where(apps, Called(name)) != []
    ensures var first := Where(apps, Called(name))[0];
      Where(Where(apps, OtherThan(first.id)), Called(name)) == Where(apps, Called(name))[1..]
  {
    var first := Where(apps, Called(name))[0];
    var rest := apps[1..];
    var keep := OtherThan(first.id);
    if apps[0].displayName == name {
      WhereAll(rest, keep);
      assert Where(apps, keep) == rest;
    } else {
      WhereHolds(rest, Called(name), 0);
      FirstTakenOut(rest, name);
      WhereAppend([apps[0]], Where(rest, keep), Called(name));
      assert [apps[0]][1..] == [];
    }
  }

  /** Exactly the first application of the subject goes, with its own principals and
      what was assigned on them; the applications of every other name, the principals
      of every other application and the assignments on those stay as they were. */
  lemma DeleteTakesOnlyOwn(t: Tenant, k: Key, name: string, appId: nat, resource: nat)
    requires DistinctApps(t) && Deleted(t, k).Some? && name != Vault.Subject(k)
    ensures var app := Where(t.apps, Called(Vault.Subject(k)))[0];
      var t' := Deleted(t, k).value;
      && Where(t'.apps, Called(Vault.Subject(k))) == Where(t.apps, Called(Vault.Subject(k)))[1..]
      && Where(t'.apps, WithId(app.id)) == []
      && Where(t'.apps, Called(name)) == Where(t.apps, Called(name))
      && Where(t'.principals, Of(appId)) == (if appId == app.appId then [] else Where(t.principals, Of(appId)))
      && Where(t'.assignments, To(resource)) ==
           (if exists p :: p in t.principals && p.appId == app.appId && p.id == resource then []
            else Where(t.assignments, To(resource)))
  {
    hide Vault.Subject;
    var subject := Vault.Subject(k);
    var app := Where(t.apps, Called(subject))[0];
    WhereHolds(t.apps, Called(subject), 0);
    FirstTakenOut(t.apps, subject);
    OtherNamesKept(t, app, name);
    OwnPrincipalsGo(t, app, appId);
    OwnAssignmentsGo(t, app, resource);
  }

  lemma OtherNamesKept(t: Tenant, app: App, name: string)
    requires DistinctApps(t) && app in t.apps && app.displayName != name
    ensures Where(DeleteApp(t, app).apps, Called(name)) == Where(t.apps, Called(name))
    ensures Where(DeleteApp(t, app).apps, WithId(app.id)) == []
  {
    var i :| 0 <= i < |t.apps| && t.apps[i] == app;
    assert forall j :: 0 <= j < |t.apps| && j != i ==> t.apps[j].id != t.apps[i].id;
    WhereWhere(t.apps, OtherThan(app.id), Called(name));
    NoneLeft(t.apps, OtherThan(app.id), WithId(app.id));
  }

  /** What the one excludes and the other asks for is nowhere. */
  lemma NoneLeft<T>(s: seq<T>, p: T -> bool, q: T -> bool)
    requires forall i :: 0 <= i < |s| && p(s[i]) ==> !q(s[i])
    ensures Where(Where(s, p), q) == []
  {
    forall i | 0 <= i < |Where(s, p)| ensures !q(Where(s, p)[i]) { WhereHolds(s, p, i); }
    WhereNone(Where(s, p), q);
  }

  lemma OwnPrincipalsGo(t: Tenant, app: App, appId: nat)
    ensures Where(DeleteApp(t, app).principals, Of(appId)) == (if appId == app.appId then [] else Where(t.principals, Of(appId)))
  {
    if appId == app.appId {
      NoneLeft(t.principals, NotOf(app.appId), Of(appId));
    } else {
      WhereWhere(t.principals, NotOf(app.appId), Of(appId));
    }
  }

  lemma {:induction false} Listed<T>(s: seq<T>, p: T -> bool, x: T)
    ensures x in Where(s, p) <==> x in s && p(x)
  {
    if s != [] { Listed(s[1..], p, x); }
  }

  lemma OwnAssignmentsGo(t: Tenant, app: App, resource: nat)
    ensures Where(DeleteApp(t, app).assignments, To(resource)) ==
      (if exists p :: p in t.principals && p.appId == app.appId && p.id == resource then []
       else Where(t.assignments, To(resource)))
  {
    var own := Where(t.principals, Of(app.appId));
    var gone := IdsOf(own);
    if p :| p in t.principals && p.appId == app.appId && p.id == resource {
      Listed(t.principals, Of(app.appId), p);
      assert resource in gone;
      NoneLeft(t.assignments, NotTo(gone), To(resource));
    } else {
      forall p | p in own ensures p.id != resource { Listed(t.principals, Of(app.appId), p); }
      assert resource !in gone;
      WhereWhere(t.assignments, NotTo(gone), To(resource));
    }
  }

  lemma DeleteNew(t: Tenant, k: Key, issuer: string)
    requires Unknown(t, k)
    ensures DeleteApp(After(t, k, issuer, 4), NewApp(t, k, issuer, 4)) == t.(next := t.next + 4)
  {
    hide Vault.Subject, Where, Consistent;
    var app, p, a := NewApp(t, k, issuer, 4), NewPrincipal(t), NewAssignment(t);
    ListedAfter(t, k, issuer, 4);
    var gone := IdsOf([p]);
    assert [p][0] == p && gone == {p.id};
    KeepsOld(t, gone, app.id, app.appId);
    WhereAppend(t.apps, [app], OtherThan(app.id));
    WhereAppend(t.principals, [p], NotOf(app.appId));
    WhereAppend(t.assignments, [a], NotTo(gone));
    Dropped(app, OtherThan(app.id));
    Dropped(p, NotOf(app.appId));
    Dropped(a, NotTo(gone));
  }

  lemma Dropped<T>(x: T, p: T -> bool)
    requires !p(x)
    ensures Where([x], p) == []
  {
  }

  lemma KeepsOld(t: Tenant, gone: set<nat>, id: nat, appId: nat)
    requires Consistent(t) && id >= t.next && appId >= t.next && forall x :: x in gone ==> x >= t.next
    ensures Where(t.apps, OtherThan(id)) == t.apps && Where(t.principals, NotOf(appId)) == t.principals
    ensures Where(t.assignments, NotTo(gone)) == t.assignments
  {
    WhereAll(t.apps, OtherThan(id));
    WhereAll(t.principals, NotOf(appId));
    WhereAll(t.assignments, NotTo(gone));
  }

  // ---------------------------------------------------------------- internal/identity/azure/identity.go

  class IdentityHelper {
    const tenantID: string
    var objectID: nat
    var clientID: nat
    var servicePrincipalID: nat
    var subject: string
    var roleID: Option<nat>

    var tenant: Tenant                    // the Graph API, and
    var endings: seq<Vault.Ending>        // how its next calls will end

    constructor (tenantID: string, clientID: nat, tenant: Tenant, endings: seq<Vault.Ending>)
      ensures this.tenantID == tenantID && this.tenant == tenant && this.endings == endings
      ensures Now().clientID == clientID && New(Now())
    {
      this.tenantID, this.tenant, this.endings := tenantID, tenant, endings;
      this.clientID, objectID, servicePrincipalID, subject, roleID := clientID, 0, 0, "", None;
    }

    function Now(): Fields
      reads this
    {
      Fields(objectID, clientID, servicePrincipalID, subject, roleID)
    }

    /** Every call was answered and the helper is where the run `r` stops. */
    ghost predicate Matches(r: Run, end: End)
      reads this
    {
      tenant == r.t && Now() == r.h && end == r.end
    }

    /** A call failed: the tenant is as the run `r` leaves it, which had all its writes. */
    ghost predicate Stopped(r: Run, end: End)
      reads this
    {
      tenant == r.t && end == Errored && (r.left == 0 || !r.end.Done?)
    }

    method NextEnding() returns (e: Vault.Ending)
      modifies `endings
      ensures Vault.AllFine(old(endings)) ==> e.Fine? && Vault.AllFine(endings)
    {
      if endings == [] { e := Vault.Fine; } else { e, endings := endings[0], endings[1..]; }
    }

    method AddAppRoleAssignment() returns (end: End, ghost cut: Option<nat>)
      modifies this
      ensures cut.None? ==> Matches(Assigned(old(tenant), old(Now()), 2), end)
      ensures cut.Some? ==> Stopped(Assigned(old(tenant), old(Now()), cut.value), end)
      ensures cut.Some? ==> cut.value <= 1
      ensures Vault.AllFine(old(endings)) ==> cut.None? && Vault.AllFine(endings)
    {
      var e := NextEnding();
      if !e.Fine? { return Errored, Some(0); }
      var rolesAssigned := Where(tenant.assignments, To(servicePrincipalID));
      if |rolesAssigned| > 0 {
        roleID := rolesAssigned[0].role;
        return Done, None;
      }
      if roleID.None? && !tenant.roleless { return Errored, None; }
      e := NextEnding();
      if !e.Refused? { tenant := PostAssignment(tenant, servicePrincipalID, roleID); }
      if !e.Fine? { return Errored, Some(if e.Refused? then 0 else 1); }
      return Done, None;
    }

    method EnsureAppRegistration() returns (end: End, ghost cut: Option<nat>)
      modifies this
      ensures cut.None? ==> Matches(Registered(old(tenant), old(Now()), 4), end)
      ensures cut.Some? ==> Stopped(Registered(old(tenant), old(Now()), cut.value), end)
      ensures cut.Some? ==> cut.value <= 3
      ensures Vault.AllFine(old(endings)) ==> cut.None? && Vault.AllFine(endings)
    {
      hide Assigned, Where, Registered, Called, Of, Vault.AllFine;
      ghost var t0, h0 := tenant, Now();
      NoWrites(t0, h0);
      var e := NextEnding();
      if !e.Fine? { return Errored, Some(0); }
      var apps := Where(tenant.apps, Called(subject));
      ghost var writes := 0;
      if |apps| == 0 {
        RegisteringNew(t0, h0);
        roleID := Some(tenant.next);
        e := NextEnding();
        if !e.Refused? { tenant := PostApp(tenant, subject); }
        if !e.Fine? { return Errored, Some(if e.Refused? then 0 else 1); }
        var created := tenant.apps[|tenant.apps| - 1];
        objectID, clientID := created.id, created.appId;
        e := NextEnding();
        if !e.Refused? { tenant := PostPrincipal(tenant, clientID); }
        if e.LostReply? { NoMoreWrites(tenant, Now().(servicePrincipalID := tenant.principals[|tenant.principals| - 1].id)); }
        if !e.Fine? { return Errored, Some(if e.Refused? then 1 else 2); }
        servicePrincipalID := tenant.principals[|tenant.principals| - 1].id;
        writes := 2;
      } else {
        RegisteringKnown(t0, h0);
        clientID, objectID := apps[0].appId, apps[0].id;
        e := NextEnding();
        if !e.Fine? { return Errored, Some(0); }
        var principals := Where(tenant.principals, Of(clientID));
        if |principals| == 0 { return Panicked, None; }
        servicePrincipalID := principals[0].id;
      }
      MoreBudget(tenant, Now(), 4);
      end, cut := AddAppRoleAssignment();
      if cut.Some? { cut := Some(writes + cut.value); }
    }

    method CreateFederatedIdentityCredential(name: string, issuer: string) returns (end: End, ghost cut: Option<nat>)
      modifies this
      ensures cut.None? ==> Matches(Federated(old(tenant), old(Now()), name, issuer, 1), end)
      ensures cut.Some? ==> end == Errored && cut.value <= 1 && tenant == Federated(old(tenant), old(Now()), name, issuer, cut.value).t
      ensures Vault.AllFine(old(endings)) ==> cut.None? && Vault.AllFine(endings)
    {
      var e := NextEnding();
      if !e.Fine? { return Errored, Some(0); }
      var apps := Where(tenant.apps, WithId(objectID));
      if |apps| == 0 { return Errored, None; }
      var existing := apps[0].credentials;
      for i := 0 to |existing|
        invariant forall j :: 0 <= j < i ==> existing[j].name != name
      {
        if existing[i].name == name { return Done, None; }
      }
      e := NextEnding();
      if !e.Refused? { tenant := PostCredential(tenant, objectID, Credential(name, issuer, subject)); }
      if !e.Fine? { return Errored, Some(if e.Refused? then 0 else 1); }
      return Done, None;
    }

    /** CreateIdentity.  Without failing calls it ends as Created says; otherwise the
        tenant is where the first so many writes of that run leave it. */
    method CreateIdentity(k: Key, issuer: string) returns (end: End, meta: Option<Metadata>)
      modifies this
      ensures end.Done? ==> meta == Some(MetadataOf(Created(old(tenant), old(Now()), k, issuer).h, tenantID))
      ensures !end.Errored? ==> tenant == Created(old(tenant), old(Now()), k, issuer).t
      ensures !end.Errored? ==> end == Created(old(tenant), old(Now()), k, issuer).end
      ensures end.Errored? ==> meta.None? && exists n: nat :: n <= 4 && tenant == Creating(old(tenant), old(Now()), k, issuer, n).t
      ensures Vault.AllFine(old(endings)) ==> end == Created(old(tenant), old(Now()), k, issuer).end
    {
      hide Assigned, Registered, Federated, Vault.Subject;
      subject := Vault.Subject(k);
      ghost var t0, h0 := old(tenant), Now();
      ghost var cut;
      end, cut := EnsureAppRegistration();
      if !end.Done? {
        ghost var n := if cut.Some? then cut.value else 4;
        assert tenant == Creating(t0, old(Now()), k, issuer, n).t by {
          if Registered(t0, h0, n).end.Done? { CutBeforeCredential(Registered(t0, h0, n), k.name, issuer); }
        }
        return end, None;
      }
      ghost var r := Registered(t0, h0, 4);
      end, cut := CreateFederatedIdentityCredential(k.name, issuer);
      BudgetLeft(t0, h0);
      if !end.Done? {
        if cut.Some? {
          assert tenant == Creating(t0, old(Now()), k, issuer, 4 - r.left + cut.value).t by {
            BudgetExact(t0, h0, cut.value);
          }
        } else {
          EnoughBudget(r, k.name, issuer);
          assert tenant == Creating(t0, old(Now()), k, issuer, 4).t;
        }
        return end, None;
      }
      EnoughBudget(r, k.name, issuer);
      meta := Some(MetadataOf(Now(), tenantID));
    }

    method DeleteIdentity(k: Key) returns (ok: bool)
      modifies this
      ensures ok ==> Deleted(old(tenant), k) == Some(tenant)
      ensures !ok ==> tenant == old(tenant) || Deleted(old(tenant), k) == Some(tenant)
      ensures Vault.AllFine(old(endings)) ==> (ok <==> Deleted(old(tenant), k).Some?)
      ensures Now() == old(Now())
    {
      var e := NextEnding();
      if !e.Fine? { return false; }
      var apps := Where(tenant.apps, Called(Vault.Subject(k)));
      if |apps| == 0 { return false; }
      e := NextEnding();
      if !e.Refused? { tenant := DeleteApp(tenant, apps[0]); }
      ok := e.Fine?;
    }
  }

  /** The branches of Registered. */
  lemma RegisteringNew(t: Tenant, h: Fields)
    requires Where(t.apps, Called(h.subject)) == []
    ensures var h1 := h.(roleID := Some(t.next), objectID := t.next + 1, clientID := t.next + 2);
      var t1 := PostApp(t, h.subject);
      && Registered(t, h, 0) == Run(Errored, t, h1, 0) && Registered(t, h, 1) == Run(Errored, t1, h1, 0)
      && forall n: nat :: n >= 2 ==>
           Registered(t, h, n) == Assigned(PostPrincipal(t1, h1.clientID), h1.(servicePrincipalID := t1.next), n - 2)
  {
  }

  lemma RegisteringKnown(t: Tenant, h: Fields)
    requires Where(t.apps, Called(h.subject)) != []
    ensures var app := Where(t.apps, Called(h.subject))[0];
      var h1 := h.(clientID := app.appId, objectID := app.id);
      var principals := Where(t.principals, Of(app.appId));
      forall n: nat :: Registered(t, h, n) ==
        if principals == [] then Run(Panicked, t, h1, n) else Assigned(t, h1.(servicePrincipalID := principals[0].id), n)
  {
  }

  lemma NoMoreWrites(t: Tenant, h: Fields)
    ensures Assigned(t, h, 0).t == t && Assigned(t, h, 0).left == 0
  {
  }

  lemma NoWrites(t: Tenant, h: Fields)
    ensures Registered(t, h, 0).t == t && Registered(t, h, 0).left == 0
  {
  }

  lemma MoreBudget(t: Tenant, h: Fields, n: nat)
    requires n >= 2
    ensures var r, s := Assigned(t, h, n), Assigned(t, h, 2); r.end == s.end && r.t == s.t && r.h == s.h
  {
  }

  lemma CutBeforeCredential(r: Run, name: string, issuer: string)
    requires r.left == 0
    ensures Federated(r.t, r.h, name, issuer, 0).t == r.t
  {
  }

  lemma EnoughBudget(r: Run, name: string, issuer: string)
    requires r.left >= 1
    ensures var f, g := Federated(r.t, r.h, name, issuer, 1), Federated(r.t, r.h, name, issuer, r.left);
      f.end == g.end && f.t == g.t && f.h == g.h
  {
  }

  lemma BudgetLeft(t: Tenant, h: Fields)
    requires Registered(t, h, 4).end.Done?
    ensures 1 <= Registered(t, h, 4).left <= 4
  {
  }

  /** A run granted the writes it used up to the credential, and `c` more. */
  lemma BudgetExact(t: Tenant, h: Fields, c: nat)
    requires Registered(t, h, 4).end.Done? && c <= 1
    ensures var r, s := Registered(t, h, 4), Registered(t, h, 4 - Registered(t, h, 4).left + c);
      s.end.Done? && s.t == r.t && s.h == r.h && s.left == c
  {
  }
}
