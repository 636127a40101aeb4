/** The Vault helper: the calls it makes, in order, against a server whose writes
    are upserts and whose entity ids are stable. */
module Vault {
  import opened Cluster
  import Numerals

  datatype Entity = Entity(id: nat, name: string, ns: string)
  datatype Alias = Alias(id: nat, canonical: nat)
  datatype AliasKey = AliasKey(name: string, accessor: string)
  datatype JwtRole = JwtRole(subject: string)
  datatype OidcRole = OidcRole(signingKey: string, clientId: string)

  datatype State = State(
    entities: map<string, Entity>, aliases: map<AliasKey, Alias>,
    jwt: map<string, JwtRole>, oidc: map<string, OidcRole>,
    accessor: string,          // of the jwt auth mount
    next: nat)

  const SIGNING_KEY := "aegis-key"

  function Subject(k: Key): string {
    "system:serviceaccount:" + k.ns + ":" + k.name
  }

  // ---------------------------------------------------------------- server calls

  /** A new entity takes the next id; an existing one keeps its own. */
  function WriteEntity(s: State, k: Key): State {
    var n := Subject(k);
    if n in s.entities then s.(entities := s.entities[n := Entity(s.entities[n].id, k.name, k.ns)])
    else s.(entities := s.entities[n := Entity(s.next, k.name, k.ns)], next := s.next + 1)
  }

  function WriteJwt(s: State, k: Key): State {
    s.(jwt := s.jwt[k.name := JwtRole(Subject(k))])
  }

  /** An alias is known by name and mount; writing it again moves it. */
  function WriteAlias(s: State, k: Key, canonical: nat): State {
    var a := AliasKey(Subject(k), s.accessor);
    if a in s.aliases then s.(aliases := s.aliases[a := Alias(s.aliases[a].id, canonical)])
    else s.(aliases := s.aliases[a := Alias(s.next, canonical)], next := s.next + 1)
  }

  function WriteOidc(s: State, k: Key): State {
    s.(oidc := s.oidc[k.name := OidcRole(SIGNING_KEY, Subject(k))])
  }

  /** The server after the first `n` calls of createIdentity: entity, read, jwt
      role, auth mounts, alias, oidc role. */
  function Creating(s: State, k: Key, n: nat): State
    requires n <= 6
  {
    if n == 0 then s
    else
      var s1 := WriteEntity(s, k);
      if n <= 2 then s1
      else
        var s2 := WriteJwt(s1, k);
        if n <= 4 then s2
        else
          var s3 := WriteAlias(s2, k, s1.entities[Subject(k)].id);
          if n == 5 then s3 else WriteOidc(s3, k)
  }

  function Created(s: State, k: Key): State {
    Creating(s, k, 6)
  }

  /** The metadata a complete run returns. */
  function Metadata(s: State, k: Key, address: string): map<string, string>
    requires Subject(k) in s.entities
  {
    map["aegis.identity.id" := Numerals.Digits(s.entities[Subject(k)].id), "aegis.identity.provider" := "hashicorp.vault",
        "aegis.identity.vault.address" := address]
  }

  // ---------------------------------------------------------------- what a creation leaves

  /** All that a workload needs to log in as the identity and to get its tokens: the
      entity, an alias on the jwt mount that leads to it, and both roles. */
  predicate Complete(s: State, k: Key) {
    var subject := "system:serviceaccount:" + k.ns + ":" + k.name;
    && subject in s.entities && s.entities[subject].name == k.name && s.entities[subject].ns == k.ns
    && AliasKey(subject, s.accessor) in s.aliases
    && s.aliases[AliasKey(subject, s.accessor)].canonical == s.entities[subject].id
    && k.name in s.jwt && s.jwt[k.name].subject == subject
    && k.name in s.oidc && s.oidc[k.name].signingKey == "aegis-key" && s.oidc[k.name].clientId == subject
  }

  /** A complete run leaves all of it, whatever the server held, and nothing less
      does: without the identity's objects every single call is needed. */
  lemma CreatedIsComplete(s: State, k: Key)
    ensures Complete(Created(s, k), k)
    ensures Clear(s, k) ==> forall n: nat :: n < 6 ==> !Complete(Creating(s, k, n), k)
  {
    assert Subject(k) == "system:serviceaccount:" + k.ns + ":" + k.name;
    hide Subject;
  }

  /** The metadata tells which entity it is and where. */
  lemma MetadataNamesEntity(s: State, k: Key, address: string)
    requires Complete(s, k)
    ensures var m := Metadata(s, k, address);
      && "aegis.identity.id" in m
      && Numerals.Decimal(m["aegis.identity.id"]) == Some(s.entities[Subject(k)].id)
      && "aegis.identity.provider" in m && m["aegis.identity.provider"] == KindName(Cluster.Vault)
      && "aegis.identity.vault.address" in m && m["aegis.identity.vault.address"] == address
  {
    Numerals.WrittenIsRead(s.entities[Subject(k)].id);
  }

  // ---------------------------------------------------------------- creation is resumable

  /** Each write, repeated, changes nothing more. */
  lemma WrittenAgain(s: State, k: Key, canonical: nat)
    ensures WriteEntity(WriteEntity(s, k), k) == WriteEntity(s, k)
    ensures WriteJwt(WriteJwt(s, k), k) == WriteJwt(s, k)
    ensures WriteAlias(WriteAlias(s, k, canonical), k, canonical) == WriteAlias(s, k, canonical)
    ensures WriteOidc(WriteOidc(s, k), k) == WriteOidc(s, k)
  {
    hide Subject;
    var a := AliasKey(Subject(k), s.accessor);
    var e, l := WriteEntity(s, k), WriteAlias(s, k, canonical);
    PutAgain(e.entities, Subject(k), e.entities[Subject(k)]);
    PutAgain(l.aliases, a, l.aliases[a]);
    PutAgain(WriteJwt(s, k).jwt, k.name, JwtRole(Subject(k)));
    PutAgain(WriteOidc(s, k).oidc, k.name, OidcRole(SIGNING_KEY, Subject(k)));
  }

  lemma PutAgain<X, Y>(m: map<X, Y>, x: X, y: Y)
    requires x in m && m[x] == y
    ensures m[x := y] == m
  {
  }

  /** Writes of different kinds can change places. */
  lemma WritesCommute(s: State, k: Key, canonical: nat)
    requires Subject(k) in s.entities
    ensures WriteEntity(WriteJwt(s, k), k) == WriteJwt(WriteEntity(s, k), k)
    ensures WriteEntity(WriteAlias(s, k, canonical), k) == WriteAlias(WriteEntity(s, k), k, canonical)
    ensures WriteEntity(WriteOidc(s, k), k) == WriteOidc(WriteEntity(s, k), k)
    ensures WriteJwt(WriteAlias(s, k, canonical), k) == WriteAlias(WriteJwt(s, k), k, canonical)
    ensures WriteJwt(WriteOidc(s, k), k) == WriteOidc(WriteJwt(s, k), k)
    ensures WriteAlias(WriteOidc(s, k), k, canonical) == WriteOidc(WriteAlias(s, k, canonical), k)
  {
    hide Subject;
  }

  /** No write after the first touches the entities. */
  lemma WritesKeepEntities(s: State, k: Key, canonical: nat)
    ensures WriteJwt(s, k).entities == WriteAlias(s, k, canonical).entities == WriteOidc(s, k).entities == s.entities
    ensures Subject(k) in WriteEntity(s, k).entities
  {
  }

  lemma CreatingAgain(s: State, k: Key, n: nat)
    requires n <= 6
    ensures Created(Creating(s, k, n), k) == Created(s, k)
  {
    hide Subject, WriteEntity, WriteJwt, WriteAlias, WriteOidc;
    var s1 := WriteEntity(s, k);
    WritesKeepEntities(s, k, 0);
    var id := s1.entities[Subject(k)].id;
    var s2, s3 := WriteJwt(s1, k), WriteAlias(WriteJwt(s1, k), k, id);
    WritesKeepEntities(s1, k, id);
    WritesKeepEntities(s2, k, id);
    WritesKeepEntities(s3, k, id);
    WrittenAgain(s, k, id);
    WrittenAgain(s1, k, id);
    WrittenAgain(s2, k, id);
    WrittenAgain(s3, k, id);
    WritesCommute(s1, k, id);
    WritesCommute(s2, k, id);
    WritesCommute(s3, k, id);
  }

  /** Runs cut off after so many calls each. */
  function CutRuns(s: State, k: Key, cuts: seq<nat>): State
    requires forall i :: 0 <= i < |cuts| ==> cuts[i] <= 6
    decreases |cuts|
  {
    if cuts == [] then s else CutRuns(Creating(s, k, cuts[0]), k, cuts[1..])
  }

  /** Any number of broken-off runs and then a complete one: the same server and
      the same metadata as one complete run. */
  lemma {:induction false} CreateIsResumable(s: State, k: Key, cuts: seq<nat>, address: string)
    requires forall i :: 0 <= i < |cuts| ==> cuts[i] <= 6
    ensures Created(CutRuns(s, k, cuts), k) == Created(s, k)
    ensures Metadata(Created(CutRuns(s, k, cuts), k), k, address) == Metadata(Created(s, k), k, address)
    decreases |cuts|
  {
    if cuts != [] {
      CreateIsResumable(Creating(s, k, cuts[0]), k, cuts[1..], address);
      CreatingAgain(s, k, cuts[0]);
    }
  }

  // ---------------------------------------------------------------- deletion

  /** Ids are handed out once, and every alias belongs to an entity. */
  ghost predicate Consistent(s: State) {
    && (forall n :: n in s.entities ==> s.entities[n].id < s.next)
    && (forall a :: a in s.aliases ==> s.aliases[a].canonical < s.next)
    && (forall m, n :: m in s.entities && n in s.entities && s.entities[m].id == s.entities[n].id ==> m == n)
  }

  function OwnAliases(s: State, id: nat): set<AliasKey> {
    set a | a in s.aliases && s.aliases[a].canonical == id
  }

  /** The server once the jwt role, the oidc role and the aliases in `gone` are
      deleted, in that order; `n` counts the first two. */
  function Deleting(s: State, k: Key, n: nat, gone: set<AliasKey>): State {
    var s1 := if n >= 1 then s.(jwt := s.jwt - {k.name}) else s;
    var s2 := if n >= 2 then s1.(oidc := s1.oidc - {k.name}) else s1;
    s2.(aliases := s2.aliases - gone)
  }

  /** A complete DeleteIdentity, which fails at the entity read if there is none. */
  function Deleted(s: State, k: Key): Option<State> {
    if Subject(k) !in s.entities then None
    else
      var id := s.entities[Subject(k)].id;
      Some(Deleting(s, k, 2, OwnAliases(s, id)).(entities := s.entities - {Subject(k)}))
  }

  /** Nothing on the server is the identity's. */
  ghost predicate Clear(s: State, k: Key) {
    && Subject(k) !in s.entities && k.name !in s.jwt && k.name !in s.oidc
    && AliasKey(Subject(k), s.accessor) !in s.aliases
  }

  /** Create, then delete: the server is as it was, ids apart. */
  lemma CreateThenDeleteRestores(s: State, k: Key)
    requires Consistent(s) && Clear(s, k)
    ensures Deleted(Created(s, k), k) == Some(s.(next := s.next + 2))
  {
    hide Subject;
    var t := Created(s, k);
    var id := s.next;
    var a := AliasKey(Subject(k), s.accessor);
    assert OwnAliases(t, id) == {a};
    assert t.jwt - {k.name} == s.jwt;
    assert t.oidc - {k.name} == s.oidc;
    assert t.aliases - {a} == s.aliases;
    assert t.entities - {Subject(k)} == s.entities;
  }

  /** Where a deletion may be broken off before the entity itself is deleted. */
  ghost predicate BrokenOff(s: State, k: Key, t: State) {
    exists n: nat, gone: set<AliasKey> :: t == Deleting(s, k, n, gone) && Cut(s, k, n, gone)
  }

  predicate Cut(s: State, k: Key, n: nat, gone: set<AliasKey>) {
    && n <= 2 && (gone != {} ==> n == 2)
    && gone <= if Subject(k) in s.entities then OwnAliases(s, s.entities[Subject(k)].id) else {}
  }

  /** Broken off anywhere before the entity itself is deleted, a deletion can be
      run again to the same end. */
  lemma DeleteIsResumable(s: State, k: Key, t: State)
    requires BrokenOff(s, k, t)
    ensures Deleted(t, k) == Deleted(s, k)
  {
    hide Deleted, Deleting;
    var n: nat, gone: set<AliasKey> :| t == Deleting(s, k, n, gone) && Cut(s, k, n, gone);
    DeletingAgain(s, k, n, gone);
  }

  lemma DeletingAgain(s: State, k: Key, n: nat, gone: set<AliasKey>)
    requires Cut(s, k, n, gone)
    ensures Deleted(Deleting(s, k, n, gone), k) == Deleted(s, k)
  {
    hide Subject;
    var t := Deleting(s, k, n, gone);
    if Subject(k) in s.entities {
      var id := s.entities[Subject(k)].id;
      assert t.jwt - {k.name} == s.jwt - {k.name};
      assert t.oidc - {k.name} == s.oidc - {k.name};
      assert t.aliases - OwnAliases(t, id) == s.aliases - OwnAliases(s, id);
    }
  }

  /** ... but not after it: a finished deletion, run again, fails. */
  lemma DeleteAgainFails(s: State, k: Key)
    requires Deleted(s, k).Some?
    ensures Deleted(Deleted(s, k).value, k).None?
  {
  }

  /** A successful deletion leaves nothing of the identity behind: neither role, no
      entity, and no alias that leads to it, whatever its name and mount. */
  lemma DeleteClears(s: State, k: Key)
    requires Deleted(s, k).Some?
    ensures var t := Deleted(s, k).value; var id := s.entities[Subject(k)].id;
      && Subject(k) !in t.entities && k.name !in t.jwt && k.name !in t.oidc
      && (forall a :: a in t.aliases ==> t.aliases[a].canonical != id)
      && (Complete(s, k) ==> Clear(t, k))
  {
  }

  /** What the state machine of the controllers calls a record is a server that is
      not Clear: there is one from the first call of a creation on, and it lasts
      until the last call of a deletion. */
  lemma RecordFromFirstToLast(s: State, k: Key, n: nat, t: State)
    requires n <= 6
    ensures n > 0 ==> !Clear(Creating(s, k, n), k)
    ensures BrokenOff(s, k, t) && !Clear(s, k) && Subject(k) in s.entities ==> !Clear(t, k)
  {
    hide Subject;
  }

  // ---------------------------------------------------------------- other identities

  /** No ':' in a namespace, as DNS labels have it (RFC 1123, section 2.1). */
  predicate Label(s: string) {
    forall i :: 0 <= i < |s| ==> s[i] != ':'
  }

  /** Where the first ':' of "ns:name" stands. */
  lemma FirstColon(ns: string, name: string)
    requires Label(ns)
    ensures var rest := ns + ":" + name;
      && rest[|ns|] == ':' && rest[..|ns|] == ns && rest[|ns| + 1..] == name
      && forall i :: 0 <= i < |ns| ==> rest[i] != ':'
  {
  }

  lemma SubjectInjective(k: Key, j: Key)
    requires Label(k.ns) && Label(j.ns) && Subject(k) == Subject(j)
    ensures k == j
  {
    var p := "system:serviceaccount:";
    var rest := Subject(k)[|p|..];
    assert rest == k.ns + ":" + k.name;
    assert rest == j.ns + ":" + j.name by { assert Subject(j)[|p|..] == j.ns + ":" + j.name; }
    FirstColon(k.ns, k.name);
    FirstColon(j.ns, j.name);
  }

  function Lookup<T>(m: map<string, T>, key: string): Option<T> {
    if key in m then Some(m[key]) else None
  }

  predicate SameAliases(s: State, t: State, id: nat) {
    OwnAliases(s, id) == OwnAliases(t, id) && forall a :: a in OwnAliases(s, id) ==> s.aliases[a] == t.aliases[a]
  }

  /** Both servers hold the same for `j`: entity, roles and the entity's aliases. */
  ghost predicate SameFor(s: State, t: State, j: Key) {
    && Lookup(s.entities, Subject(j)) == Lookup(t.entities, Subject(j))
    && Lookup(s.jwt, j.name) == Lookup(t.jwt, j.name)
    && Lookup(s.oidc, j.name) == Lookup(t.oidc, j.name)
    && (Subject(j) in s.entities ==>
          SameAliases(s, t, s.entities[Subject(j)].id))
  }

  /** An alias on the jwt mount belongs to the entity of its own name. */
  ghost predicate Untangled(s: State) {
    forall a, n ::
      (a in s.aliases && a.accessor == s.accessor && n in s.entities && s.aliases[a].canonical == s.entities[n].id)
      ==> a.name == n
  }

  lemma EntityTouchesNoOther(s: State, k: Key, j: Key)
    requires Subject(k) != Subject(j) && Consistent(s) && Untangled(s)
    ensures SameFor(s, WriteEntity(s, k), j) && Consistent(WriteEntity(s, k)) && Untangled(WriteEntity(s, k))
  {
    hide Subject;
  }

  lemma AliasTouchesNoOther(s: State, k: Key, j: Key)
    requires Subject(k) != Subject(j) && Consistent(s) && Untangled(s) && Subject(k) in s.entities
    ensures var t := WriteAlias(s, k, s.entities[Subject(k)].id);
      SameFor(s, t, j) && Consistent(t) && Untangled(t)
  {
    hide Subject;
    var a := AliasKey(Subject(k), s.accessor);
    var t := WriteAlias(s, k, s.entities[Subject(k)].id);
    if Subject(j) in s.entities {
      var id := s.entities[Subject(j)].id;
      assert a !in OwnAliases(s, id) && a !in OwnAliases(t, id);
      assert OwnAliases(s, id) == OwnAliases(t, id);
    }
  }

  lemma RolesTouchNoOther(s: State, k: Key, j: Key)
    requires k.name != j.name && Consistent(s) && Untangled(s)
    ensures SameFor(s, WriteJwt(s, k), j) && Consistent(WriteJwt(s, k)) && Untangled(WriteJwt(s, k))
    ensures SameFor(s, WriteOidc(s, k), j) && Consistent(WriteOidc(s, k)) && Untangled(WriteOidc(s, k))
  {
    hide Subject;
  }

  lemma SameForChains(s: State, t: State, u: State, j: Key)
    requires SameFor(s, t, j) && SameFor(t, u, j)
    ensures SameFor(s, u, j)
  {
  }

  /** No part of a creation touches an identity of another name, and the server
      stays consistent and untangled, so this holds of every later call as well. */
  lemma CreateTouchesNoOther(s: State, k: Key, j: Key, n: nat)
    requires n <= 6 && k.name != j.name && Label(k.ns) && Label(j.ns)
    requires Consistent(s) && Untangled(s)
    ensures SameFor(s, Creating(s, k, n), j) && Consistent(Creating(s, k, n)) && Untangled(Creating(s, k, n))
  {
    hide Consistent, Untangled, SameFor, Subject;
    assert Subject(k) != Subject(j) by { if Subject(k) == Subject(j) { SubjectInjective(k, j); } }
    if n == 0 {
      SameForItself(s, j);
    } else {
      var s1 := WriteEntity(s, k);
      EntityTouchesNoOther(s, k, j);
      if n > 2 {
        var s2 := WriteJwt(s1, k);
        RolesTouchNoOther(s1, k, j);
        SameForChains(s, s1, s2, j);
        if n > 4 {
          var s3 := WriteAlias(s2, k, s1.entities[Subject(k)].id);
          AliasTouchesNoOther(s2, k, j);
          SameForChains(s, s2, s3, j);
          if n == 6 {
            RolesTouchNoOther(s3, k, j);
            SameForChains(s, s3, WriteOidc(s3, k), j);
          }
        }
      }
    }
  }

  lemma SameForItself(s: State, j: Key)
    ensures SameFor(s, s, j)
  {
  }

  /** Nor does a deletion, whether it finishes, breaks off anywhere or finds no
      entity. */
  lemma DeleteTouchesNoOther(s: State, k: Key, j: Key, t: State)
    requires k.name != j.name && Label(k.ns) && Label(j.ns)
    requires Consistent(s) && (BrokenOff(s, k, t) || Deleted(s, k) == Some(t))
    ensures SameFor(s, t, j) && Consistent(t) && (Untangled(s) ==> Untangled(t))
  {
    hide Subject;
    assert Subject(k) != Subject(j) by { if Subject(k) == Subject(j) { SubjectInjective(k, j); } }
    if Deleted(s, k) == Some(t) {
      var u := Deleting(s, k, 2, OwnAliases(s, s.entities[Subject(k)].id));
      CutTouchesNoOther(s, k, j, 2, OwnAliases(s, s.entities[Subject(k)].id));
      assert SameFor(u, t, j);
      SameForChains(s, u, t, j);
    } else {
      var n: nat, gone: set<AliasKey> :| t == Deleting(s, k, n, gone) && Cut(s, k, n, gone);
      CutTouchesNoOther(s, k, j, n, gone);
    }
  }

  lemma CutTouchesNoOther(s: State, k: Key, j: Key, n: nat, gone: set<AliasKey>)
    requires k.name != j.name && Subject(k) != Subject(j)
    requires Consistent(s) && Cut(s, k, n, gone)
    ensures var t := Deleting(s, k, n, gone);
      SameFor(s, t, j) && Consistent(t) && (Untangled(s) ==> Untangled(t))
  {
    hide Subject;
    var t := Deleting(s, k, n, gone);
    if Subject(j) in s.entities {
      var id := s.entities[Subject(j)].id;
      assert OwnAliases(s, id) == OwnAliases(t, id);
    }
  }

  /** identity.go:74,81,139,170: roles are keyed by the bare name, so of two
      identities with one name in two namespaces the later creation takes over the
      roles of the first, and the deletion of either takes both roles away. */
  lemma SameNameShares(s: State, k: Key, j: Key)
    requires k.name == j.name && k.ns != j.ns && Label(k.ns) && Label(j.ns)
    ensures var t := Created(Created(s, k), j);
      && j.name in t.jwt && t.jwt[j.name] == JwtRole(Subject(j)) && Subject(j) != Subject(k)
      && (Deleted(t, k).Some? ==> j.name !in Deleted(t, k).value.jwt && j.name !in Deleted(t, k).value.oidc)
  {
    hide Subject, WriteEntity, WriteAlias, OwnAliases;
    if Subject(k) == Subject(j) { SubjectInjective(k, j); }
    var t := Created(s, k);
    var t1 := WriteEntity(t, j);
    AliasKeepsRoles(WriteJwt(t1, j), j, t1.entities[Subject(j)].id) by { WritesKeepEntities(t, j, 0); }
  }

  lemma AliasKeepsRoles(s: State, k: Key, canonical: nat)
    ensures WriteAlias(s, k, canonical).jwt == s.jwt && WriteAlias(s, k, canonical).oidc == s.oidc
  {
  }

  // ---------------------------------------------------------------- internal/identity/hashicorpvault/identity.go

  /** How a call ends: it may fail with or without having been carried out. */
  datatype Ending = Fine | Refused | LostReply

  predicate AllFine(endings: seq<Ending>) {
    forall i :: 0 <= i < |endings| ==> endings[i].Fine?
  }

  class IdentityHelper {
    const address: string
    var server: State
    var endings: seq<Ending>

    constructor (address: string, server: State, endings: seq<Ending>)
      ensures this.address == address && this.server == server && this.endings == endings
    {
      this.address, this.server, this.endings := address, server, endings;
    }

    method NextEnding() returns (e: Ending)
      modifies `endings
      ensures AllFine(old(endings)) ==> e.Fine? && AllFine(endings)
    {
      if endings == [] { e := Fine; } else { e, endings := endings[0], endings[1..]; }
    }

    /** createIdentity: on success the server is as Created says; cut off anywhere,
        it is at one of the points CreateIsResumable starts from. */
    method CreateIdentity(k: Key) returns (meta: Option<map<string, string>>)
      modifies this
      ensures meta.Some? ==> server == Created(old(server), k) && meta.value == Metadata(server, k, address)
      ensures meta.None? ==> exists n: nat :: n <= 6 && server == Creating(old(server), k, n)
      ensures AllFine(old(endings)) ==> meta.Some?
    {
      ghost var s := server;
      var e := NextEnding();
      if !e.Refused? { server := WriteEntity(server, k); }
      if !e.Fine? {
        assert server == Creating(s, k, if e.Refused? then 0 else 1);
        return None;
      }
      e := NextEnding();
      if !e.Fine? { assert server == Creating(s, k, 1); return None; }
      var id := server.entities[Subject(k)].id;
      e := NextEnding();
      if !e.Refused? { server := WriteJwt(server, k); }
      if !e.Fine? {
        assert server == Creating(s, k, if e.Refused? then 2 else 3);
        return None;
      }
      e := NextEnding();
      if !e.Fine? { assert server == Creating(s, k, 3); return None; }
      e := NextEnding();
      if !e.Refused? { server := WriteAlias(server, k, id); }
      if !e.Fine? {
        assert server == Creating(s, k, if e.Refused? then 4 else 5);
        return None;
      }
      e := NextEnding();
      if !e.Refused? { server := WriteOidc(server, k); }
      if !e.Fine? {
        assert server == Creating(s, k, if e.Refused? then 5 else 6);
        return None;
      }
      return Some(Metadata(server, k, address));
    }

    /** DeleteIdentity's loop over the entity's aliases; `gone` are those it deleted. */
    method DeleteAliases(aliases: set<AliasKey>) returns (ok: bool, ghost gone: set<AliasKey>)
      modifies this
      ensures gone <= aliases && server == old(server).(aliases := old(server).aliases - gone)
      ensures ok ==> gone == aliases
      ensures AllFine(old(endings)) ==> ok && AllFine(endings)
    {
      var left := aliases;
      gone := {};
      assert server.aliases - gone == server.aliases;
      while left != {}
        invariant gone + left == aliases && gone !! left
        invariant server == old(server).(aliases := old(server).aliases - gone)
        invariant AllFine(old(endings)) ==> AllFine(endings)
        decreases left
      {
        var a :| a in left;
        var e := NextEnding();
        if !e.Refused? {
          server := server.(aliases := server.aliases - {a});
          gone := gone + {a};
          assert old(server).aliases - gone == old(server).aliases - (gone - {a}) - {a};
        }
        if !e.Fine? { return false, gone; }
        left := left - {a};
      }
      ok := true;
    }

    /** DeleteIdentity.  Having failed, it left the server where DeleteIsResumable
        starts from, or finished and lost the last reply. */
    method DeleteIdentity(k: Key) returns (ok: bool)
      modifies this
      ensures ok ==> Deleted(old(server), k) == Some(server)
      ensures !ok ==> BrokenOff(old(server), k, server) || Deleted(old(server), k) == Some(server)
      ensures AllFine(old(endings)) ==> (ok <==> Subject(k) in old(server).entities)
    {
      ghost var s := server;
      var e := NextEnding();
      if !e.Refused? { server := server.(jwt := server.jwt - {k.name}); }
      assert server == Deleting(s, k, if e.Refused? then 0 else 1, {}) by { assert s.aliases - {} == s.aliases; }
      if !e.Fine? { return false; }
      e := NextEnding();
      if !e.Refused? { server := server.(oidc := server.oidc - {k.name}); }
      assert server == Deleting(s, k, if e.Refused? then 1 else 2, {});
      if !e.Fine? { return false; }
      e := NextEnding();
      if !e.Fine? || Subject(k) !in server.entities { return false; }
      ghost var gone;
      ok, gone := DeleteAliases(OwnAliases(server, server.entities[Subject(k)].id));
      assert server == Deleting(s, k, 2, gone) by { assert s.aliases - {} == s.aliases; }
      if !ok { return; }
      e := NextEnding();
      if !e.Refused? { server := server.(entities := server.entities - {Subject(k)}); }
      ok := e.Fine?;
    }
  }
}
