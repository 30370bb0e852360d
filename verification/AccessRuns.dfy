/**
 What every run of SCIM group requests, user administration and logins keeps:
 agreement with the derivation from scratch, an enabled admin, and the tenant scope.
 */
module AccessRuns {
  import opened Wrappers
  import opened Access

  /** The database, and the users the last-admin rule kept in the admin role. */
  datatype State = State(db: Db, retained: set<User>)

  predicate Governed(m: Mapping, db: Db, u: User) { u in db.users && (db.users[u].managed || Mapped(m, Names(db, u))) }

  predicate EnabledAdmin(db: Db, u: User) { u in db.users && db.users[u].role == ADMIN && !db.users[u].disabled }

  predicate TwoAdmins(db: Db) {
    exists a, b :: a in db.users && b in db.users && a != b && EnabledAdmin(db, a) && EnabledAdmin(db, b)
  }

  /** An admin whose groups give another role, in a database without two enabled admins. */
  predicate Spared(m: Mapping, db: Db, u: User) {
    u in db.users && db.users[u].role == ADMIN && DerivedRole(m, Names(db, u)) != ADMIN && !TwoAdmins(db)
  }

  function Recompute(m: Mapping, s: State, u: User): State {
    State(Recomputed(m, s.db, u),
          if !Governed(m, s.db, u) then s.retained
          else if Spared(m, s.db, u) then s.retained + {u} else s.retained - {u})
  }

  lemma SparedIsRetained(m: Mapping, db: Db, u: User)
    requires u in db.users
    ensures Spared(m, db, u) <==> Retains(m, db, u)
  {
    hide DerivedRole, Names;
    var admins := EnabledAdmins(db);
    if |admins| > 1 {
      var a :| a in admins;
      assert |admins - {a}| == |admins| - 1;
      var b :| b in admins - {a};
      assert EnabledAdmin(db, a) && EnabledAdmin(db, b);
    }
    if TwoAdmins(db) {
      var a, b :| a in db.users && b in db.users && a != b && EnabledAdmin(db, a) && EnabledAdmin(db, b);
      assert {a, b} <= admins && |{a, b}| == 2;
      Within({a, b}, admins);
    }
  }

  lemma {:induction false} Within(a: set<User>, b: set<User>)
    requires a <= b
    ensures |a| <= |b|
  {
    if a == {} {
    } else {
      var x :| x in a;
      Within(a - {x}, b - {x});
    }
  }

  /**
   A recompute of a managed or mapped user gives the derived role and grants, except that an admin keeps the role
   exactly while no two enabled admins exist; it touches nothing else.
   */
  lemma RecomputeExactly(m: Mapping, db: Db, u: User)
    ensures Governed(m, db, u) ==>
              Recomputed(m, db, u)
              == db.(users := db.users[u := UserRow(
                   if db.users[u].role == ADMIN && !TwoAdmins(db) then ADMIN else DerivedRole(m, Names(db, u)),
                   db.users[u].disabled, true, DerivedGrants(m, db.customers, Names(db, u)))])
    ensures !Governed(m, db, u) ==> Recomputed(m, db, u) == db
  {
    if u in db.users {
      SparedIsRetained(m, db, u);
    }
    hide DerivedRole, DerivedGrants, Names, Mapped, TwoAdmins;
  }

  function RecomputeAll(m: Mapping, s: State, order: seq<User>): State {
    if order == [] then s else Recompute(m, RecomputeAll(m, s, order[..|order| - 1]), order[|order| - 1])
  }

  /** A group request, the users whose recompute fails, and the order in which the other affected users had theirs. */
  datatype Event = Event(req: Request, failing: set<User>, order: seq<User>)

  predicate Possible(db: Db, e: Event) {
    && (e.req.Create? ==> e.req.id !in db.groups)
    && (Writes(db, e.req).Done? ==> Elements(e.order) == Writes(db, e.req).write.affected - e.failing)
  }

  function Handle(m: Mapping, s: State, e: Event): State {
    match Writes(s.db, e.req)
    case Done(w) => RecomputeAll(m, State(w.db, s.retained), e.order)
    case Rejected => s
    case RenamedOnly(db) => State(db, s.retained)
  }

  lemma {:induction false} RecomputeAllDb(m: Mapping, s: State, order: seq<User>)
    ensures RecomputeAll(m, s, order).db == RecomputedAll(m, s.db, order)
  {
    if order == [] {
    } else {
      RecomputeAllDb(m, s, order[..|order| - 1]);
    }
  }

  /** The bookkeeping of retained admins does not change what the handlers do. */
  lemma HandleIsHandler(m: Mapping, s: State, e: Event)
    ensures Handle(m, s, e).db == HandledDb(m, s.db, e.req, e.order)
  {
    if Writes(s.db, e.req).Done? {
      RecomputeAllDb(m, State(Writes(s.db, e.req).write.db, s.retained), e.order);
    }
  }

  // ---------------------------------------------------------------- agreement with the derivation from scratch

  /**
   A user in a mapped group is managed; a managed user has exactly the derived grants
   and the derived role, or is an admin the last-admin rule retained.
   */
  predicate UserAgrees(m: Mapping, s: State, u: User)
    requires u in s.db.users
  {
    var names, row := Names(s.db, u), s.db.users[u];
    && (Mapped(m, names) ==> row.managed)
    && (row.managed ==>
          && row.grants == DerivedGrants(m, s.db.customers, names)
          && (if u in s.retained then row.role == ADMIN && DerivedRole(m, names) != ADMIN
              else row.role == DerivedRole(m, names)))
  }

  predicate Agreement(m: Mapping, s: State) { forall u :: u in s.db.users ==> UserAgrees(m, s, u) }

  /** The users of a write, and the customers, are untouched; so are the names of everyone not affected. */
  ghost predicate Covers(db: Db, w: Write) {
    && w.db.users == db.users && w.db.customers == db.customers
    && forall u :: u !in w.affected ==> Names(w.db, u) == Names(db, u)
  }

  lemma OneGroupChanged(db: Db, id: Group, row: GroupRow, u: User)
    requires id in db.groups ==> (u in db.groups[id].members <==> u in row.members)
    requires id in db.groups && u in row.members ==> db.groups[id].name == row.name
    requires id !in db.groups ==> u !in row.members
    ensures Names(db.(groups := db.groups[id := row]), u) == Names(db, u)
  {
    var g, h := db.groups, db.groups[id := row];
    assert forall x :: x in h && x != id ==> x in g && h[x] == g[x];
    assert Names(db.(groups := h), u) == NamesAmong(h, h.Keys, u);
    forall n | n in NamesAmong(g, g.Keys, u) ensures n in NamesAmong(h, h.Keys, u) {
      var x :| x in g && u in g[x].members && g[x].name == n;
      assert x in h.Keys && u in h[x].members && h[x].name == n;
    }
    forall n | n in NamesAmong(h, h.Keys, u) ensures n in NamesAmong(g, g.Keys, u) {
      var x :| x in h && u in h[x].members && h[x].name == n;
      assert x in g.Keys && u in g[x].members && g[x].name == n;
    }
  }

  lemma UpdateCovers(db: Db, id: Group, name: Option<string>, external: Option<string>, members: Option<seq<User>>)
    requires Updated(db, id, name, external, members).Some?
    ensures Covers(db, Updated(db, id, name, external, members).value)
  {
    var w := Updated(db, id, name, external, members).value;
    forall u | u !in w.affected ensures Names(w.db, u) == Names(db, u) {
      OneGroupChanged(db, id, w.db.groups[id], u);
    }
  }

  lemma ModifyCovers(db: Db, id: Group, add: seq<User>, remove: seq<User>)
    requires Modified(db, id, add, remove).Some?
    ensures Covers(db, Modified(db, id, add, remove).value)
  {
    var w := Modified(db, id, add, remove).value;
    forall u | u !in w.affected ensures Names(w.db, u) == Names(db, u) {
      OneGroupChanged(db, id, w.db.groups[id], u);
    }
  }

  lemma CreateCovers(db: Db, id: Group, name: string, external: Option<string>, members: seq<User>)
    requires id !in db.groups && Created(db, id, name, external, members).Some?
    ensures Covers(db, Created(db, id, name, external, members).value)
  {
    var w := Created(db, id, name, external, members).value;
    forall u | u !in w.affected ensures Names(w.db, u) == Names(db, u) {
      OneGroupChanged(db, id, w.db.groups[id], u);
    }
  }

  lemma DeleteCovers(db: Db, id: Group)
    requires Deleted(db, id).Some?
    ensures Covers(db, Deleted(db, id).value)
  {
    var w := Deleted(db, id).value;
    forall u | u !in w.affected ensures Names(w.db, u) == Names(db, u) {
      OneGroupChanged(w.db, id, db.groups[id], u);
      assert w.db.groups[id := db.groups[id]] == db.groups;
    }
  }

  /** Everyone whose group names a request changed is among the users it recomputes. */
  lemma AffectedCoversChanges(db: Db, e: Event)
    requires Possible(db, e) && Writes(db, e.req).Done?
    ensures Covers(db, Writes(db, e.req).write)
  {
    match e.req
    case Create(id, name, external, members) => CreateCovers(db, id, name, external, members);
    case Put(id, name, external, members) => UpdateCovers(db, id, Some(name), external, Some(members));
    case Delete(id) => DeleteCovers(db, id);
    case Patch(id, ops) =>
      var p := PlanOf(ops);
      if p.replace.Some? {
        UpdateCovers(db, id, p.name, None, p.replace);
      } else {
        var renamed := db;
        if p.name.Some? {
          UpdateCovers(db, id, p.name, None, None);
          renamed := Updated(db, id, p.name, None, None).value.db;
        }
        if p.add != [] || p.remove != [] {
          ModifyCovers(renamed, id, p.add, p.remove);
        }
      }
  }

  lemma RecomputeEstablishes(m: Mapping, s: State, u: User)
    ensures var s' := Recompute(m, s, u);
            && s'.db.users.Keys == s.db.users.Keys && s'.db.groups == s.db.groups && s'.db.customers == s.db.customers
            && (u in s.db.users ==> UserAgrees(m, s', u))
            && (forall v :: v in s.db.users && v != u ==> UserAgrees(m, s', v) == UserAgrees(m, s, v))
  {
    var s' := Recompute(m, s, u);
    RecomputeExactly(m, s.db, u);
    hide Recomputed, TwoAdmins, EnabledAdmin;
    assert forall v :: Names(s'.db, v) == Names(s.db, v);
  }

  lemma {:induction false} RecomputeAllEstablishes(m: Mapping, s: State, order: seq<User>)
    ensures var s' := RecomputeAll(m, s, order);
            && s'.db.users.Keys == s.db.users.Keys && s'.db.groups == s.db.groups && s'.db.customers == s.db.customers
            && forall v :: v in s.db.users ==> (UserAgrees(m, s', v) <==> v in order || UserAgrees(m, s, v))
  {
    if order == [] {
    } else {
      hide UserAgrees, Recompute;
      var n := |order| - 1;
      RecomputeAllEstablishes(m, s, order[..n]);
      RecomputeEstablishes(m, RecomputeAll(m, s, order[..n]), order[n]);
      assert forall v :: v in order <==> v in order[..n] || v == order[n];
    }
  }

  lemma UnaffectedStillAgree(m: Mapping, s: State, w: Write, u: User)
    requires Covers(s.db, w) && u in s.db.users && u !in w.affected && UserAgrees(m, s, u)
    ensures UserAgrees(m, State(w.db, s.retained), u)
  {}

  /** The group names `names` give a user the access the present ones give, or nothing mapped to an unmanaged one. */
  predicate SameAccess(m: Mapping, s: State, u: User, names: set<string>)
    requires u in s.db.users
  {
    if s.db.users[u].managed then
      && DerivedGrants(m, s.db.customers, names) == DerivedGrants(m, s.db.customers, Names(s.db, u))
      && (if u in s.retained then DerivedRole(m, names) != ADMIN
          else DerivedRole(m, names) == DerivedRole(m, Names(s.db, u)))
    else !Mapped(m, names)
  }

  lemma AgreesIffSameAccess(m: Mapping, s: State, db: Db, u: User)
    requires u in s.db.users && UserAgrees(m, s, u) && db.users == s.db.users && db.customers == s.db.customers
    ensures UserAgrees(m, State(db, s.retained), u) <==> SameAccess(m, s, u, Names(db, u))
  {
    hide DerivedGrants, DerivedRole, Mapped, Names;
  }

  // ---------------------------------------------------------------- a PATCH that fails after its rename

  /** The rank a group name gives: that of the role it names, else none. */
  function NamedRank(m: Mapping, dn: string): nat { if NamesRole(m, dn) then Rank(dn[|m.rolePrefix|..]) else 0 }

  function TopRank(m: Mapping, names: set<string>): nat {
    if m.rolePrefix == "" then 0
    else if m.rolePrefix + ADMIN in names then 3
    else if m.rolePrefix + OPERATOR in names then 2
    else if m.rolePrefix + VIEWER in names then 1
    else 0
  }

  function RoleOf(m: Mapping, rank: nat): string {
    if rank == 3 then ADMIN else if rank == 2 then OPERATOR else if rank == 1 then VIEWER else m.defaultRole
  }

  function Max(a: nat, b: nat): nat { if a >= b then a else b }

  /** What one group name gives, in grants and in role, on top of the names `rest`. */
  function AddedGrants(m: Mapping, customers: map<string, Customer>, rest: set<string>, dn: string): set<Customer> {
    DerivedGrants(m, customers, {dn}) - DerivedGrants(m, customers, rest)
  }

  function RoleWith(m: Mapping, rest: set<string>, dn: string): string {
    RoleOf(m, Max(TopRank(m, rest), NamedRank(m, dn)))
  }

  /**
   For a member with the other group names `rest`, the new name gives what the old one gave: the same grants and
   role to a managed user, no admin role to a retained admin, and nothing mapped to an unmanaged user.
   */
  predicate Harmless(m: Mapping, s: State, u: User, rest: set<string>, was: string, now: string)
    requires u in s.db.users
  {
    if s.db.users[u].managed then
      && AddedGrants(m, s.db.customers, rest, was) == AddedGrants(m, s.db.customers, rest, now)
      && (if u in s.retained then RoleWith(m, rest, now) != ADMIN else RoleWith(m, rest, was) == RoleWith(m, rest, now))
    else !NamesRole(m, now) && !NamesCustomer(m, now)
  }

  /** The names of a user's groups other than `id`. */
  function OtherNames(db: Db, id: Group, u: User): set<string> { NamesAmong(db.groups, db.groups.Keys - {id}, u) }

  predicate HarmlessRename(m: Mapping, s: State, id: Group, name: string)
    requires id in s.db.groups
  {
    forall u :: u in s.db.groups[id].members && u in s.db.users ==>
      Harmless(m, s, u, OtherNames(s.db, id, u), s.db.groups[id].name, name)
  }

  lemma NameIs(m: Mapping, dn: string, role: string)
    ensures NamesRole(m, dn) && dn[|m.rolePrefix|..] == role <==> m.rolePrefix != "" && dn == m.rolePrefix + role
  {
    if NamesRole(m, dn) {
      assert dn == m.rolePrefix + dn[|m.rolePrefix|..];
    }
    if dn == m.rolePrefix + role {
      assert dn[|m.rolePrefix|..] == role;
    }
  }

  lemma RoleAdds(m: Mapping, rest: set<string>, dn: string)
    ensures DerivedRole(m, rest + {dn}) == RoleWith(m, rest, dn)
  {
    NameIs(m, dn, ADMIN);
    NameIs(m, dn, OPERATOR);
    NameIs(m, dn, VIEWER);
  }

  lemma GrantsAdd(m: Mapping, customers: map<string, Customer>, rest: set<string>, dn: string)
    ensures DerivedGrants(m, customers, rest + {dn})
            == DerivedGrants(m, customers, rest) + DerivedGrants(m, customers, {dn})
  {
    hide NamesCustomer;
    assert forall x :: x in rest + {dn} <==> x in rest || x in {dn};
  }

  lemma GrantsCompare(m: Mapping, customers: map<string, Customer>, rest: set<string>, was: string, now: string)
    ensures DerivedGrants(m, customers, rest + {was}) == DerivedGrants(m, customers, rest + {now})
       <==> AddedGrants(m, customers, rest, was) == AddedGrants(m, customers, rest, now)
  {
    GrantsAdd(m, customers, rest, was);
    GrantsAdd(m, customers, rest, now);
    hide DerivedGrants;
    var a, b := DerivedGrants(m, customers, {was}), DerivedGrants(m, customers, {now});
    SetsCompare(DerivedGrants(m, customers, rest), a, b);
  }

  lemma SetsCompare(r: set<Customer>, a: set<Customer>, b: set<Customer>)
    ensures r + a == r + b <==> a - r == b - r
  {
    if r + a == r + b {
      assert forall x :: x in a - r <==> x in (r + a) - r;
      assert forall x :: x in b - r <==> x in (r + b) - r;
    }
    if a - r == b - r {
      assert r + a == r + (a - r) && r + b == r + (b - r);
    }
  }

  lemma MappedAdds(m: Mapping, rest: set<string>, dn: string)
    ensures Mapped(m, rest + {dn}) <==> Mapped(m, rest) || NamesRole(m, dn) || NamesCustomer(m, dn)
  {
    hide NamesRole, NamesCustomer;
    assert dn in rest + {dn};
    if Mapped(m, rest) {
      var x :| x in rest && (NamesRole(m, x) || NamesCustomer(m, x));
      assert x in rest + {dn};
    }
  }

  lemma NamesSplit(db: Db, id: Group, name: string, u: User)
    requires id in db.groups
    ensures var row := db.groups[id].(name := name);
            Names(db.(groups := db.groups[id := row]), u)
            == if u in row.members then OtherNames(db, id, u) + {name} else OtherNames(db, id, u)
  {
    var h := db.groups[id := db.groups[id].(name := name)];
    var names := NamesAmong(h, h.Keys, u);
    forall n | n in OtherNames(db, id, u) ensures n in names {
      var g :| g in db.groups.Keys - {id} && u in db.groups[g].members && db.groups[g].name == n;
      assert g in h.Keys && h[g].name == n;
    }
    if u in db.groups[id].members {
      assert id in h.Keys && h[id].name == name;
    }
    forall n | n in names ensures n in OtherNames(db, id, u) || (u in db.groups[id].members && n == name) {
      var g :| g in h.Keys && u in h[g].members && h[g].name == n;
      if g != id {
        assert g in db.groups.Keys - {id} && db.groups[g].name == n;
      }
    }
  }

  lemma RenamedOnlyIsRename(db: Db, id: Group, ops: seq<PatchOp>)
    requires Writes(db, Patch(id, ops)).RenamedOnly?
    ensures id in db.groups && PlanOf(ops).name.Some?
    ensures var db' := Writes(db, Patch(id, ops)).db;
            && db'.users == db.users && db'.customers == db.customers
            && db'.groups == db.groups[id := db.groups[id].(name := PlanOf(ops).name.value)]
  {
  }

  lemma MemberAgreesIff(m: Mapping, s: State, db: Db, u: User, rest: set<string>, was: string, now: string)
    requires u in s.db.users && UserAgrees(m, s, u) && db.users == s.db.users && db.customers == s.db.customers
    requires Names(s.db, u) == rest + {was} && Names(db, u) == rest + {now}
    ensures UserAgrees(m, State(db, s.retained), u) <==> Harmless(m, s, u, rest, was, now)
  {
    hide DerivedGrants, DerivedRole, Mapped, AddedGrants, RoleWith, NamesRole, NamesCustomer, Names;
    RoleAdds(m, rest, was);
    RoleAdds(m, rest, now);
    GrantsCompare(m, s.db.customers, rest, was, now);
    MappedAdds(m, rest, was);
    MappedAdds(m, rest, now);
  }

  /**
   When the member change of a PATCH fails after its rename committed, nobody is recomputed: agreement
   survives exactly when the new name gives every member what the old one gave.
   */
  lemma RenamedOnlyAgreesIffHarmless(m: Mapping, s: State, id: Group, ops: seq<PatchOp>, failing: set<User>,
                                     order: seq<User>)
    requires Agreement(m, s) && Writes(s.db, Patch(id, ops)).RenamedOnly?
    ensures id in s.db.groups && PlanOf(ops).name.Some?
    ensures Agreement(m, Handle(m, s, Event(Patch(id, ops), failing, order)))
            <==> HarmlessRename(m, s, id, PlanOf(ops).name.value)
  {
    RenamedOnlyIsRename(s.db, id, ops);
    var was, now := s.db.groups[id].name, PlanOf(ops).name.value;
    var db' := Writes(s.db, Patch(id, ops)).db;
    hide Harmless, PlanOf, Writes, OtherNames, Names;
    forall u | u in s.db.users
      ensures UserAgrees(m, State(db', s.retained), u)
              <==> u in s.db.groups[id].members ==> Harmless(m, s, u, OtherNames(s.db, id, u), was, now)
    {
      assert UserAgrees(m, s, u);
      assert s.db == s.db.(groups := s.db.groups[id := s.db.groups[id].(name := was)]);
      assert db' == s.db.(groups := s.db.groups[id := s.db.groups[id].(name := now)]);
      NamesSplit(s.db, id, was, u);
      NamesSplit(s.db, id, now, u);
      if u in s.db.groups[id].members {
        MemberAgreesIff(m, s, db', u, OtherNames(s.db, id, u), was, now);
      }
    }
  }

  // ---------------------------------------------------------------- agreement over runs

  /** The request is a PATCH that fails after a rename that gives some member other access. */
  predicate HarmfulRename(m: Mapping, s: State, e: Event) {
    && Writes(s.db, e.req).RenamedOnly? && e.req.Patch? && e.req.id in s.db.groups && PlanOf(e.req.ops).name.Some?
    && !HarmlessRename(m, s, e.req.id, PlanOf(e.req.ops).name.value)
  }

  /** The request gives other access to a user whose recompute fails. */
  predicate HarmfulFailure(m: Mapping, s: State, e: Event) {
    && Writes(s.db, e.req).Done?
    && var w := Writes(s.db, e.req).write;
       exists u ::
         u in w.affected * e.failing && u in s.db.users && !SameAccess(m, s, u, Names(w.db, u))
  }

  lemma DoneKeepsAgreement(m: Mapping, s: State, e: Event)
    requires Agreement(m, s) && Possible(s.db, e) && Writes(s.db, e.req).Done?
    ensures Agreement(m, Handle(m, s, e)) <==> !HarmfulFailure(m, s, e)
  {
    var w := Writes(s.db, e.req).write;
    var s1 := State(w.db, s.retained);
    AffectedCoversChanges(s.db, e);
    forall u | u in s.db.users
      ensures u !in w.affected ==> UserAgrees(m, s1, u)
      ensures UserAgrees(m, s1, u) <==> SameAccess(m, s, u, Names(w.db, u))
    {
      hide UserAgrees, SameAccess;
      AgreesIffSameAccess(m, s, w.db, u);
      if u !in w.affected {
        UnaffectedStillAgree(m, s, w, u);
      }
    }
    RecomputeAllEstablishes(m, s1, e.order);
    hide UserAgrees, SameAccess, Writes, Names, RecomputeAll;
    assert forall u :: u in w.affected - e.failing <==> u in e.order;
    var end := Handle(m, s, e);
    assert end == RecomputeAll(m, s1, e.order);
    forall u | u in s.db.users
      ensures UserAgrees(m, end, u) <==> u !in w.affected * e.failing || SameAccess(m, s, u, Names(w.db, u))
    {
    }
  }

  /**
   A request keeps everyone in agreement, unless it is a PATCH that fails after a harmful rename or it gives other
   access to someone whose recompute fails.
   */
  lemma HandleKeepsAgreement(m: Mapping, s: State, e: Event)
    requires Agreement(m, s) && Possible(s.db, e)
    ensures Agreement(m, Handle(m, s, e)) <==> !HarmfulRename(m, s, e) && !HarmfulFailure(m, s, e)
  {
    if Writes(s.db, e.req).Done? {
      hide HarmfulFailure, Agreement;
      DoneKeepsAgreement(m, s, e);
    } else if Writes(s.db, e.req).RenamedOnly? {
      hide HarmlessRename, Agreement;
      RenamedOnlyAgreesIffHarmless(m, s, e.req.id, e.req.ops, e.failing, e.order);
    }
  }

  /** A run of possible requests, none of them harmful by a failure after its rename or of a recompute. */
  predicate HarmlessRun(m: Mapping, s: State, es: seq<Event>)
    decreases |es|
  {
    es == [] ||
    (Possible(s.db, es[0]) && !HarmfulRename(m, s, es[0]) && !HarmfulFailure(m, s, es[0])
     && HarmlessRun(m, Handle(m, s, es[0]), es[1..]))
  }

  function Run(m: Mapping, s: State, es: seq<Event>): State
    decreases |es|
  {
    if es == [] then s else Run(m, Handle(m, s, es[0]), es[1..])
  }

  lemma {:induction false} AgreementOverRuns(m: Mapping, s: State, es: seq<Event>)
    requires Agreement(m, s) && HarmlessRun(m, s, es)
    ensures Agreement(m, Run(m, s, es))
    decreases |es|
  {
    if es == [] {
    } else {
      hide HarmfulRename, HarmfulFailure, Agreement;
      HandleKeepsAgreement(m, s, es[0]);
      AgreementOverRuns(m, Handle(m, s, es[0]), es[1..]);
    }
  }

  /**
   Starting without groups and without managed users, every run of group requests
   leaves each user's access equal to the derivation from the current group names.
   */
  lemma IncrementalEqualsFromScratch(m: Mapping, db: Db, es: seq<Event>)
    requires db.groups == map[] && (forall u :: u in db.users ==> !db.users[u].managed)
    requires HarmlessRun(m, State(db, {}), es)
    ensures Agreement(m, Run(m, State(db, {}), es))
  {
    AgreementOverRuns(m, State(db, {}), es);
  }

  /** In the course of these recomputes the last-admin rule spares the user. */
  predicate SparedAmong(m: Mapping, s: State, order: seq<User>, u: User) {
    exists i :: 0 <= i < |order| && order[i] == u && Spared(m, RecomputeAll(m, s, order[..i]).db, u)
  }

  predicate SparedOver(m: Mapping, s: State, es: seq<Event>, u: User)
    decreases |es|
  {
    es != [] &&
    (|| (Writes(s.db, es[0].req).Done?
         && SparedAmong(m, State(Writes(s.db, es[0].req).write.db, s.retained), es[0].order, u))
     || SparedOver(m, Handle(m, s, es[0]), es[1..], u))
  }

  lemma {:induction false} RetainedAmong(m: Mapping, s: State, order: seq<User>, u: User)
    requires u in RecomputeAll(m, s, order).retained
    ensures u in s.retained || SparedAmong(m, s, order, u)
  {
    if order == [] {
    } else {
      var n := |order| - 1;
      var before := order[..n];
      hide Spared, Recomputed;
      if u in RecomputeAll(m, s, before).retained {
        RetainedAmong(m, s, before, u);
        if u !in s.retained {
          var i :| 0 <= i < |before| && before[i] == u && Spared(m, RecomputeAll(m, s, before[..i]).db, u);
          assert order[..i] == before[..i] && order[i] == u;
        }
      } else {
        assert order[n] == u && Spared(m, RecomputeAll(m, s, order[..n]).db, u);
      }
    }
  }

  /** Over every run, whoever is excused from the derived role was once spared while no two enabled admins existed. */
  lemma {:induction false} RetainedWereSpared(m: Mapping, s: State, es: seq<Event>, u: User)
    requires u in Run(m, s, es).retained
    ensures u in s.retained || SparedOver(m, s, es, u)
    decreases |es|
  {
    hide SparedAmong, Spared, RecomputeAll;
    if es == [] {
    } else {
      RetainedWereSpared(m, Handle(m, s, es[0]), es[1..], u);
      if u !in s.retained && u in Handle(m, s, es[0]).retained {
        RetainedAmong(m, State(Writes(s.db, es[0].req).write.db, s.retained), es[0].order, u);
      }
    }
  }

  /** Such a PATCH can leave a user with the grants of the old group name. */
  lemma RenamedOnlyCanDisagree() returns (m: Mapping, s: State, e: Event)
    ensures Agreement(m, s) && Possible(s.db, e) && Writes(s.db, e.req).RenamedOnly? && !Agreement(m, Handle(m, s, e))
  {
    m := Mapping("", "c:", VIEWER);
    var row := UserRow(VIEWER, false, true, {"A"});
    var group := GroupRow("c:a", None, {"u"});
    var db := Db(map["u" := row], map["g" := group], map["a" := "A", "b" := "B"]);
    s := State(db, {});
    var ops := [SetName("c:b"), Members(Add, ["nobody"])];
    e := Event(Patch("g", ops), {}, []);
    assert ops[..1] == [SetName("c:b")] && ops[..1][..0] == [];
    assert PlanOf(ops[..1]) == Plan(Some("c:b"), None, [], []);
    assert PlanOf(ops) == Plan(Some("c:b"), None, ["nobody"], []) by {
      assert [] + ["nobody"] == ["nobody"];
    }
    assert "nobody" in ["nobody"] && "nobody" !in db.users;
    RenamedOnlyIsRename(db, "g", ops);
    NamedGrant(m, "c:a", "a", db.customers);
    NamedGrant(m, "c:b", "b", db.customers);
    assert OtherNames(db, "g", "u") == {} && {} + {"c:a"} == {"c:a"} && {} + {"c:b"} == {"c:b"};
    assert db == db.(groups := db.groups["g" := group.(name := "c:a")]);
    NamesSplit(db, "g", "c:a", "u");
    assert UserAgrees(m, s, "u");
    RenamedOnlyAgreesIffHarmless(m, s, "g", ops, {}, []);
    GrantsCompare(m, db.customers, {}, "c:a", "c:b");
    assert !Harmless(m, s, "u", {}, "c:a", "c:b");
  }

  /** So can a recompute that fails. */
  lemma FailedRecomputeCanDisagree() returns (m: Mapping, s: State, e: Event)
    ensures Agreement(m, s) && Possible(s.db, e) && Writes(s.db, e.req).Done? && !Agreement(m, Handle(m, s, e))
  {
    m := Mapping("", "c:", VIEWER);
    var db := Db(map["u" := UserRow(VIEWER, false, false, {})], map[], map["a" := "A"]);
    s := State(db, {});
    e := Event(Create("g", "c:a", None, ["u"]), {"u"}, []);
    assert 'c' in "c:a" by {
      assert "c:a"[0] == 'c';
    }
    assert "u" in ["u"] && Elements(["u"]) == {"u"};
    var w := Writes(db, e.req).write;
    assert w.db.groups == map["g" := GroupRow("c:a", None, {"u"})];
    NamedGrant(m, "c:a", "a", db.customers);
    assert Names(w.db, "u") == {"c:a"} by {
      assert "g" in w.db.groups && w.db.groups["g"].name == "c:a";
    }
    assert Handle(m, s, e) == State(w.db, {});
    assert !UserAgrees(m, State(w.db, {}), "u");
  }

  lemma NamedGrant(m: Mapping, dn: string, slug: string, customers: map<string, Customer>)
    requires m.rolePrefix == "" && m.customerPrefix != "" && dn == m.customerPrefix + slug && slug in customers
    ensures NamesCustomer(m, dn) && DerivedGrants(m, customers, {dn}) == {customers[slug]}
    ensures Mapped(m, {dn}) && DerivedRole(m, {dn}) == m.defaultRole
  {
    assert dn[..|m.customerPrefix|] == m.customerPrefix && dn[|m.customerPrefix|..] == slug;
    assert dn in {dn};
  }

  // ---------------------------------------------------------------- who may be out of date

  predicate PossibleRun(m: Mapping, s: State, es: seq<Event>)
    decreases |es|
  {
    es == [] || (Possible(s.db, es[0]) && PossibleRun(m, Handle(m, s, es[0]), es[1..]))
  }

  /** Who may be out of date after a request: a recompute repairs a user, a missed one leaves the user behind. */
  function StaleAfter(db: Db, e: Event, stale: set<User>): set<User> {
    match Writes(db, e.req)
    case Done(w) => stale + w.affected - Elements(e.order)
    case Rejected => stale
    case RenamedOnly(_) => stale + if e.req.Patch? && e.req.id in db.groups then db.groups[e.req.id].members else {}
  }

  function StaleOver(m: Mapping, s: State, es: seq<Event>, stale: set<User>): set<User>
    decreases |es|
  {
    if es == [] then stale else StaleOver(m, Handle(m, s, es[0]), es[1..], StaleAfter(s.db, es[0], stale))
  }

  predicate AgreeExcept(m: Mapping, s: State, stale: set<User>) {
    forall u :: u in s.db.users && u !in stale ==> UserAgrees(m, s, u)
  }

  lemma DoneAgreesExcept(m: Mapping, s: State, e: Event, stale: set<User>)
    requires AgreeExcept(m, s, stale) && Possible(s.db, e) && Writes(s.db, e.req).Done?
    ensures AgreeExcept(m, Handle(m, s, e), StaleAfter(s.db, e, stale))
  {
    var w := Writes(s.db, e.req).write;
    AffectedCoversChanges(s.db, e);
    hide UserAgrees;
    forall u | u in s.db.users && u !in stale && u !in w.affected ensures UserAgrees(m, State(w.db, s.retained), u) {
      UnaffectedStillAgree(m, s, w, u);
    }
    RecomputeAllEstablishes(m, State(w.db, s.retained), e.order);
    assert forall u :: u in Elements(e.order) <==> u in e.order;
  }

  lemma RenamedAgreesExcept(m: Mapping, s: State, e: Event, stale: set<User>)
    requires AgreeExcept(m, s, stale) && Writes(s.db, e.req).RenamedOnly?
    ensures AgreeExcept(m, Handle(m, s, e), StaleAfter(s.db, e, stale))
  {
    var id := e.req.id;
    RenamedOnlyIsRename(s.db, id, e.req.ops);
    var db' := Writes(s.db, e.req).db;
    forall u | u in s.db.users && u !in StaleAfter(s.db, e, stale) ensures UserAgrees(m, State(db', s.retained), u) {
      hide Names;
      OneGroupChanged(s.db, id, s.db.groups[id].(name := PlanOf(e.req.ops).name.value), u);
      assert db' == s.db.(groups := db'.groups);
      assert UserAgrees(m, s, u);
    }
  }

  lemma HandleAgreesExcept(m: Mapping, s: State, e: Event, stale: set<User>)
    requires AgreeExcept(m, s, stale) && Possible(s.db, e)
    ensures AgreeExcept(m, Handle(m, s, e), StaleAfter(s.db, e, stale))
  {
    if Writes(s.db, e.req).Done? {
      DoneAgreesExcept(m, s, e, stale);
    } else if Writes(s.db, e.req).RenamedOnly? {
      RenamedAgreesExcept(m, s, e, stale);
    }
  }

  /**
   Whatever fails over a run of group requests, only a user whose recompute was missed since it last succeeded can
   differ from the derivation.
   */
  lemma {:induction false} OnlyStaleDisagree(m: Mapping, s: State, es: seq<Event>, stale: set<User>)
    requires AgreeExcept(m, s, stale) && PossibleRun(m, s, es)
    ensures AgreeExcept(m, Run(m, s, es), StaleOver(m, s, es, stale))
    decreases |es|
  {
    if es == [] {
    } else {
      hide AgreeExcept, StaleAfter;
      HandleAgreesExcept(m, s, es[0], stale);
      OnlyStaleDisagree(m, Handle(m, s, es[0]), es[1..], StaleAfter(s.db, es[0], stale));
    }
  }

  // ---------------------------------------------------------------- the last enabled admin

  datatype Step =
    | Scim(event: Event)
    | UpdateUser(user: User, role: Option<string>, disabled: Option<bool>)
    | DeleteUser(user: User)
    | Login(user: User, roleIfNew: string)
    | AddUser(user: User, newRole: string)
    | SetGrants(user: User, grants: set<Customer>)

  /** A login creates an unknown user, forces admin for configured emails and otherwise keeps the role. */
  function LoggedIn(db: Db, u: User, roleIfNew: string): Db {
    if u !in db.users then db.(users := db.users[u := UserRow(roleIfNew, false, false, {})])
    else if roleIfNew == ADMIN then db.(users := db.users[u := db.users[u].(role := ADMIN)])
    else db
  }

  function Next(m: Mapping, s: State, step: Step): State {
    match step
    case Scim(e) => Handle(m, s, e)
    case UpdateUser(u, role, disabled) => s.(db := UserUpdated(s.db, u, role, disabled))
    case DeleteUser(u) => s.(db := UserDeleted(s.db, u))
    case Login(u, roleIfNew) => s.(db := LoggedIn(s.db, u, roleIfNew))
    case AddUser(u, role) =>
      if u in s.db.users then s else s.(db := s.db.(users := s.db.users[u := UserRow(role, false, false, {})]))
    case SetGrants(u, grants) =>
      if u !in s.db.users then s else s.(db := s.db.(users := s.db.users[u := s.db.users[u].(grants := grants)]))
  }

  function After(m: Mapping, s: State, steps: seq<Step>): State
    decreases |steps|
  {
    if steps == [] then s else After(m, Next(m, s, steps[0]), steps[1..])
  }

  /** SCIM never demotes the last enabled admin. */
  lemma RecomputeKeepsAdmin(m: Mapping, s: State, u: User)
    requires EnabledAdmins(s.db) != {}
    ensures EnabledAdmins(Recompute(m, s, u).db) != {}
  {
    var db, db' := s.db, Recompute(m, s, u).db;
    if u in EnabledAdmins(db) && u !in EnabledAdmins(db') {
      var others := EnabledAdmins(db) - {u};
      assert |others| == |EnabledAdmins(db)| - 1;
      var a :| a in others;
      assert a in EnabledAdmins(db');
    } else {
      var a :| a in EnabledAdmins(db);
      assert a in EnabledAdmins(db');
    }
  }

  lemma {:induction false} RecomputeAllKeepsAdmin(m: Mapping, s: State, order: seq<User>)
    requires EnabledAdmins(s.db) != {}
    ensures EnabledAdmins(RecomputeAll(m, s, order).db) != {}
  {
    if order == [] {
    } else {
      RecomputeAllKeepsAdmin(m, s, order[..|order| - 1]);
      RecomputeKeepsAdmin(m, RecomputeAll(m, s, order[..|order| - 1]), order[|order| - 1]);
    }
  }

  lemma WritesKeepUsers(db: Db, req: Request)
    ensures Writes(db, req).Done? ==> Writes(db, req).write.db.users == db.users
    ensures Writes(db, req).RenamedOnly? ==> Writes(db, req).db.users == db.users
  {}

  lemma NextKeepsAdmin(m: Mapping, s: State, step: Step)
    requires EnabledAdmins(s.db) != {}
    ensures EnabledAdmins(Next(m, s, step).db) != {}
  {
    var a :| a in EnabledAdmins(s.db);
    match step
    case Scim(e) =>
      WritesKeepUsers(s.db, e.req);
      if Writes(s.db, e.req).Done? {
        var w := Writes(s.db, e.req).write;
        assert a in EnabledAdmins(w.db);
        RecomputeAllKeepsAdmin(m, State(w.db, s.retained), e.order);
      } else {
        assert a in EnabledAdmins(Handle(m, s, e).db);
      }
    case UpdateUser(u, role, disabled) =>
    case DeleteUser(u) =>
    case Login(_, _) => assert a in EnabledAdmins(Next(m, s, step).db);
    case AddUser(_, _) => assert a in EnabledAdmins(Next(m, s, step).db);
    case SetGrants(_, _) => assert a in EnabledAdmins(Next(m, s, step).db);
  }

  /** Every run of requests, user administration and logins keeps an enabled admin. */
  lemma {:induction false} AnAdminAlwaysRemains(m: Mapping, s: State, steps: seq<Step>)
    requires EnabledAdmins(s.db) != {}
    ensures EnabledAdmins(After(m, s, steps).db) != {}
    decreases |steps|
  {
    if steps == [] {
    } else {
      NextKeepsAdmin(m, s, steps[0]);
      AnAdminAlwaysRemains(m, Next(m, s, steps[0]), steps[1..]);
    }
  }

  // ---------------------------------------------------------------- the Guard's tenant scope

  datatype Scope = AllCustomers | Only(customers: set<Customer>)

  /** The tenant-scoping part of Guard for a session user. */
  function GuardScope(row: UserRow): Scope {
    if AtLeast(row.role, ADMIN) then AllCustomers
    else if row.grants == {} && !row.managed then AllCustomers
    else Only(row.grants)
  }

  predicate Reaches(scope: Scope, c: Customer) { scope.AllCustomers? || c in scope.customers }

  /**
   Whom the Guard lets reach a customer: admins, users granted it, and users without any grants whom SCIM does not
   manage.
   */
  lemma GuardReachesExactly(row: UserRow, c: Customer)
    ensures Reaches(GuardScope(row), c) <==> row.role == ADMIN || c in row.grants || (row.grants == {} && !row.managed)
    ensures GuardScope(row).AllCustomers? <==> row.role == ADMIN || (row.grants == {} && !row.managed)
  {
  }

  predicate Managed(db: Db, u: User) { u in db.users && db.users[u].managed }

  lemma {:induction false} RecomputeAllKeepsManaged(m: Mapping, s: State, order: seq<User>, u: User)
    requires Managed(s.db, u)
    ensures Managed(RecomputeAll(m, s, order).db, u)
  {
    if order == [] {
    } else {
      RecomputeAllKeepsManaged(m, s, order[..|order| - 1], u);
    }
  }

  /**
   Once managed, a user stays managed until deleted; so a managed user who is not
   admin is scoped to exactly their grants, and no grants means no customers.
   */
  lemma {:induction false} ManagedStaysScoped(m: Mapping, s: State, steps: seq<Step>, u: User)
    requires Managed(s.db, u) && forall x :: x in steps ==> x != DeleteUser(u)
    ensures Managed(After(m, s, steps).db, u)
    ensures var row := After(m, s, steps).db.users[u]; row.role != ADMIN ==> GuardScope(row) == Only(row.grants)
    decreases |steps|
  {
    if steps == [] {
    } else {
      var s' := Next(m, s, steps[0]);
      assert steps[0] in steps && forall x :: x in steps[1..] ==> x in steps;
      if steps[0].Scim? {
        WritesKeepUsers(s.db, steps[0].event.req);
        if Writes(s.db, steps[0].event.req).Done? {
          RecomputeAllKeepsManaged(m, State(Writes(s.db, steps[0].event.req).write.db, s.retained),
              steps[0].event.order, u);
        }
      }
      ManagedStaysScoped(m, s', steps[1..], u);
    }
  }

  /**
   After any run of group requests the Guard lets a managed non-admin reach exactly the customers their groups
   name.
   */
  lemma GuardFollowsGroups(m: Mapping, s: State, es: seq<Event>, u: User)
    requires Agreement(m, s) && HarmlessRun(m, s, es) && u in Run(m, s, es).db.users
    requires var db := Run(m, s, es).db; Mapped(m, Names(db, u)) && db.users[u].role != ADMIN
    ensures var db := Run(m, s, es).db; GuardScope(db.users[u]) == Only(DerivedGrants(m, db.customers, Names(db, u)))
  {
    AgreementOverRuns(m, s, es);
    assert UserAgrees(m, Run(m, s, es), u);
  }
}
