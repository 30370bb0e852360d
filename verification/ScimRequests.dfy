/** What each SCIM group request and each user edit does, and what every run of them keeps of the groups. */
module ScimRequests {
  import opened Wrappers
  import opened Access
  import opened AccessRuns
  import opened ScimPatch

  // ---------------------------------------------------------------- what group names give

  /** Some group is named by the role prefix and this role. */
  predicate RoleNamed(m: Mapping, names: set<string>, role: string) {
    m.rolePrefix != "" && m.rolePrefix + role in names
  }

  /** The derived role is the strongest known one a group names, and the default where none does. */
  lemma RoleIsStrongest(m: Mapping, names: set<string>)
    ensures var role := DerivedRole(m, names);
            && (forall r :: r in {ADMIN, OPERATOR, VIEWER} && RoleNamed(m, names, r) ==>
                  Rank(role) >= Rank(r) && RoleNamed(m, names, role))
            && ((forall r :: r in {ADMIN, OPERATOR, VIEWER} ==> !RoleNamed(m, names, r)) ==> role == m.defaultRole)
    ensures Rank(ADMIN) > Rank(OPERATOR) > Rank(VIEWER) > 0
  {
    assert ADMIN in {ADMIN, OPERATOR, VIEWER} && OPERATOR in {ADMIN, OPERATOR, VIEWER};
    assert VIEWER in {ADMIN, OPERATOR, VIEWER};
  }

  /** A customer is granted exactly when a group is named by the customer prefix and the slug, and not by a role. */
  lemma GrantsExactly(m: Mapping, customers: map<string, Customer>, names: set<string>, c: Customer)
    ensures c in DerivedGrants(m, customers, names)
       <==> exists slug ::
              && slug in customers && customers[slug] == c
              && m.customerPrefix != "" && m.customerPrefix + slug in names
              && !(m.rolePrefix != "" && m.rolePrefix <= m.customerPrefix + slug)
  {
    if c in DerivedGrants(m, customers, names) {
      var dn :| dn in names && NamesCustomer(m, dn) && dn[|m.customerPrefix|..] in customers
                && customers[dn[|m.customerPrefix|..]] == c;
      var slug := dn[|m.customerPrefix|..];
      assert dn == m.customerPrefix + slug;
    }
    if slug :| && slug in customers && customers[slug] == c
               && m.customerPrefix != "" && m.customerPrefix + slug in names
               && !(m.rolePrefix != "" && m.rolePrefix <= m.customerPrefix + slug)
    {
      var dn := m.customerPrefix + slug;
      assert dn[..|m.customerPrefix|] == m.customerPrefix && dn[|m.customerPrefix|..] == slug;
      assert NamesCustomer(m, dn);
    }
  }

  // ---------------------------------------------------------------- group requests

  /** Another group already has the external ID. */
  predicate Clashes(db: Db, id: Group, external: Option<string>) {
    external.Some? && exists g :: g in db.groups && g != id && db.groups[g].external == external
  }

  predicate Strangers(db: Db, us: seq<User>) { exists u :: u in us && u !in db.users }

  /** Why a request is turned down. */
  predicate Refused(db: Db, req: Request) {
    match req
    case Create(id, name, external, members) =>
      (forall c :: c in name ==> Space(c)) || Clashes(db, id, external) || Strangers(db, members)
    case Put(id, _, external, members) => id !in db.groups || Clashes(db, id, external) || Strangers(db, members)
    case Patch(id, ops) =>
      var p := PlanOf(ops);
      id !in db.groups || Strangers(db, if p.replace.Some? then p.replace.value else p.add)
    case Delete(id) => id !in db.groups
  }

  /** The group a request that is not refused leaves under its ID. */
  function GroupAfter(db: Db, req: Request): Option<GroupRow>
    requires !Refused(db, req)
  {
    match req
    case Create(_, name, external, members) => Some(GroupRow(name, external, set u | u in members))
    case Put(id, name, external, members) =>
      Some(GroupRow(name, if external.Some? then external else db.groups[id].external, set u | u in members))
    case Patch(id, ops) =>
      var view := AtOnce(ViewOf(db.groups[id]), PlanOf(ops));
      Some(GroupRow(view.name, db.groups[id].external, view.members))
    case Delete(_) => None
  }

  /** The users a request names, besides those in the group. */
  function Mentioned(req: Request): set<User> {
    match req
    case Create(_, _, _, members) => set u | u in members
    case Put(_, _, _, members) => set u | u in members
    case Patch(_, ops) =>
      var p := PlanOf(ops);
      (set u | u in p.add) + (set u | u in p.remove) + (if p.replace.Some? then set u | u in p.replace.value else {})
    case Delete(_) => {}
  }

  lemma ClashIsTaken(db: Db, id: Group, external: Option<string>, us: seq<User>)
    ensures Clashes(db, id, external) <==> ExternalTaken(db, id, external)
    ensures Strangers(db, us) <==> !Known(db, us)
    ensures (set u | u in us) == Elements(us)
  {
  }

  predicate OnlyNamed(affected: set<User>, db: Db, req: Request) {
    forall u :: u in affected ==> u in Mentioned(req) || (req.id in db.groups && u in db.groups[req.id].members)
  }

  /**
   A request is done exactly when it is not refused; then the group under its ID is the one asked for, no other
   group and no user row changes, and only members and users it names are recomputed.
   */
  lemma RequestExactly(db: Db, req: Request)
    ensures Writes(db, req).Done? <==> !Refused(db, req)
    ensures Writes(db, req).Done? ==>
              var w, after := Writes(db, req).write, GroupAfter(db, req);
              && w.db == db.(groups := if after.Some? then db.groups[req.id := after.value] else db.groups - {req.id})
              && OnlyNamed(w.affected, db, req)
  {
    match req
    case Create(id, name, external, members) => ClashIsTaken(db, id, external, members);
    case Put(id, _, external, members) => ClashIsTaken(db, id, external, members);
    case Delete(id) =>
    case Patch(id, ops) =>
      var p := PlanOf(ops);
      ClashIsTaken(db, id, None, if p.replace.Some? then p.replace.value else p.add);
      hide PlanOf;
      PatchExactly(db, id, p);
  }

  lemma PatchExactly(db: Db, id: Group, p: Plan)
    ensures PatchWrites(db, id, p).Done?
       <==> id in db.groups && Known(db, if p.replace.Some? then p.replace.value else p.add)
    ensures PatchWrites(db, id, p).Done? ==>
              var w, view := PatchWrites(db, id, p).write, AtOnce(ViewOf(db.groups[id]), p);
              && w.db == db.(groups := db.groups[id := GroupRow(view.name, db.groups[id].external, view.members)])
              && w.affected <= db.groups[id].members + Elements(p.add) + Elements(p.remove)
                               + (if p.replace.Some? then Elements(p.replace.value) else {})
  {
    if id in db.groups && p.replace == None {
      var row := db.groups[id];
      assert row.members + {} - {} == row.members;
      assert db.groups[id := row] == db.groups;
    }
  }

  // ---------------------------------------------------------------- user edits

  /** An enabled admin besides the user. */
  predicate OtherAdmin(db: Db, u: User) { exists a :: a in db.users && a != u && EnabledAdmin(db, a) }

  /** The edit of a known user is made exactly when it leaves the user an enabled admin or there is another one. */
  lemma UserEditExactly(db: Db, u: User, role: Option<string>, disabled: Option<bool>)
    ensures u !in db.users ==> UserUpdated(db, u, role, disabled) == db
    ensures u in db.users ==>
              var row := db.users[u];
              var next := UserRow(if role.Some? then role.value else row.role,
                                 if disabled.Some? then disabled.value else row.disabled, row.managed, row.grants);
              UserUpdated(db, u, role, disabled)
              == if (next.role == ADMIN && !next.disabled) || OtherAdmin(db, u) then db.(users := db.users[u := next])
                 else db
  {
    if u in db.users {
      var db' := Edited(db, u, role, disabled);
      AdminsLeft(db, db', u);
    }
  }

  /** A known user is deleted, with every membership, exactly when there is another enabled admin. */
  lemma UserDeleteExactly(db: Db, u: User)
    ensures u !in db.users || !OtherAdmin(db, u) ==> UserDeleted(db, u) == db
    ensures u in db.users && OtherAdmin(db, u) ==>
              var db' := UserDeleted(db, u);
              && db'.users == db.users - {u} && db'.customers == db.customers && db'.groups.Keys == db.groups.Keys
              && forall g :: g in db.groups ==>
                   db'.groups[g] == db.groups[g].(members := db.groups[g].members - {u})
  {
    AdminsLeft(db, Without(db, u), u);
  }

  lemma AdminsLeft(db: Db, db': Db, u: User)
    requires forall a :: a != u ==> (a in db.users <==> a in db'.users)
    requires forall a :: a != u && a in db.users ==> db'.users[a] == db.users[a]
    ensures EnabledAdmins(db') != {} <==> EnabledAdmin(db', u) || OtherAdmin(db, u)
  {
    if EnabledAdmins(db') != {} {
      var a :| a in EnabledAdmins(db');
      assert EnabledAdmin(db', a);
      if a != u {
        assert EnabledAdmin(db, a);
      }
    }
    if EnabledAdmin(db', u) {
      assert u in EnabledAdmins(db');
    }
    if OtherAdmin(db, u) {
      var a :| a in db.users && a != u && EnabledAdmin(db, a);
      assert a in EnabledAdmins(db');
    }
  }

  /** A login creates an unknown user and changes nothing of a known one but a promotion to admin. */
  lemma LoginExactly(db: Db, u: User, roleIfNew: string)
    ensures var db' := LoggedIn(db, u, roleIfNew);
            && db' == db.(users := db'.users) && db'.users.Keys == db.users.Keys + {u}
            && (forall v :: v in db.users && v != u ==> db'.users[v] == db.users[v])
            && (u in db.users ==>
                  db'.users[u] == db.users[u].(role := if roleIfNew == ADMIN then ADMIN else db.users[u].role))
            && (u !in db.users ==> db'.users[u] == UserRow(roleIfNew, false, false, {}))
  {
  }

  // ---------------------------------------------------------------- groups over runs

  /** No two groups share an external ID, and every member is a user. */
  predicate SoundGroups(db: Db) {
    && (forall g, h :: g in db.groups && h in db.groups && g != h && db.groups[g].external.Some? ==>
          db.groups[g].external != db.groups[h].external)
    && (forall g, u :: g in db.groups && u in db.groups[g].members ==> u in db.users)
  }

  lemma RequestKeepsGroups(db: Db, req: Request)
    requires SoundGroups(db) && Writes(db, req).Done?
    ensures SoundGroups(Writes(db, req).write.db)
  {
    RequestExactly(db, req);
    var after, db' := GroupAfter(db, req), Writes(db, req).write.db;
    hide Writes, GroupAfter;
    if after.Some? {
      GroupAfterSound(db, req);
      assert forall g :: g in db'.groups && g != req.id ==> g in db.groups && db'.groups[g] == db.groups[g];
    }
  }

  lemma GroupAfterSound(db: Db, req: Request)
    requires SoundGroups(db) && !Refused(db, req) && GroupAfter(db, req).Some?
    ensures var row := GroupAfter(db, req).value;
            && !Clashes(db, req.id, row.external) && forall u :: u in row.members ==> u in db.users
  {
    hide PlanOf;
    if req.Patch? {
      var p := PlanOf(req.ops);
      assert forall u :: u in Elements(if p.replace.Some? then p.replace.value else p.add) ==> u in db.users;
    }
  }

  lemma {:induction false} RecomputedAllKeeps(m: Mapping, db: Db, order: seq<User>)
    ensures var db' := RecomputedAll(m, db, order); db'.groups == db.groups && db'.users.Keys == db.users.Keys
  {
    if order == [] {
    } else {
      RecomputedAllKeeps(m, db, order[..|order| - 1]);
    }
  }

  lemma HandleKeepsGroups(m: Mapping, s: State, e: Event)
    requires SoundGroups(s.db)
    ensures SoundGroups(Handle(m, s, e).db)
  {
    HandleIsHandler(m, s, e);
    hide Handle;
    match Writes(s.db, e.req)
    case Done(w) =>
      RequestKeepsGroups(s.db, e.req);
      WritesKeepUsers(s.db, e.req);
      RecomputedAllKeeps(m, w.db, e.order);
    case Rejected =>
    case RenamedOnly(db) => RenamedOnlyIsRename(s.db, e.req.id, e.req.ops);
  }

  lemma NextKeepsGroups(m: Mapping, s: State, step: Step)
    requires SoundGroups(s.db)
    ensures SoundGroups(Next(m, s, step).db)
  {
    match step
    case Scim(e) =>
      hide Handle, SoundGroups;
      HandleKeepsGroups(m, s, e);
    case UpdateUser(u, role, disabled) => UserEditExactly(s.db, u, role, disabled);
    case DeleteUser(u) => UserDeleteExactly(s.db, u);
    case _ =>
  }

  /** Over every run of requests, user edits and logins, external IDs stay unique and groups hold only users. */
  lemma {:induction false} GroupsStaySound(m: Mapping, s: State, steps: seq<Step>)
    requires SoundGroups(s.db)
    ensures SoundGroups(After(m, s, steps).db)
    decreases |steps|
  {
    hide SoundGroups, Next;
    if steps == [] {
    } else {
      NextKeepsGroups(m, s, steps[0]);
      GroupsStaySound(m, Next(m, s, steps[0]), steps[1..]);
    }
  }
}
