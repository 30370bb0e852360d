/**
 Roles and tenant grants derived from SCIM group membership, the last-admin rule
 and the Guard's tenant scope.  Every store transaction is one atomic step.
 */
module Access {
  import opened Wrappers

  const ADMIN: string := "admin"
  const OPERATOR: string := "operator"
  const VIEWER: string := "viewer"

  type User = string
  type Group = string
  type Customer = string

  datatype UserRow = UserRow(role: string, disabled: bool, managed: bool, grants: set<Customer>)
  datatype GroupRow = GroupRow(name: string, external: Option<string>, members: set<User>)
  datatype Mapping = Mapping(rolePrefix: string, customerPrefix: string, defaultRole: string)

  /** `customers` maps the slugs of customers that are not deleted. */
  datatype Db = Db(users: map<User, UserRow>, groups: map<Group, GroupRow>, customers: map<string, Customer>)

  // ---------------------------------------------------------------- authz

  function Rank(role: string): nat {
    if role == ADMIN then 3 else if role == OPERATOR then 2 else if role == VIEWER then 1 else 0
  }

  predicate AtLeast(role: string, min: string) { Rank(role) != 0 && Rank(min) != 0 && Rank(role) >= Rank(min) }

  // ---------------------------------------------------------------- derivation from group names

  predicate HasPrefix(s: string, prefix: string) { |prefix| <= |s| && s[..|prefix|] == prefix }

  predicate NamesRole(m: Mapping, dn: string) { m.rolePrefix != "" && HasPrefix(dn, m.rolePrefix) }

  predicate NamesCustomer(m: Mapping, dn: string) {
    !NamesRole(m, dn) && m.customerPrefix != "" && HasPrefix(dn, m.customerPrefix)
  }

  function Names(db: Db, u: User): set<string> { NamesAmong(db.groups, db.groups.Keys, u) }

  function NamesAmong(groups: map<Group, GroupRow>, some: set<Group>, u: User): set<string>
    requires some <= groups.Keys
  {
    set g | g in some && u in groups[g].members :: groups[g].name
  }

  predicate Mapped(m: Mapping, names: set<string>) {
    exists dn :: dn in names && (NamesRole(m, dn) || NamesCustomer(m, dn))
  }

  /** The strongest role a group names, else the default. */
  function DerivedRole(m: Mapping, names: set<string>): string {
    if m.rolePrefix == "" then m.defaultRole
    else if m.rolePrefix + ADMIN in names then ADMIN
    else if m.rolePrefix + OPERATOR in names then OPERATOR
    else if m.rolePrefix + VIEWER in names then VIEWER
    else m.defaultRole
  }

  /** The customers some group names; unknown slugs name nobody. */
  function DerivedGrants(m: Mapping, customers: map<string, Customer>, names: set<string>): set<Customer> {
    set dn | dn in names && NamesCustomer(m, dn) && dn[|m.customerPrefix|..] in customers
      :: customers[dn[|m.customerPrefix|..]]
  }

  function EnabledAdmins(db: Db): set<User> {
    set u | u in db.users && db.users[u].role == ADMIN && !db.users[u].disabled
  }

  /** The last-admin rule: SCIM would demote an admin while at most one enabled admin exists. */
  predicate Retains(m: Mapping, db: Db, u: User)
    requires u in db.users
  {
    db.users[u].role == ADMIN && DerivedRole(m, Names(db, u)) != ADMIN && |EnabledAdmins(db)| <= 1
  }

  function Recomputed(m: Mapping, db: Db, u: User): Db {
    if u !in db.users then db
    else
      var names, row := Names(db, u), db.users[u];
      if !row.managed && !Mapped(m, names) then db
      else
        db.(users := db.users[u := UserRow(if Retains(m, db, u) then ADMIN else DerivedRole(m, names),
                                           row.disabled, true, DerivedGrants(m, db.customers, names))])
  }

  // ---------------------------------------------------------------- group writes

  predicate ExternalTaken(db: Db, id: Group, external: Option<string>) {
    external.Some? && exists g :: g in db.groups && g != id && db.groups[g].external == external
  }

  predicate Known(db: Db, us: seq<User>) { forall u :: u in us ==> u in db.users }

  function Elements(us: seq<User>): set<User> { set u | u in us }

  /** A committed write and the users whose access has to be recomputed. */
  datatype Write = Write(db: Db, affected: set<User>)

  function Created(db: Db, id: Group, name: string, external: Option<string>, members: seq<User>): Option<Write> {
    if ExternalTaken(db, id, external) || !Known(db, members) then None
    else Some(Write(db.(groups := db.groups[id := GroupRow(name, external, Elements(members))]), Elements(members)))
  }

  function Updated(db: Db, id: Group, name: Option<string>, external: Option<string>,
                   members: Option<seq<User>>): Option<Write> {
    if id !in db.groups || ExternalTaken(db, id, external) || (members.Some? && !Known(db, members.value)) then None
    else
      var row := db.groups[id];
      Some(Write(
        db.(groups := db.groups[id := GroupRow(
          if name.Some? then name.value else row.name,
          if external.Some? then external else row.external,
          if members.Some? then Elements(members.value) else row.members)]),
        if members.Some? then row.members + Elements(members.value)
        else if name.Some? && name.value != row.name then row.members
        else {}))
  }

  function Modified(db: Db, id: Group, add: seq<User>, remove: seq<User>): Option<Write> {
    if id !in db.groups || !Known(db, add) then None
    else
      var row := db.groups[id];
      Some(Write(db.(groups := db.groups[id := row.(members := row.members + Elements(add) - Elements(remove))]),
                 Elements(add) + Elements(remove)))
  }

  function Deleted(db: Db, id: Group): Option<Write> {
    if id !in db.groups then None
    else Some(Write(db.(groups := db.groups - {id}), db.groups[id].members))
  }

  // ---------------------------------------------------------------- PATCH operations

  datatype Verb = Add | Remove | Replace | OtherVerb

  /** A decoded SCIM PATCH operation. */
  datatype PatchOp =
    | SetName(name: string)
    | RemoveFilter(user: User)
    | Members(verb: Verb, ids: seq<User>)
    | Pathless(newName: Option<string>, members: Option<seq<User>>)
    | Ignored

  datatype Plan = Plan(name: Option<string>, replace: Option<seq<User>>, add: seq<User>, remove: seq<User>)

  function Fold(p: Plan, op: PatchOp): Plan {
    match op
    case SetName(n) => p.(name := Some(n))
    case RemoveFilter(u) => p.(remove := p.remove + [u])
    case Members(Add, ids) => p.(add := p.add + ids)
    case Members(Remove, ids) => p.(remove := p.remove + ids)
    case Members(Replace, ids) => p.(replace := Some(ids))
    case Members(OtherVerb, _) => p
    case Pathless(n, ms) => p.(name := if n.Some? then n else p.name, replace := if ms.Some? then ms else p.replace)
    case Ignored => p
  }

  function PlanOf(ops: seq<PatchOp>): Plan {
    if ops == [] then Plan(None, None, [], []) else Fold(PlanOf(ops[..|ops| - 1]), ops[|ops| - 1])
  }

  /** Outcome of a PATCH: fully written, failed without effect, or failed after its rename committed. */
  datatype Patched = Done(write: Write) | Rejected | RenamedOnly(db: Db)

  function PatchWrites(db: Db, id: Group, p: Plan): Patched {
    if p.replace.Some? then
      var w := Updated(db, id, p.name, None, p.replace);
      if w.None? then Rejected else Done(w.value)
    else
      var w := if p.name.Some? then Updated(db, id, p.name, None, None) else Some(Write(db, {}));
      if w.None? then Rejected
      else if p.add == [] && p.remove == [] then
        if id in db.groups then Done(w.value) else Rejected
      else
        var v := Modified(w.value.db, id, p.add, p.remove);
        if v.None? then if p.name.Some? then RenamedOnly(w.value.db) else Rejected
        else Done(Write(v.value.db, w.value.affected + v.value.affected))
  }

  // ---------------------------------------------------------------- the store and the SCIM handlers

  class Server {
    var users: map<User, UserRow>
    var groups: map<Group, GroupRow>
    const customers: map<string, Customer>
    const mapping: Mapping

    ghost function Value(): Db
      reads this
    {
      Db(users, groups, customers)
    }

    constructor (mapping: Mapping, customers: map<string, Customer>)
      ensures Value() == Db(map[], map[], customers) && this.mapping == mapping
    {
      this.mapping, this.customers, users, groups := mapping, customers, map[], map[];
    }

    /** The group names of a user, in any row order and possibly repeated. */
    method QueryNames(u: User) returns (names: seq<string>)
      ensures (set dn | dn in names) == Names(Value(), u)
    {
      names := [];
      var todo := groups.Keys;
      while todo != {}
        invariant todo <= groups.Keys
        invariant (set dn | dn in names) == NamesAmong(groups, groups.Keys - todo, u)
        decreases todo
      {
        var g :| g in todo;
        ghost var done := groups.Keys - todo;
        todo := todo - {g};
        assert groups.Keys - todo == done + {g};
        assert NamesAmong(groups, done + {g}, u)
            == NamesAmong(groups, done, u) + (if u in groups[g].members then {groups[g].name} else {});
        if u in groups[g].members {
          assert (set dn | dn in names + [groups[g].name]) == (set dn | dn in names) + {groups[g].name};
          names := names + [groups[g].name];
        }
      }
    }

    /** The loop over group names: strongest role, whether any name is mapped, and the named slugs. */
    method ReadNames(names: seq<string>) returns (bestRole: string, hasMapped: bool, slugs: seq<string>)
      ensures hasMapped <==> Mapped(mapping, set dn | dn in names)
      ensures (if bestRole == "" then mapping.defaultRole else bestRole) == DerivedRole(mapping, set dn | dn in names)
      ensures (set s | s in slugs && s in customers :: customers[s])
              == DerivedGrants(mapping, customers, set dn | dn in names)
    {
      bestRole, hasMapped, slugs := "", false, [];
      var m := mapping;
      for i := 0 to |names|
        invariant hasMapped <==> exists j :: 0 <= j < i && (NamesRole(m, names[j]) || NamesCustomer(m, names[j]))
        invariant bestRole == "" || (NamesRoleAs(m, names[..i], bestRole) && Rank(bestRole) > 0)
        invariant forall role :: Rank(role) > Rank(bestRole) ==> !NamesRoleAs(m, names[..i], role)
        invariant forall s :: s in slugs <==>
                    exists j :: 0 <= j < i && NamesCustomer(m, names[j]) && names[j][|m.customerPrefix|..] == s
      {
        var dn := names[i];
        ghost var was := bestRole;
        if m.rolePrefix != "" && HasPrefix(dn, m.rolePrefix) {
          hasMapped := true;
          var role := dn[|m.rolePrefix|..];
          if Rank(role) != 0 && Rank(role) > Rank(bestRole) {
            bestRole := role;
          }
          RoleStep(m, names, i, was, bestRole);
          continue;
        }
        RoleStep(m, names, i, was, bestRole);
        if m.customerPrefix != "" && HasPrefix(dn, m.customerPrefix) {
          hasMapped := true;
          slugs := slugs + [dn[|m.customerPrefix|..]];
        }
      }
      assert names[..|names|] == names;
      BestIsDerived(m, names, bestRole);
    }

    method ResolveSlugs(slugs: seq<string>) returns (grants: set<Customer>)
      ensures grants == set s | s in slugs && s in customers :: customers[s]
    {
      grants := {};
      for i := 0 to |slugs|
        invariant grants == set j | 0 <= j < i && slugs[j] in customers :: customers[slugs[j]]
      {
        if slugs[i] in customers {
          grants := grants + {customers[slugs[i]]};
        }
      }
    }

    method RecomputeAccess(u: User) returns (found: bool)
      modifies this`users
      ensures Value() == Recomputed(mapping, old(Value()), u)
      ensures found <==> u in old(users)
    {
      if u !in users {
        return false;
      }
      var row := users[u];
      var names := QueryNames(u);
      var bestRole, hasMapped, slugs := ReadNames(names);
      if !row.managed && !hasMapped {
        return true;
      }
      var newRole := bestRole;
      if newRole == "" {
        newRole := mapping.defaultRole;
      }
      if row.role == ADMIN && newRole != ADMIN {
        var admins := |set x | x in users && users[x].role == ADMIN && !users[x].disabled|;
        if admins <= 1 {
          newRole := ADMIN;
        }
      }
      var grants := ResolveSlugs(slugs);
      users := users[u := UserRow(newRole, row.disabled, true, grants)];
      return true;
    }

    /**
     The handler's recompute loop, in an order the map iteration decides; `failing` are the users whose
     transaction fails, which is logged and passed over.
     */
    method Recompute(affected: set<User>, failing: set<User>) returns (ghost order: seq<User>)
      modifies this`users
      ensures Elements(order) == affected - failing
      ensures Value() == RecomputedAll(mapping, old(Value()), order)
    {
      order := [];
      var todo := affected;
      while todo != {}
        invariant todo <= affected && Elements(order) == affected - todo - failing
        invariant Value() == RecomputedAll(mapping, old(Value()), order)
        decreases todo
      {
        var u :| u in todo;
        assert affected - (todo - {u}) == affected - todo + {u};
        todo := todo - {u};
        if u in failing {
          continue;
        }
        var _ := RecomputeAccess(u);
        assert (order + [u])[..|order|] == order;
        assert Elements(order + [u]) == Elements(order) + {u};
        order := order + [u];
      }
    }

    /** insertGroupMembers: the members in the order given, or failure at the first unknown user. */
    method InsertMembers(start: set<User>, us: seq<User>) returns (r: Option<set<User>>)
      ensures r == if Known(Value(), us) then Some(start + Elements(us)) else None
    {
      var out := start;
      for i := 0 to |us|
        invariant forall j :: 0 <= j < i ==> us[j] in users
        invariant out == start + Elements(us[..i])
      {
        if us[i] !in users {
          return None;
        }
        assert us[..i + 1] == us[..i] + [us[i]];
        out := out + {us[i]};
      }
      assert us[..|us|] == us;
      return Some(out);
    }

    method UpdateGroup(id: Group, name: Option<string>, external: Option<string>, members: Option<seq<User>>)
      returns (r: Option<set<User>>)
      modifies this`groups
      ensures var w := Updated(old(Value()), id, name, external, members);
              if w.None? then r == None && Value() == old(Value())
              else r == Some(w.value.affected) && Value() == w.value.db
    {
      if id !in groups {
        return None;
      }
      var before := groups[id];
      if external.Some? && exists g :: g in groups && g != id && groups[g].external == external {
        return None;
      }
      var row := before.(name := if name.Some? then name.value else before.name,
                         external := if external.Some? then external else before.external);
      var affected := {};
      if members.Some? {
        var inserted := InsertMembers({}, members.value);
        if inserted.None? {
          return None;
        }
        row := row.(members := inserted.value);
        assert inserted.value == Elements(members.value);
        affected := before.members + (set u | u in members.value);
      } else if name.Some? && name.value != before.name {
        affected := before.members;
      }
      groups := groups[id := row];
      return Some(affected);
    }

    method ModifyMembers(id: Group, add: seq<User>, remove: seq<User>) returns (r: Option<set<User>>)
      modifies this`groups
      ensures var w := Modified(old(Value()), id, add, remove);
              if w.None? then r == None && Value() == old(Value())
              else r == Some(w.value.affected) && Value() == w.value.db
    {
      if id !in groups {
        return None;
      }
      var inserted := InsertMembers(groups[id].members, add);
      if inserted.None? {
        return None;
      }
      var members := inserted.value;
      for i := 0 to |remove|
        invariant members == inserted.value - Elements(remove[..i])
      {
        assert remove[..i + 1] == remove[..i] + [remove[i]];
        members := members - {remove[i]};
      }
      assert remove[..|remove|] == remove;
      groups := groups[id := groups[id].(members := members)];
      return Some((set u | u in add) + (set u | u in remove));
    }

    method FoldOperations(ops: seq<PatchOp>) returns (p: Plan)
      ensures p == PlanOf(ops)
    {
      p := Plan(None, None, [], []);
      for i := 0 to |ops|
        invariant p == PlanOf(ops[..i])
      {
        assert ops[..i + 1][..i] == ops[..i];
        match ops[i] {
          case SetName(n) => p := p.(name := Some(n));
          case RemoveFilter(u) => p := p.(remove := p.remove + [u]);
          case Members(verb, ids) =>
            match verb {
              case Add => p := p.(add := p.add + ids);
              case Remove => p := p.(remove := p.remove + ids);
              case Replace => p := p.(replace := Some(ids));
              case OtherVerb =>
            }
          case Pathless(n, ms) =>
            if n.Some? {
              p := p.(name := n);
            }
            if ms.Some? {
              p := p.(replace := ms);
            }
          case Ignored =>
        }
      }
      assert ops[..|ops|] == ops;
    }

    method CreateGroup(id: Group, name: string, external: Option<string>, members: seq<User>, failing: set<User>)
      returns (ok: bool, ghost order: seq<User>)
      requires id !in groups
      modifies this
      ensures ok == (Writes(old(Value()), Create(id, name, external, members)).Done?)
      ensures ok ==>
                Elements(order) == Writes(old(Value()), Create(id, name, external, members)).write.affected - failing
      ensures Value() == HandledDb(mapping, old(Value()), Create(id, name, external, members), order)
    {
      ok, order := false, [];
      if Blank(name) {
        return;
      }
      if external.Some? && exists g :: g in groups && g != id && groups[g].external == external {
        return;
      }
      var inserted := InsertMembers({}, members);
      if inserted.None? {
        return;
      }
      assert inserted.value == Elements(members);
      groups := groups[id := GroupRow(name, external, inserted.value)];
      order := Recompute(inserted.value, failing);
      ok := true;
    }

    method PutGroup(id: Group, name: string, external: Option<string>, members: seq<User>, failing: set<User>)
      returns (ok: bool, ghost order: seq<User>)
      modifies this
      ensures ok == (Writes(old(Value()), Put(id, name, external, members)).Done?)
      ensures ok ==> Elements(order) == Writes(old(Value()), Put(id, name, external, members)).write.affected - failing
      ensures Value() == HandledDb(mapping, old(Value()), Put(id, name, external, members), order)
    {
      var affected := UpdateGroup(id, Some(name), external, Some(members));
      if affected.None? {
        return false, [];
      }
      order := Recompute(affected.value, failing);
      ok := true;
    }

    method PatchGroup(id: Group, ops: seq<PatchOp>, failing: set<User>) returns (ok: bool, ghost order: seq<User>)
      modifies this
      ensures ok == (Writes(old(Value()), Patch(id, ops)).Done?)
      ensures ok ==> Elements(order) == Writes(old(Value()), Patch(id, ops)).write.affected - failing
      ensures Value() == HandledDb(mapping, old(Value()), Patch(id, ops), order)
    {
      ok, order := false, [];
      var p := FoldOperations(ops);
      var affected := {};
      if p.replace.Some? {
        var aff := UpdateGroup(id, p.name, None, p.replace);
        if aff.None? {
          return;
        }
        affected := aff.value;
      } else {
        if p.name.Some? {
          var aff := UpdateGroup(id, p.name, None, None);
          if aff.None? {
            return;
          }
          affected := aff.value;
        }
        if |p.add| > 0 || |p.remove| > 0 {
          var aff := ModifyMembers(id, p.add, p.remove);
          if aff.None? {
            return; // a committed rename stays without a recompute
          }
          affected := affected + aff.value;
        }
      }
      if id !in groups {
        return;
      }
      order := Recompute(affected, failing);
      ok := true;
    }

    method DeleteGroup(id: Group, failing: set<User>) returns (ok: bool, ghost order: seq<User>)
      modifies this
      ensures ok == (Writes(old(Value()), Delete(id)).Done?)
      ensures ok ==> Elements(order) == Writes(old(Value()), Delete(id)).write.affected - failing
      ensures Value() == HandledDb(mapping, old(Value()), Delete(id), order)
    {
      if id !in groups {
        return false, [];
      }
      var former := groups[id].members;
      groups := groups - {id};
      order := Recompute(former, failing);
      ok := true;
    }

    /** UpdateUserAdmin: role and disabled changes, rolled back when no enabled admin would remain. */
    method UpdateUser(u: User, role: Option<string>, disabled: Option<bool>) returns (ok: bool)
      modifies this`users
      ensures Value() == UserUpdated(old(Value()), u, role, disabled)
      ensures ok <==> u in old(users) && EnabledAdmins(Edited(old(Value()), u, role, disabled)) != {}
    {
      if u !in users {
        return false;
      }
      var row := users[u];
      if role.Some? {
        row := row.(role := role.value);
      }
      if disabled.Some? {
        row := row.(disabled := disabled.value);
      }
      var pending := users[u := row];
      if |set x | x in pending && pending[x].role == ADMIN && !pending[x].disabled| == 0 {
        return false;
      }
      users := pending;
      return true;
    }

    /** DeleteUser: the row and its memberships, unless it is the last enabled admin. */
    method DeleteUser(u: User) returns (ok: bool)
      modifies this
      ensures Value() == UserDeleted(old(Value()), u)
      ensures ok <==> u in old(users) && EnabledAdmins(Without(old(Value()), u)) != {}
    {
      if u !in users {
        return false;
      }
      var pending := users - {u};
      if |set x | x in pending && pending[x].role == ADMIN && !pending[x].disabled| == 0 {
        return false;
      }
      users := pending;
      groups := map g | g in groups :: groups[g].(members := groups[g].members - {u});
      return true;
    }
  }

  // ---------------------------------------------------------------- requests

  datatype Request =
    | Create(id: Group, name: string, external: Option<string>, members: seq<User>)
    | Put(id: Group, name: string, external: Option<string>, members: seq<User>)
    | Patch(id: Group, ops: seq<PatchOp>)
    | Delete(id: Group)

  /** Unicode white space, as strings.TrimSpace removes it. */
  predicate Space(c: char) {
    || '\t' <= c <= '\r' || c == ' ' || c == '\U{85}' || c == '\U{A0}' || c == '\U{1680}'
       || '\U{2000}' <= c <= '\U{200A}'
    || c == '\U{2028}' || c == '\U{2029}' || c == '\U{202F}' || c == '\U{205F}' || c == '\U{3000}'
  }

  predicate Blank(s: string) { forall c :: c in s ==> Space(c) }

  function AsPatched(w: Option<Write>): Patched { if w.None? then Rejected else Done(w.value) }

  function Writes(db: Db, req: Request): Patched {
    match req
    case Create(id, name, external, members) =>
      if Blank(name) then Rejected else AsPatched(Created(db, id, name, external, members))
    case Put(id, name, external, members) => AsPatched(Updated(db, id, Some(name), external, Some(members)))
    case Patch(id, ops) => PatchWrites(db, id, PlanOf(ops))
    case Delete(id) => AsPatched(Deleted(db, id))
  }

  function RecomputedAll(m: Mapping, db: Db, order: seq<User>): Db {
    if order == [] then db else Recomputed(m, RecomputedAll(m, db, order[..|order| - 1]), order[|order| - 1])
  }

  function HandledDb(m: Mapping, db: Db, req: Request, order: seq<User>): Db {
    match Writes(db, req)
    case Done(w) => RecomputedAll(m, w.db, order)
    case Rejected => db
    case RenamedOnly(db') => db'
  }

  /** The change a user update makes before the admin count is checked. */
  function Edited(db: Db, u: User, role: Option<string>, disabled: Option<bool>): Db
    requires u in db.users
  {
    var row := db.users[u];
    db.(users := db.users[u := row.(role := if role.Some? then role.value else row.role,
                                    disabled := if disabled.Some? then disabled.value else row.disabled)])
  }

  function UserUpdated(db: Db, u: User, role: Option<string>, disabled: Option<bool>): Db {
    if u !in db.users || EnabledAdmins(Edited(db, u, role, disabled)) == {} then db else Edited(db, u, role, disabled)
  }

  /** The database without the user and its memberships. */
  function Without(db: Db, u: User): Db {
    db.(users := db.users - {u},
        groups := map g | g in db.groups :: db.groups[g].(members := db.groups[g].members - {u}))
  }

  function UserDeleted(db: Db, u: User): Db {
    if u !in db.users || EnabledAdmins(Without(db, u)) == {} then db else Without(db, u)
  }

  /** Some name in the list is the role prefix followed by exactly this role. */
  predicate NamesRoleAs(m: Mapping, names: seq<string>, role: string) {
    m.rolePrefix != "" && m.rolePrefix + role in names
  }

  lemma RoleStep(m: Mapping, names: seq<string>, i: nat, was: string, best: string)
    requires i < |names|
    requires was == "" || (NamesRoleAs(m, names[..i], was) && Rank(was) > 0)
    requires forall role :: Rank(role) > Rank(was) ==> !NamesRoleAs(m, names[..i], role)
    requires best == (if NamesRole(m, names[i]) && Rank(names[i][|m.rolePrefix|..]) > Rank(was)
                      then names[i][|m.rolePrefix|..] else was)
    ensures best == "" || (NamesRoleAs(m, names[..i + 1], best) && Rank(best) > 0)
    ensures forall role :: Rank(role) > Rank(best) ==> !NamesRoleAs(m, names[..i + 1], role)
  {
    assert names[..i + 1] == names[..i] + [names[i]];
    forall role ensures m.rolePrefix + role == names[i] ==>
                          HasPrefix(names[i], m.rolePrefix) && names[i][|m.rolePrefix|..] == role {
      var dn := m.rolePrefix + role;
      assert dn[..|m.rolePrefix|] == m.rolePrefix && dn[|m.rolePrefix|..] == role;
    }
    if NamesRole(m, names[i]) {
      assert m.rolePrefix + names[i][|m.rolePrefix|..] == names[i];
    }
  }

  lemma BestIsDerived(m: Mapping, names: seq<string>, best: string)
    requires best == "" || (NamesRoleAs(m, names, best) && Rank(best) > 0)
    requires forall role :: Rank(role) > Rank(best) ==> !NamesRoleAs(m, names, role)
    ensures (if best == "" then m.defaultRole else best) == DerivedRole(m, set dn | dn in names)
  {
    assert !NamesRoleAs(m, names, ADMIN) || Rank(best) >= 3;
    assert !NamesRoleAs(m, names, OPERATOR) || Rank(best) >= 2;
    assert !NamesRoleAs(m, names, VIEWER) || Rank(best) >= 1;
  }
}
