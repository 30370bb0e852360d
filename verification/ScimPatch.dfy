/**
 A PATCH applies its operations at once: section 3.5.2 of RFC 7644 applies them one after the other.
 When the two give the same group.
 */
module ScimPatch {
  import opened Wrappers
  import opened Access

  /** What a PATCH can change of a group. */
  datatype View = View(name: string, members: set<User>)

  function ViewOf(row: GroupRow): View { View(row.name, row.members) }

  /** One operation on its own, as the handler understands it. */
  function ApplyOp(v: View, op: PatchOp): View {
    match op
    case SetName(n) => v.(name := n)
    case RemoveFilter(u) => v.(members := v.members - {u})
    case Members(Add, ids) => v.(members := v.members + Elements(ids))
    case Members(Remove, ids) => v.(members := v.members - Elements(ids))
    case Members(Replace, ids) => v.(members := Elements(ids))
    case Members(OtherVerb, _) => v
    case Pathless(n, ms) =>
      View(if n.Some? then n.value else v.name, if ms.Some? then Elements(ms.value) else v.members)
    case Ignored => v
  }

  function InSequence(v: View, ops: seq<PatchOp>): View {
    if ops == [] then v else ApplyOp(InSequence(v, ops[..|ops| - 1]), ops[|ops| - 1])
  }

  /** The folded plan on a group. */
  function AtOnce(v: View, p: Plan): View {
    View(if p.name.Some? then p.name.value else v.name,
         if p.replace.Some? then Elements(p.replace.value) else v.members + Elements(p.add) - Elements(p.remove))
  }

  /** A PATCH that succeeds leaves the group as the plan says. */
  lemma DoneIsAtOnce(db: Db, id: Group, ops: seq<PatchOp>)
    requires PatchWrites(db, id, PlanOf(ops)).Done?
    ensures id in db.groups && id in PatchWrites(db, id, PlanOf(ops)).write.db.groups
    ensures ViewOf(PatchWrites(db, id, PlanOf(ops)).write.db.groups[id]) == AtOnce(ViewOf(db.groups[id]), PlanOf(ops))
  {
    hide PlanOf;
  }

  // ---------------------------------------------------------------- what decides a member

  /** What one operation makes of a user's membership, if it says anything. */
  function Says(op: PatchOp, u: User): Option<bool> {
    match op
    case RemoveFilter(v) => if u == v then Some(false) else None
    case Members(Add, ids) => if u in ids then Some(true) else None
    case Members(Remove, ids) => if u in ids then Some(false) else None
    case Members(Replace, ids) => Some(u in ids)
    case Pathless(_, ms) => if ms.Some? then Some(u in ms.value) else None
    case _ => None
  }

  /** What the last operation that mentions the user says. */
  function LastSays(ops: seq<PatchOp>, u: User): Option<bool> {
    if ops == [] then None
    else if Says(ops[|ops| - 1], u).Some? then Says(ops[|ops| - 1], u)
    else LastSays(ops[..|ops| - 1], u)
  }

  function LastName(ops: seq<PatchOp>): Option<string> {
    if ops == [] then None
    else
      match ops[|ops| - 1]
      case SetName(n) => Some(n)
      case Pathless(n, _) => if n.Some? then n else LastName(ops[..|ops| - 1])
      case _ => LastName(ops[..|ops| - 1])
  }

  lemma {:induction false} SequenceDecides(v: View, ops: seq<PatchOp>, u: User)
    ensures u in InSequence(v, ops).members
            <==> LastSays(ops, u) == Some(true) || (LastSays(ops, u) == None && u in v.members)
    ensures InSequence(v, ops).name == if LastName(ops).Some? then LastName(ops).value else v.name
  {
    if ops == [] {
    } else {
      SequenceDecides(v, ops[..|ops| - 1], u);
    }
  }

  lemma {:induction false} PlanName(ops: seq<PatchOp>)
    ensures PlanOf(ops).name == LastName(ops)
  {
    if ops == [] {
    } else {
      PlanName(ops[..|ops| - 1]);
    }
  }

  /** Without a replacement, the plan's lists are what the operations said, in any order. */
  lemma {:induction false} PlanLists(ops: seq<PatchOp>, u: User)
    requires PlanOf(ops).replace == None
    ensures LastSays(ops, u) == None <==> u !in PlanOf(ops).add && u !in PlanOf(ops).remove
    ensures LastSays(ops, u) == Some(false) ==> u in PlanOf(ops).remove
    ensures LastSays(ops, u) == Some(true) ==> u in PlanOf(ops).add
  {
    if ops == [] {
    } else {
      PlanLists(ops[..|ops| - 1], u);
    }
  }

  /** With one, every user has been spoken of. */
  lemma {:induction false} ReplacementSpeaks(ops: seq<PatchOp>, u: User)
    requires PlanOf(ops).replace.Some?
    ensures LastSays(ops, u).Some?
  {
    if Says(ops[|ops| - 1], u) == None {
      ReplacementSpeaks(ops[..|ops| - 1], u);
    }
  }

  // ---------------------------------------------------------------- when order does not matter

  /** For this user, the order of the operations does not matter. */
  predicate SafeFor(ops: seq<PatchOp>, u: User) {
    var p := PlanOf(ops);
    if p.replace.Some? then LastSays(ops, u) == Some(u in p.replace.value)
    else LastSays(ops, u) == Some(true) ==> u !in p.remove
  }

  /**
   Nobody whose last mention is an add is also removed; or, with a replacement, nobody's last mention
   contradicts the last one.
   */
  ghost predicate OrderSafe(ops: seq<PatchOp>) { forall u :: SafeFor(ops, u) }

  /** Applying the operations at once gives, for every group, what applying them in sequence gives. */
  ghost predicate Sequential(ops: seq<PatchOp>) { forall v :: AtOnce(v, PlanOf(ops)) == InSequence(v, ops) }

  lemma ThreeCases(said: Option<bool>)
    ensures said == None || said == Some(true) || said == Some(false)
  {
    match said
    case None =>
    case Some(b) => if b { assert said == Some(true); } else { assert said == Some(false); }
  }

  /** The folded plan decides a user alike exactly when the order is safe for them. */
  lemma DecidesAlike(v: View, ops: seq<PatchOp>, u: User)
    ensures SafeFor(ops, u) ==> (u in AtOnce(v, PlanOf(ops)).members <==> u in InSequence(v, ops).members)
    ensures (u in AtOnce(v, PlanOf(ops)).members <==> u in InSequence(v, ops).members) && u !in v.members
            ==> SafeFor(ops, u)
  {
    hide PlanOf, LastSays, InSequence;
    SequenceDecides(v, ops, u);
    ThreeCases(LastSays(ops, u));
    if PlanOf(ops).replace == None {
      PlanLists(ops, u);
    } else {
      ReplacementSpeaks(ops, u);
    }
  }

  lemma SafeGivesSame(v: View, ops: seq<PatchOp>)
    requires OrderSafe(ops)
    ensures AtOnce(v, PlanOf(ops)) == InSequence(v, ops)
  {
    hide PlanOf, InSequence, LastName, SafeFor;
    PlanName(ops);
    SequenceDecides(v, ops, "");
    var a, b := AtOnce(v, PlanOf(ops)), InSequence(v, ops);
    forall u ensures u in a.members <==> u in b.members {
      DecidesAlike(v, ops, u);
    }
    assert a.members == b.members;
  }

  /** The two agree exactly on order-safe requests. */
  lemma SequentialIffSafe(ops: seq<PatchOp>)
    ensures Sequential(ops) <==> OrderSafe(ops)
  {
    hide PlanOf, InSequence, SafeFor, AtOnce;
    if OrderSafe(ops) {
      forall v ensures AtOnce(v, PlanOf(ops)) == InSequence(v, ops) {
        SafeGivesSame(v, ops);
      }
    }
    if Sequential(ops) {
      var v := View("", {});
      assert AtOnce(v, PlanOf(ops)) == InSequence(v, ops);
      forall u ensures SafeFor(ops, u) {
        DecidesAlike(v, ops, u);
      }
    }
  }

  /** Removing a member and adding them back leaves them out of every group. */
  lemma ReaddIsLost(v: View, u: User)
    ensures var ops := [Members(Remove, [u]), Members(Add, [u])];
            u in InSequence(v, ops).members && u !in AtOnce(v, PlanOf(ops)).members
  {
    var one := [Members(Remove, [u])];
    var ops := [Members(Remove, [u]), Members(Add, [u])];
    assert ops[..1] == one && one[..0] == [];
    assert PlanOf(one) == Plan(None, None, [], [] + [u]);
    assert PlanOf(ops) == Plan(None, None, [] + [u], [] + [u]);
    assert LastSays(ops, u) == Some(true);
    SequenceDecides(v, ops, u);
  }
}
