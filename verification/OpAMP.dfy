/**
 The OpAMP server: live connections, agent rows, and the handling of one message,
 close or push at a time.  A config is represented by its hash; "" is no hash.
 */
module OpAMP {
  import opened Wrappers

  type Uid = string
  type Conn = nat
  type AgentId = string
  type Customer = string
  type Hash = string

  datatype Status = Unset | Applying | Applied | Failed

  /** The agents row of one instance UID. */
  datatype Row = Row(id: AgentId, customer: Option<Customer>, caps: Option<nat>, assignedHash: Hash, acked: Hash,
                     status: Status, healthy: Option<bool>, connected: bool)

  /** The in-memory state of one connected agent. */
  datatype AgentConn = AgentConn(conn: Conn, uid: Uid, agentID: AgentId, customer: Customer, caps: nat,
                                 acked: Hash, status: Status, healthy: Option<bool>)

  datatype EventKind = Enrolled | Connected | Disconnected | ConfigApplied | ConfigFailed | Healthy | Unhealthy
  datatype Event = Event(uid: Uid, kind: EventKind)

  datatype HookKind = AgentOffline | AgentUnhealthy | AgentConfigFailed
  datatype Hook = Hook(agent: AgentId, kind: HookKind)

  datatype Server = Server(
    rows: map<Uid, Row>,
    byUID: map<Uid, AgentConn>,
    byConn: map<Conn, Uid>,
    events: seq<Event>,
    hooks: seq<Hook>,
    desired: map<Customer, Hash>) // what RenderEdgeCurrent yields; absent when rendering fails

  /** `agentID` is set when the connection used a per-agent token. */
  datatype Auth = Auth(customer: Customer, agentID: Option<AgentId>)

  datatype Report = Report(status: Status, hash: Hash)

  datatype Message = Message(uid: Uid, caps: nat, described: bool, report: Option<Report>, health: Option<bool>)

  /** Which store or render calls of one step fail, and the id minted if the agent enrolls. */
  datatype Env = Env(lookup: bool, enroll: bool, describe: bool, connect: bool, ack: bool, status: bool,
                     health: bool, assign: bool, render: bool, newID: AgentId)

  datatype Reply = BadRequest | AskFullState | Served(offer: Option<Hash>)

  /** AgentCapabilities_AcceptsRemoteConfig is bit 1. */
  predicate Accepts(caps: nat) { caps / 2 % 2 == 1 }

  // ---------------------------------------------------------------- registry

  function Put(s: Server, st: AgentConn): Server {
    var byConn := if st.uid in s.byUID && s.byUID[st.uid].conn != st.conn
                  then s.byConn - {s.byUID[st.uid].conn} else s.byConn;
    s.(byUID := s.byUID[st.uid := st], byConn := byConn[st.conn := st.uid])
  }

  function Update(s: Server, st: AgentConn): Server {
    if st.uid in s.byUID then s.(byUID := s.byUID[st.uid := st]) else s
  }

  // ---------------------------------------------------------------- row writes

  predicate HasRow(s: Server, st: AgentConn) { st.uid in s.rows && s.rows[st.uid].id == st.agentID }

  function SetRow(s: Server, uid: Uid, row: Row): Server { s.(rows := s.rows[uid := row]) }

  function Log(s: Server, uid: Uid, kind: EventKind): Server { s.(events := s.events + [Event(uid, kind)]) }

  function Emit(s: Server, st: AgentConn, kind: HookKind): Server { s.(hooks := s.hooks + [Hook(st.agentID, kind)]) }

  function SetConnected(s: Server, st: AgentConn, connected: bool, fails: bool): Server {
    if fails || !HasRow(s, st) then s
    else
      Log(SetRow(s, st.uid, s.rows[st.uid].(connected := connected)), st.uid,
          if connected then Connected else Disconnected)
  }

  function SetAcked(s: Server, st: AgentConn, hash: Hash, fails: bool): Server {
    if fails || !HasRow(s, st) then s else SetRow(s, st.uid, s.rows[st.uid].(acked := hash))
  }

  function SetAssigned(s: Server, st: AgentConn, hash: Hash, fails: bool): Server {
    if fails || !HasRow(s, st) then s else SetRow(s, st.uid, s.rows[st.uid].(assignedHash := hash))
  }

  // ---------------------------------------------------------------- message parts

  predicate NewHash(st: AgentConn, r: Report) { r.hash != "" && r.hash != st.acked }

  /** The acknowledged hash in memory after a report. */
  function AckedAfter(acked: Hash, r: Report): Hash {
    if r.hash != "" then r.hash else if r.status == Unset then "" else acked
  }

  function TakeAck(s: Server, st: AgentConn, r: Report, env: Env): (Server, AgentConn) {
    if r.hash == "" && r.status != Unset then (s, st)
    else
      var st' := st.(acked := AckedAfter(st.acked, r));
      var s' := Update(s, st');
      (if NewHash(st, r) || r.hash == "" then SetAcked(s', st, st'.acked, env.ack) else s', st')
  }

  function EventOf(status: Status): Option<EventKind> {
    if status == Applied then Some(ConfigApplied) else if status == Failed then Some(ConfigFailed) else None
  }

  predicate StatusChanges(st: AgentConn, r: Report, newHash: bool) {
    r.status != st.status || (newHash && (r.status == Applied || r.status == Failed))
  }

  function TakeStatus(s: Server, st: AgentConn, r: Report, newHash: bool, env: Env): (Server, AgentConn) {
    if !StatusChanges(st, r, newHash) || env.status || !HasRow(s, st) then (s, st)
    else
      var s1 := SetRow(s, st.uid, s.rows[st.uid].(status := r.status));
      var s2 := if EventOf(r.status).Some? then Log(s1, st.uid, EventOf(r.status).value) else s1;
      var s3 := if r.status == Failed then Emit(s2, st, AgentConfigFailed) else s2;
      var st' := st.(status := r.status);
      (Update(s3, st'), st')
  }

  function TakeReport(s: Server, st: AgentConn, r: Report, env: Env): (Server, AgentConn) {
    var (s1, st1) := TakeAck(s, st, r, env);
    TakeStatus(s1, st1, r, NewHash(st, r), env)
  }

  function TakeHealth(s: Server, st: AgentConn, healthy: bool, env: Env): (Server, AgentConn) {
    if env.health || !HasRow(s, st) then (s, st)
    else
      var flip := st.healthy != Some(healthy);
      var s1 := SetRow(s, st.uid, s.rows[st.uid].(healthy := Some(healthy)));
      var s2 := if flip then Log(s1, st.uid, if healthy then Healthy else Unhealthy) else s1;
      var s3 := if flip && !healthy then Emit(s2, st, AgentUnhealthy) else s2;
      var st' := st.(healthy := Some(healthy));
      (Update(s3, st'), st')
  }

  function Offer(s: Server, st: AgentConn, env: Env): (Server, Option<Hash>) {
    if !Accepts(st.caps) || env.render || st.customer !in s.desired then (s, None)
    else
      var hash := s.desired[st.customer];
      (SetAssigned(s, st, hash, env.assign), if hash == st.acked then None else Some(hash))
  }

  // ---------------------------------------------------------------- resolving the agent

  datatype Resolution = Found(st: AgentConn) | Reject | AskFull

  function Seeded(conn: Conn, auth: Auth, uid: Uid, row: Row): AgentConn {
    AgentConn(conn, uid, row.id, auth.customer, if row.caps.Some? then row.caps.value else 0,
              row.acked, row.status, row.healthy)
  }

  function Resolve(s: Server, conn: Conn, auth: Auth, msg: Message, env: Env): (Server, Resolution) {
    if env.lookup then (s, AskFull)
    else if msg.uid in s.rows then
      (s, if s.rows[msg.uid].customer == Some(auth.customer)
          then Found(Seeded(conn, auth, msg.uid, s.rows[msg.uid])) else Reject)
    else if !msg.described || env.enroll then (s, AskFull)
    else
      var row := Row(env.newID, Some(auth.customer), Some(msg.caps), "", "", Unset, None, false);
      (Log(SetRow(s, msg.uid, row), msg.uid, Enrolled),
       Found(AgentConn(conn, msg.uid, env.newID, auth.customer, msg.caps, "", Unset, None)))
  }

  /** The agent a message is for, or the reply that ends its handling. */
  function Identify(s: Server, conn: Conn, auth: Auth, msg: Message, env: Env): (Server, Resolution) {
    var (s1, r) := if msg.uid in s.byUID
                   then (s, if s.byUID[msg.uid].customer == auth.customer then Found(s.byUID[msg.uid]) else Reject)
                   else Resolve(s, conn, auth, msg, env);
    if r.Found? && auth.agentID.Some? && r.st.agentID != auth.agentID.value then (s1, Reject) else (s1, r)
  }

  predicate NewConn(s: Server, conn: Conn, uid: Uid) { uid !in s.byUID || s.byUID[uid].conn != conn }

  /** Bind the agent to the connection, refresh its description and register it. */
  function Register(s: Server, st: AgentConn, conn: Conn, msg: Message, known: bool, newConn: bool,
                    env: Env): (Server, AgentConn) {
    var st' := st.(conn := conn, caps := if msg.caps != 0 then msg.caps else st.caps);
    var s1 := if msg.described && known && !env.describe && HasRow(s, st') && msg.caps != 0
              then SetRow(s, st'.uid, s.rows[st'.uid].(caps := Some(msg.caps))) else s;
    var s2 := Put(s1, st');
    (if newConn then SetConnected(s2, st', true, env.connect) else s2, st')
  }

  function TakeParts(s: Server, st: AgentConn, msg: Message, env: Env): (Server, AgentConn) {
    var (s1, st1) := if msg.report.Some? then TakeReport(s, st, msg.report.value, env) else (s, st);
    if msg.health.Some? then TakeHealth(s1, st1, msg.health.value, env) else (s1, st1)
  }

  function Handle(s: Server, conn: Conn, auth: Auth, msg: Message, env: Env): (Server, Reply) {
    if msg.uid == "" then (s, BadRequest)
    else
      var (s1, r) := Identify(s, conn, auth, msg, env);
      match r
      case Reject => (s1, BadRequest)
      case AskFull => (s1, AskFullState)
      case Found(st0) =>
        var newConn := NewConn(s, conn, msg.uid);
        var (s2, st2) := Register(s1, st0, conn, msg, msg.uid in s.byUID, newConn, env);
        var (s3, st3) := TakeParts(s2, st2, msg, env);
        if newConn || msg.described then
          var (s4, offer) := Offer(s3, st3, env);
          (s4, Served(offer))
        else (s3, Served(None))
  }

  // ---------------------------------------------------------------- closing and pushing

  function Close(s: Server, conn: Conn, env: Env): Server {
    if conn !in s.byConn then s
    else
      var uid := s.byConn[conn];
      var s1 := s.(byConn := s.byConn - {conn});
      if uid in s.byUID && s.byUID[uid].conn == conn then
        var st := s.byUID[uid];
        Emit(SetConnected(s1.(byUID := s1.byUID - {uid}), st, false, env.connect), st, AgentOffline)
      else s1
  }

  predicate Pushed(s: Server, customer: Customer, uid: Uid) {
    uid in s.byUID && s.byUID[uid].customer == customer && Accepts(s.byUID[uid].caps)
  }

  /** Whether the push assigns the hash to this agent's row; `failed` are the writes that fail. */
  predicate Assigns(s: Server, customer: Customer, failed: set<Uid>, u: Uid) {
    Pushed(s, customer, u) && u !in failed && HasRow(s, s.byUID[u]) && s.byUID[u].uid == u
  }

  /** EdgeConfigChanged: the assigned hash of every capable connected agent; `failed` are the writes that fail. */
  function Push(s: Server, customer: Customer, failed: set<Uid>): Server {
    if customer !in s.desired then s
    else s.(rows := map u | u in s.rows :: AfterPush(s, customer, failed, {}, u))
  }

  /** The agent's row once the push has visited all but the agents in `todo`. */
  function AfterPush(s: Server, customer: Customer, failed: set<Uid>, todo: set<Uid>, u: Uid): Row
    requires u in s.rows && customer in s.desired
  {
    if u !in todo && Assigns(s, customer, failed, u) then s.rows[u].(assignedHash := s.desired[customer]) else s.rows[u]
  }

  /** The customer's agents whose rows show them disconnected. */
  function Offline(s: Server, customer: Customer): set<Uid> {
    set u | u in s.rows && s.rows[u].customer == Some(customer) && !s.rows[u].connected
  }

  // ---------------------------------------------------------------- the handler

  class Handler {
    var rows: map<Uid, Row>
    var byUID: map<Uid, AgentConn>
    var byConn: map<Conn, Uid>
    var events: seq<Event>
    var hooks: seq<Hook>
    var desired: map<Customer, Hash>

    ghost function Value(): Server
      reads this
    {
      Server(rows, byUID, byConn, events, hooks, desired)
    }

    constructor (rows: map<Uid, Row>, desired: map<Customer, Hash>)
      ensures Value() == Server(rows, map[], map[], [], [], desired)
    {
      this.rows, this.desired, byUID, byConn, events, hooks := rows, desired, map[], map[], [], [];
    }

    method RegistryPut(st: AgentConn)
      modifies this`byUID, this`byConn
      ensures Value() == Put(old(Value()), st)
    {
      if st.uid in byUID && byUID[st.uid].conn != st.conn {
        byConn := byConn - {byUID[st.uid].conn};
      }
      byUID := byUID[st.uid := st];
      byConn := byConn[st.conn := st.uid];
    }

    method RegistryUpdate(st: AgentConn)
      modifies this`byUID
      ensures Value() == Update(old(Value()), st)
    {
      if st.uid in byUID {
        byUID := byUID[st.uid := st];
      }
    }

    method ResolveAgent(conn: Conn, auth: Auth, msg: Message, env: Env) returns (r: Resolution)
      modifies this`rows, this`events
      ensures (Value(), r) == Resolve(old(Value()), conn, auth, msg, env)
    {
      if env.lookup {
        return AskFull;
      }
      if msg.uid in rows {
        var row := rows[msg.uid];
        if row.customer.None? || row.customer.value != auth.customer {
          return Reject;
        }
        return Found(Seeded(conn, auth, msg.uid, row));
      }
      if !msg.described || env.enroll {
        return AskFull;
      }
      rows := rows[msg.uid := Row(env.newID, Some(auth.customer), Some(msg.caps), "", "", Unset, None, false)];
      events := events + [Event(msg.uid, Enrolled)];
      return Found(AgentConn(conn, msg.uid, env.newID, auth.customer, msg.caps, "", Unset, None));
    }

    method HandleRemoteConfigStatus(st0: AgentConn, r: Report, env: Env) returns (st: AgentConn)
      modifies this`rows, this`byUID, this`events, this`hooks
      ensures (Value(), st) == TakeReport(old(Value()), st0, r, env)
    {
      st := st0;
      var newHash := |r.hash| > 0 && r.hash != st.acked;
      if |r.hash| > 0 {
        st := st.(acked := r.hash);
        RegistryUpdate(st);
        if newHash && !env.ack && st.uid in rows && rows[st.uid].id == st.agentID {
          rows := rows[st.uid := rows[st.uid].(acked := st.acked)];
        }
      } else if r.status == Unset {
        st := st.(acked := "");
        RegistryUpdate(st);
        if !env.ack && st.uid in rows && rows[st.uid].id == st.agentID {
          rows := rows[st.uid := rows[st.uid].(acked := "")];
        }
      }
      assert (Value(), st) == TakeAck(old(Value()), st0, r, env);
      var terminal := r.status == Applied || r.status == Failed;
      if r.status == st.status && !(newHash && terminal) {
        return;
      }
      if env.status || st.uid !in rows || rows[st.uid].id != st.agentID {
        return;
      }
      rows := rows[st.uid := rows[st.uid].(status := r.status)];
      if r.status == Applied {
        events := events + [Event(st.uid, ConfigApplied)];
      } else if r.status == Failed {
        events := events + [Event(st.uid, ConfigFailed)];
        hooks := hooks + [Hook(st.agentID, AgentConfigFailed)];
      }
      st := st.(status := r.status);
      RegistryUpdate(st);
    }

    method HandleHealth(st0: AgentConn, healthy: bool, env: Env) returns (st: AgentConn)
      modifies this`rows, this`byUID, this`events, this`hooks
      ensures (Value(), st) == TakeHealth(old(Value()), st0, healthy, env)
    {
      st := st0;
      var flip := st.healthy.None? || st.healthy.value != healthy;
      if env.health || st.uid !in rows || rows[st.uid].id != st.agentID {
        return;
      }
      rows := rows[st.uid := rows[st.uid].(healthy := Some(healthy))];
      if flip {
        events := events + [Event(st.uid, if healthy then Healthy else Unhealthy)];
      }
      if flip && !healthy {
        hooks := hooks + [Hook(st.agentID, AgentUnhealthy)];
      }
      st := st.(healthy := Some(healthy));
      RegistryUpdate(st);
    }

    method MaybeOfferConfig(st: AgentConn, env: Env) returns (offer: Option<Hash>)
      modifies this`rows
      ensures (Value(), offer) == Offer(old(Value()), st, env)
    {
      if st.caps / 2 % 2 != 1 {
        return None;
      }
      if env.render || st.customer !in desired {
        return None;
      }
      var hash := desired[st.customer];
      if !env.assign && st.uid in rows && rows[st.uid].id == st.agentID {
        rows := rows[st.uid := rows[st.uid].(assignedHash := hash)];
      }
      return if hash == st.acked then None else Some(hash);
    }

    method Attach(st0: AgentConn, conn: Conn, msg: Message, known: bool, newConn: bool,
                  env: Env) returns (st: AgentConn)
      modifies this`rows, this`byUID, this`byConn, this`events
      ensures (Value(), st) == Register(old(Value()), st0, conn, msg, known, newConn, env)
    {
      st := st0.(conn := conn);
      if msg.caps != 0 {
        st := st.(caps := msg.caps);
      }
      if msg.described && known && !env.describe && msg.caps != 0 && st.uid in rows && rows[st.uid].id == st.agentID {
        rows := rows[st.uid := rows[st.uid].(caps := Some(msg.caps))];
      }
      RegistryPut(st);
      if newConn && !env.connect && st.uid in rows && rows[st.uid].id == st.agentID {
        rows := rows[st.uid := rows[st.uid].(connected := true)];
        events := events + [Event(st.uid, Connected)];
      }
    }

    method HandleMessage(conn: Conn, auth: Auth, msg: Message, env: Env) returns (reply: Reply)
      modifies this
      ensures (Value(), reply) == Handle(old(Value()), conn, auth, msg, env)
    {
      hide Resolve, Register, TakeReport, TakeHealth, Offer;
      if msg.uid == "" {
        return BadRequest;
      }
      var known := msg.uid in byUID;
      var newConn := !known || byUID[msg.uid].conn != conn;
      var st: AgentConn;
      if !known {
        var r := ResolveAgent(conn, auth, msg, env);
        if r.Reject? {
          return BadRequest;
        }
        if r.AskFull? {
          return AskFullState;
        }
        st := r.st;
      } else {
        st := byUID[msg.uid];
        if st.customer != auth.customer {
          return BadRequest;
        }
      }
      if auth.agentID.Some? && st.agentID != auth.agentID.value {
        return BadRequest;
      }
      st := Attach(st, conn, msg, known, newConn, env);
      if msg.report.Some? {
        st := HandleRemoteConfigStatus(st, msg.report.value, env);
      }
      if msg.health.Some? {
        st := HandleHealth(st, msg.health.value, env);
      }
      var offer := None;
      if newConn || msg.described {
        offer := MaybeOfferConfig(st, env);
      }
      return Served(offer);
    }

    method HandleConnectionClose(conn: Conn, env: Env)
      modifies this
      ensures Value() == Close(old(Value()), conn, env)
    {
      if conn !in byConn {
        return;
      }
      var uid := byConn[conn];
      byConn := byConn - {conn};
      if uid !in byUID || byUID[uid].conn != conn {
        return;
      }
      var st := byUID[uid];
      byUID := byUID - {uid};
      if !env.connect && st.uid in rows && rows[st.uid].id == st.agentID {
        rows := rows[st.uid := rows[st.uid].(connected := false)];
        events := events + [Event(st.uid, Disconnected)];
      }
      hooks := hooks + [Hook(st.agentID, AgentOffline)];
    }

    /**
     `failed` are the agents whose assigned-hash write fails, `unreachable` those whose transport refuses the
     message, and `uncounted` says that listing the offline agents fails.
     */
    method EdgeConfigChanged(customer: Customer, failed: set<Uid>, unreachable: set<Uid>, uncounted: bool)
      returns (ok: bool, pushed: set<Uid>, offline: nat)
      modifies this`rows
      ensures Value() == Push(old(Value()), customer, failed)
      ensures ok == (customer in desired)
      ensures pushed == if ok then set u | u in byUID && Pushed(Value(), customer, u) && u !in unreachable else {}
      ensures offline == if ok && !uncounted then |Offline(Value(), customer)| else 0
    {
      pushed, offline := {}, 0;
      if customer !in desired {
        return false, {}, 0;
      }
      var hash := desired[customer];
      var todo := byUID.Keys;
      ghost var s := Value();
      while todo != {}
        invariant todo <= byUID.Keys && rows.Keys == s.rows.Keys
        invariant forall u :: u in pushed <==> u in byUID && u !in todo && Pushed(s, customer, u) && u !in unreachable
        invariant forall u :: u in rows ==> rows[u] == AfterPush(s, customer, failed, todo, u)
        decreases todo
      {
        var u :| u in todo;
        todo := todo - {u};
        var st := byUID[u];
        if st.customer != customer || st.caps / 2 % 2 != 1 {
          continue;
        }
        if u !in failed && st.uid == u && u in rows && rows[u].id == st.agentID {
          rows := rows[u := rows[u].(assignedHash := hash)];
        }
        if u in unreachable {
          continue;
        }
        pushed := pushed + {u};
      }
      assert rows == Push(s, customer, failed).rows;
      if !uncounted {
        var away := set u | u in rows && rows[u].customer == Some(customer) && !rows[u].connected;
        offline := |away|;
      }
      ok := true;
    }
  }
}
