/**
 What the OpAMP server keeps over every run: its memory agrees with the agent rows, its two
 connection maps agree with each other, and an agent in sync is left alone.
 */
module OpAMPRuns {
  import opened Wrappers
  import opened OpAMP

  /** Change is an edit of a customer's edge pipelines; Restart loses the registry and keeps the database. */
  datatype Step =
    | Receive(conn: Conn, auth: Auth, msg: Message, env: Env)
    | Disconnect(conn: Conn, env: Env)
    | Change(customer: Customer, hash: Hash)
    | Notify(customer: Customer, failed: set<Uid>)
    | Restart

  function Next(s: Server, step: Step): Server {
    match step
    case Receive(conn, auth, msg, env) => Handle(s, conn, auth, msg, env).0
    case Disconnect(conn, env) => Close(s, conn, env)
    case Change(customer, hash) => s.(desired := s.desired[customer := hash])
    case Notify(customer, failed) => Push(s, customer, failed)
    case Restart => s.(byUID := map[], byConn := map[])
  }

  function Run(s: Server, steps: seq<Step>): Server
    decreases |steps|
  {
    if steps == [] then s else Run(Next(s, steps[0]), steps[1..])
  }

  // ---------------------------------------------------------------- one agent's memory and row

  predicate Backs(row: Row, st: AgentConn) {
    row.id == st.agentID && row.customer == Some(st.customer) && row.status == st.status && row.healthy == st.healthy
  }

  /** The registered agent's memory is what its row says. */
  predicate Coherent(s: Server, u: Uid) {
    u in s.byUID ==> s.byUID[u].uid == u && u in s.rows && Backs(s.rows[u], s.byUID[u])
  }

  ghost predicate AllCoherent(s: Server) { forall u :: Coherent(s, u) }

  /** `st` is registered and backed by its row. */
  predicate Held(s: Server, st: AgentConn) {
    st.uid in s.byUID && s.byUID[st.uid] == st && st.uid in s.rows && Backs(s.rows[st.uid], st)
  }

  ghost predicate OthersKept(s: Server, t: Server, uid: Uid) {
    && t.desired == s.desired
    && (forall u :: u != uid ==> (u in s.byUID <==> u in t.byUID))
    && (forall u :: u != uid && u in s.byUID ==> t.byUID[u] == s.byUID[u])
    && (forall u :: u != uid ==> (u in s.rows <==> u in t.rows))
    && (forall u :: u != uid && u in s.rows ==> t.rows[u] == s.rows[u])
  }

  /** What the report and health parts of a message leave alone. */
  ghost predicate PartKept(s: Server, st: AgentConn, t: Server, st': AgentConn)
    requires Held(s, st) && Held(t, st')
  {
    && OthersKept(s, t, st.uid) && t.byConn == s.byConn
    && st' == st.(acked := st'.acked, status := st'.status, healthy := st'.healthy)
    && t.rows[st.uid].connected == s.rows[st.uid].connected
    && t.rows[st.uid].assignedHash == s.rows[st.uid].assignedHash
    && t.rows[st.uid].caps == s.rows[st.uid].caps
  }

  lemma KeptByWrite(s: Server, t: Server, uid: Uid)
    requires uid in s.rows && uid in t.rows && t.rows == s.rows[uid := t.rows[uid]]
    requires uid in s.byUID && uid in t.byUID && t.byUID == s.byUID[uid := t.byUID[uid]]
    requires t.desired == s.desired
    ensures OthersKept(s, t, uid)
  {
  }

  lemma AckPart(s: Server, st: AgentConn, r: Report, env: Env)
    requires Held(s, st)
    ensures var (t, st') := TakeAck(s, st, r, env);
            && Held(t, st') && PartKept(s, st, t, st') && st'.acked == AckedAfter(st.acked, r)
            && t.events == s.events && t.rows[st.uid].healthy == s.rows[st.uid].healthy
            && t.rows[st.uid].acked == (if st'.acked != st.acked && !env.ack then st'.acked
                                        else if r.hash == "" && r.status == Unset && !env.ack then ""
                                        else s.rows[st.uid].acked)
  {
    hide OthersKept;
    KeptByWrite(s, TakeAck(s, st, r, env).0, st.uid);
  }

  lemma StatusPart(s: Server, st: AgentConn, r: Report, newHash: bool, env: Env)
    requires Held(s, st)
    ensures var (t, st') := TakeStatus(s, st, r, newHash, env);
            && Held(t, st') && PartKept(s, st, t, st') && st'.acked == st.acked
            && t.rows[st.uid].healthy == s.rows[st.uid].healthy && t.rows[st.uid].acked == s.rows[st.uid].acked
            && (t.events == s.events || t.events == s.events + [Event(st.uid, ConfigApplied)]
               || t.events == s.events + [Event(st.uid, ConfigFailed)])
  {
    hide OthersKept;
    KeptByWrite(s, TakeStatus(s, st, r, newHash, env).0, st.uid);
  }

  lemma HealthPart(s: Server, st: AgentConn, healthy: bool, env: Env)
    requires Held(s, st)
    ensures var (t, st') := TakeHealth(s, st, healthy, env);
            && Held(t, st') && PartKept(s, st, t, st') && st'.acked == st.acked
               && t.rows[st.uid].acked == s.rows[st.uid].acked
            && t.events == (if env.health || st.healthy == Some(healthy) then s.events
                            else s.events + [Event(st.uid, if healthy then Healthy else Unhealthy)])
            && t.rows[st.uid].healthy == (if env.health then s.rows[st.uid].healthy else Some(healthy))
  {
    hide OthersKept;
    KeptByWrite(s, TakeHealth(s, st, healthy, env).0, st.uid);
  }

  lemma KeptDesired(s: Server, t: Server, uid: Uid)
    requires OthersKept(s, t, uid)
    ensures t.desired == s.desired
  {
  }

  lemma KeptTwice(s: Server, t: Server, v: Server, uid: Uid)
    requires OthersKept(s, t, uid) && OthersKept(t, v, uid)
    ensures OthersKept(s, v, uid)
  {
  }

  lemma KeptAll(s: Server, uid: Uid)
    ensures OthersKept(s, s, uid)
  {
  }

  lemma PartsKept(s: Server, st: AgentConn, t: Server, st': AgentConn, v: Server, st'': AgentConn)
    requires Held(s, st) && Held(t, st') && Held(v, st'') && PartKept(s, st, t, st') && PartKept(t, st', v, st'')
    ensures PartKept(s, st, v, st'')
  {
    hide OthersKept;
    KeptTwice(s, t, v, st.uid);
  }

  lemma ReportPart(s: Server, st: AgentConn, r: Report, env: Env)
    requires Held(s, st)
    ensures var (t, st') := TakeReport(s, st, r, env);
            && Held(t, st') && PartKept(s, st, t, st') && st'.acked == AckedAfter(st.acked, r)
            && (!env.ack && s.rows[st.uid].acked == st.acked ==> t.rows[st.uid].acked == st'.acked)
            && (env.ack ==> t.rows[st.uid].acked == s.rows[st.uid].acked)
            && (st'.acked == st.acked && st.acked != "" ==> t.rows[st.uid].acked == s.rows[st.uid].acked)
  {
    hide TakeAck, TakeStatus, NewHash, OthersKept;
    AckPart(s, st, r, env);
    var (s1, st1) := TakeAck(s, st, r, env);
    StatusPart(s1, st1, r, NewHash(st, r), env);
    var (t, st') := TakeStatus(s1, st1, r, NewHash(st, r), env);
    PartsKept(s, st, s1, st1, t, st');
  }

  function MessageAck(acked: Hash, msg: Message): Hash {
    if msg.report.Some? then AckedAfter(acked, msg.report.value) else acked
  }

  lemma Parts(s: Server, st: AgentConn, msg: Message, env: Env)
    requires Held(s, st)
    ensures var (t, st') := TakeParts(s, st, msg, env);
            && Held(t, st') && PartKept(s, st, t, st') && st'.acked == MessageAck(st.acked, msg)
            && (!env.ack && s.rows[st.uid].acked == st.acked ==> t.rows[st.uid].acked == st'.acked)
            && (env.ack ==> t.rows[st.uid].acked == s.rows[st.uid].acked)
            && (st'.acked == st.acked && st.acked != "" ==> t.rows[st.uid].acked == s.rows[st.uid].acked)
  {
    hide TakeReport, TakeHealth, OthersKept, AckedAfter;
    var s1, st1 := s, st;
    if msg.report.Some? {
      ReportPart(s, st, msg.report.value, env);
      var p := TakeReport(s, st, msg.report.value, env);
      s1, st1 := p.0, p.1;
    } else {
      assert PartKept(s, st, s, st) by { assert OthersKept(s, s, st.uid) by { KeptAll(s, st.uid); } }
    }
    if msg.health.Some? {
      HealthPart(s1, st1, msg.health.value, env);
      var p := TakeHealth(s1, st1, msg.health.value, env);
      PartsKept(s, st, s1, st1, p.0, p.1);
    }
  }

  lemma OfferPart(s: Server, st: AgentConn, env: Env)
    requires Held(s, st)
    ensures var (t, offer) := Offer(s, st, env);
            && Held(t, st) && OthersKept(s, t, st.uid) && t.byConn == s.byConn && t.byUID == s.byUID
               && t.events == s.events
            && t.rows[st.uid] == s.rows[st.uid].(assignedHash := t.rows[st.uid].assignedHash)
            && (t.rows[st.uid].assignedHash == s.rows[st.uid].assignedHash
               || (st.customer in s.desired && t.rows[st.uid].assignedHash == s.desired[st.customer]))
            && (offer.Some? ==> st.customer in s.desired && offer.value == s.desired[st.customer] != st.acked)
  {
    hide OthersKept;
    KeptByWrite(s, Offer(s, st, env).0, st.uid);
  }

  // ---------------------------------------------------------------- identifying the agent

  /** The acknowledged hash in the database; an agent not enrolled yet has none. */
  function RowAcked(s: Server, u: Uid): Hash { if u in s.rows then s.rows[u].acked else "" }

  lemma IdentifyKeeps(s: Server, conn: Conn, auth: Auth, msg: Message, env: Env)
    requires Coherent(s, msg.uid)
    ensures var (t, r) := Identify(s, conn, auth, msg, env);
            && OthersKept(s, t, msg.uid) && t.byConn == s.byConn && t.byUID == s.byUID
            && (msg.uid in s.rows ==> t.rows == s.rows && t.events == s.events)
            && (msg.uid !in s.rows && msg.uid in t.rows
               ==> t.rows[msg.uid].healthy == None && !t.rows[msg.uid].connected)
            && (t.events == s.events || t.events == s.events + [Event(msg.uid, Enrolled)])
            && RowAcked(t, msg.uid) == RowAcked(s, msg.uid)
            && (r.Found? ==> && r.st.uid == msg.uid && msg.uid in t.rows && Backs(t.rows[msg.uid], r.st)
                             && r.st.customer == auth.customer
                             && (msg.uid in s.byUID ==> r.st == s.byUID[msg.uid])
                             && (msg.uid !in s.byUID ==> r.st.acked == t.rows[msg.uid].acked))
  {
  }

  lemma RegisterKeeps(s: Server, st: AgentConn, conn: Conn, msg: Message, known: bool, newConn: bool, env: Env)
    requires st.uid in s.rows && Backs(s.rows[st.uid], st)
    ensures var (t, st') := Register(s, st, conn, msg, known, newConn, env);
            && Held(t, st') && OthersKept(s, t, st.uid)
            && st' == st.(conn := conn, caps := if msg.caps != 0 then msg.caps else st.caps)
            && t.rows[st.uid]
               == s.rows[st.uid].(caps := t.rows[st.uid].caps,
                                  connected := (newConn && !env.connect) || s.rows[st.uid].connected)
            && t.byConn == Put(s, st').byConn
            && (t.events == s.events || t.events == s.events + [Event(st.uid, Connected)])
  {
  }

  predicate Accepted(s: Server, conn: Conn, auth: Auth, msg: Message, env: Env) {
    msg.uid != "" && Identify(s, conn, auth, msg, env).1.Found?
  }

  /** The state and agent of an accepted message once it is registered, and before its config is offered. */
  function Attached(s: Server, conn: Conn, auth: Auth, msg: Message, env: Env): (Server, AgentConn)
    requires Accepted(s, conn, auth, msg, env)
  {
    var (s1, r) := Identify(s, conn, auth, msg, env);
    Register(s1, r.st, conn, msg, msg.uid in s.byUID, NewConn(s, conn, msg.uid), env)
  }

  function Updated(s: Server, conn: Conn, auth: Auth, msg: Message, env: Env): (Server, AgentConn)
    requires Accepted(s, conn, auth, msg, env)
  {
    var (s2, st2) := Attached(s, conn, auth, msg, env);
    TakeParts(s2, st2, msg, env)
  }

  /** `s1` and `st0` are what the message was identified as, `t` and `st` what its handling made of them. */
  predicate AgentUpdated(s1: Server, st0: AgentConn, t: Server, st: AgentConn, conn: Conn, msg: Message,
                         newConn: bool, env: Env) {
    && Held(t, st) && st0.uid == msg.uid && msg.uid in s1.rows
    && st == st0.(conn := conn, caps := if msg.caps != 0 then msg.caps else st0.caps,
                  acked := MessageAck(st0.acked, msg),
                  status := st.status, healthy := st.healthy)
    && t.rows[msg.uid].connected == ((newConn && !env.connect) || s1.rows[msg.uid].connected)
    && (!env.ack && s1.rows[msg.uid].acked == st0.acked ==> t.rows[msg.uid].acked == st.acked)
    && (env.ack ==> t.rows[msg.uid].acked == s1.rows[msg.uid].acked)
    && (st.acked == st0.acked != "" ==> t.rows[msg.uid].acked == s1.rows[msg.uid].acked)
  }

  lemma UpdatedKeeps(s: Server, conn: Conn, auth: Auth, msg: Message, env: Env)
    requires Coherent(s, msg.uid) && Accepted(s, conn, auth, msg, env)
    ensures var (s1, r) := Identify(s, conn, auth, msg, env);
            var (t, st) := Updated(s, conn, auth, msg, env);
            && AgentUpdated(s1, r.st, t, st, conn, msg, NewConn(s, conn, msg.uid), env)
            && OthersKept(s, t, msg.uid) && t.byConn == Put(s, r.st.(conn := conn)).byConn
            && t.rows[msg.uid].assignedHash == s1.rows[msg.uid].assignedHash
  {
    hide Identify, Register, TakeParts, OthersKept, NewConn;
    IdentifyKeeps(s, conn, auth, msg, env);
    var (s1, r) := Identify(s, conn, auth, msg, env);
    RegisterKeeps(s1, r.st, conn, msg, msg.uid in s.byUID, NewConn(s, conn, msg.uid), env);
    var (s2, st2) := Attached(s, conn, auth, msg, env);
    Parts(s2, st2, msg, env);
    var (t, st) := TakeParts(s2, st2, msg, env);
    KeptTwice(s, s1, s2, msg.uid);
    KeptTwice(s, s2, t, msg.uid);
  }

  /** What an accepted message does to the agent it is for. */
  lemma AcceptedMessage(s: Server, conn: Conn, auth: Auth, msg: Message, env: Env)
    requires Coherent(s, msg.uid) && Accepted(s, conn, auth, msg, env)
    ensures var (s1, r) := Identify(s, conn, auth, msg, env);
            var (t, reply) := Handle(s, conn, auth, msg, env);
            var st := Updated(s, conn, auth, msg, env).1;
            && AgentUpdated(s1, r.st, t, st, conn, msg, NewConn(s, conn, msg.uid), env)
            && OthersKept(s, t, msg.uid) && t.byConn == Put(s, r.st.(conn := conn)).byConn
            && reply == Served(if NewConn(s, conn, msg.uid) || msg.described
                               then Offer(Updated(s, conn, auth, msg, env).0, st, env).1 else None)
            && (t.rows[msg.uid].assignedHash == s1.rows[msg.uid].assignedHash
                || (r.st.customer in s.desired && t.rows[msg.uid].assignedHash == s.desired[r.st.customer]))
  {
    hide Identify, Register, TakeParts, Offer, OthersKept, NewConn;
    UpdatedKeeps(s, conn, auth, msg, env);
    var (s3, st3) := Updated(s, conn, auth, msg, env);
    OfferPart(s3, st3, env);
    var (t, _) := Offer(s3, st3, env);
    KeptTwice(s, s3, t, msg.uid);
    KeptDesired(s, s3, msg.uid);
  }

  lemma RefusedMessage(s: Server, conn: Conn, auth: Auth, msg: Message, env: Env)
    requires Coherent(s, msg.uid) && !Accepted(s, conn, auth, msg, env)
    ensures var (t, reply) := Handle(s, conn, auth, msg, env);
            && t.byUID == s.byUID && t.byConn == s.byConn && OthersKept(s, t, msg.uid) && !reply.Served?
            && (msg.uid in s.rows ==> t.rows == s.rows && t.events == s.events)
            && (msg.uid !in s.rows && msg.uid in t.rows
               ==> t.rows[msg.uid].healthy == None && !t.rows[msg.uid].connected)
            && (t.events == s.events || t.events == s.events + [Event(msg.uid, Enrolled)])
  {
    hide Identify;
    IdentifyKeeps(s, conn, auth, msg, env);
  }

  // ---------------------------------------------------------------- coherence over runs

  lemma ReceiveCoherent(s: Server, conn: Conn, auth: Auth, msg: Message, env: Env, u: Uid)
    requires AllCoherent(s)
    ensures Coherent(Handle(s, conn, auth, msg, env).0, u)
  {
    assert Coherent(s, msg.uid) && Coherent(s, u);
    if Accepted(s, conn, auth, msg, env) {
      hide Handle, Accepted, Identify, Updated, Offer, NewConn;
      AcceptedMessage(s, conn, auth, msg, env);
    } else {
      hide Handle, Accepted;
      RefusedMessage(s, conn, auth, msg, env);
    }
  }

  lemma NextCoherent(s: Server, step: Step)
    requires AllCoherent(s)
    ensures AllCoherent(Next(s, step))
  {
    forall u ensures Coherent(Next(s, step), u) {
      assert Coherent(s, u);
      match step
      case Receive(conn, auth, msg, env) =>
        hide Handle;
        ReceiveCoherent(s, conn, auth, msg, env, u);
      case Disconnect(conn, env) =>
        if conn in s.byConn { assert Coherent(s, s.byConn[conn]); }
      case _ =>
    }
  }

  /** In every run, whatever writes fail, each registered agent's status and health in memory are those of its row. */
  lemma {:induction false} MemoryFollowsRows(s: Server, steps: seq<Step>)
    requires AllCoherent(s)
    ensures AllCoherent(Run(s, steps))
    decreases |steps|
  {
    if steps == [] {
    } else {
      NextCoherent(s, steps[0]);
      MemoryFollowsRows(Next(s, steps[0]), steps[1..]);
    }
  }

  // ---------------------------------------------------------------- health events

  function HealthOf(e: Event): Option<bool> {
    if e.kind == Healthy then Some(true) else if e.kind == Unhealthy then Some(false) else None
  }

  /** The health flips logged for one agent, oldest first. */
  function Flips(events: seq<Event>, u: Uid): seq<bool> {
    if events == [] then []
    else
      var e := events[|events| - 1];
      var before := Flips(events[..|events| - 1], u);
      if e.uid == u && HealthOf(e).Some? then before + [HealthOf(e).value] else before
  }

  predicate Alternates(flips: seq<bool>) { forall i :: 0 <= i < |flips| - 1 ==> flips[i] != flips[i + 1] }

  function LastOf(flips: seq<bool>): Option<bool> { if flips == [] then None else Some(flips[|flips| - 1]) }

  function RowHealth(s: Server, u: Uid): Option<bool> { if u in s.rows then s.rows[u].healthy else None }

  predicate HealthLogged(s: Server, u: Uid) {
    Alternates(Flips(s.events, u)) && LastOf(Flips(s.events, u)) == RowHealth(s, u)
  }

  lemma OneMoreEvent(events: seq<Event>, e: Event, u: Uid)
    ensures Flips(events + [e], u)
            == if e.uid == u && HealthOf(e).Some? then Flips(events, u) + [HealthOf(e).value] else Flips(events, u)
  {
    assert (events + [e])[..|events|] == events;
  }

  lemma QuietEvent(s: Server, t: Server, e: Event, u: Uid)
    requires HealthLogged(s, u) && RowHealth(t, u) == RowHealth(s, u)
    requires t.events == s.events || (t.events == s.events + [e] && (HealthOf(e) == None || e.uid != u))
    ensures HealthLogged(t, u)
  {
    OneMoreEvent(s.events, e, u);
  }

  lemma FlipAlternates(flips: seq<bool>, healthy: bool)
    requires Alternates(flips) && LastOf(flips) != Some(healthy)
    ensures Alternates(flips + [healthy]) && LastOf(flips + [healthy]) == Some(healthy)
  {
  }

  lemma KeptRow(s: Server, t: Server, uid: Uid, u: Uid)
    requires OthersKept(s, t, uid)
    ensures u != uid ==> RowHealth(t, u) == RowHealth(s, u)
  {
  }

  lemma HealthPartLogged(s: Server, st: AgentConn, healthy: bool, env: Env, u: Uid)
    requires Held(s, st) && HealthLogged(s, u)
    ensures HealthLogged(TakeHealth(s, st, healthy, env).0, u)
  {
    hide TakeHealth, Flips, OthersKept;
    HealthPart(s, st, healthy, env);
    var t := TakeHealth(s, st, healthy, env).0;
    KeptRow(s, t, st.uid, u);
    OneMoreEvent(s.events, Event(st.uid, if healthy then Healthy else Unhealthy), u);
    if LastOf(Flips(s.events, u)) != Some(healthy) {
      FlipAlternates(Flips(s.events, u), healthy);
    }
  }

  lemma ReportPartLogged(s: Server, st: AgentConn, r: Report, env: Env, u: Uid)
    requires Held(s, st) && HealthLogged(s, u)
    ensures HealthLogged(TakeReport(s, st, r, env).0, u)
    ensures Held(TakeReport(s, st, r, env).0, TakeReport(s, st, r, env).1)
  {
    hide TakeAck, TakeStatus, HealthLogged, NewHash;
    AckPart(s, st, r, env);
    var (s1, st1) := TakeAck(s, st, r, env);
    QuietEvent(s, s1, Event(st.uid, ConfigApplied), u);
    StatusPart(s1, st1, r, NewHash(st, r), env);
    var (t, _) := TakeStatus(s1, st1, r, NewHash(st, r), env);
    var applied, failed := Event(st.uid, ConfigApplied), Event(st.uid, ConfigFailed);
    QuietEvent(s1, t, if t.events == s1.events + [applied] then applied else failed, u);
  }

  lemma PartsLogged(s: Server, st: AgentConn, msg: Message, env: Env, u: Uid)
    requires Held(s, st) && HealthLogged(s, u)
    ensures HealthLogged(TakeParts(s, st, msg, env).0, u)
  {
    hide TakeReport, TakeHealth, HealthLogged, Held;
    var s1, st1 := s, st;
    if msg.report.Some? {
      ReportPartLogged(s, st, msg.report.value, env, u);
      var p := TakeReport(s, st, msg.report.value, env);
      s1, st1 := p.0, p.1;
    }
    if msg.health.Some? {
      HealthPartLogged(s1, st1, msg.health.value, env, u);
    }
  }

  lemma AttachedLogged(s: Server, conn: Conn, auth: Auth, msg: Message, env: Env, u: Uid)
    requires Coherent(s, msg.uid) && Accepted(s, conn, auth, msg, env) && HealthLogged(s, u)
    ensures var (t, st) := Attached(s, conn, auth, msg, env); HealthLogged(t, u) && Held(t, st)
  {
    hide Register, HealthLogged, NewConn, Identify;
    IdentifyKeeps(s, conn, auth, msg, env);
    var (s1, r) := Identify(s, conn, auth, msg, env);
    QuietEvent(s, s1, Event(msg.uid, Enrolled), u);
    RegisterKeeps(s1, r.st, conn, msg, msg.uid in s.byUID, NewConn(s, conn, msg.uid), env);
    var (s2, st2) := Attached(s, conn, auth, msg, env);
    QuietEvent(s1, s2, Event(msg.uid, Connected), u);
  }

  lemma ReceiveLogged(s: Server, conn: Conn, auth: Auth, msg: Message, env: Env, u: Uid)
    requires Coherent(s, msg.uid) && HealthLogged(s, u)
    ensures HealthLogged(Handle(s, conn, auth, msg, env).0, u)
  {
    hide HealthLogged, NewConn, Identify, Register, TakeParts, Offer;
    if Accepted(s, conn, auth, msg, env) {
      AttachedLogged(s, conn, auth, msg, env, u);
      var (s2, st2) := Attached(s, conn, auth, msg, env);
      PartsLogged(s2, st2, msg, env, u);
      Parts(s2, st2, msg, env);
      var (s3, st3) := TakeParts(s2, st2, msg, env);
      OfferPart(s3, st3, env);
      QuietEvent(s3, Offer(s3, st3, env).0, Event(msg.uid, Connected), u);
    } else {
      RefusedMessage(s, conn, auth, msg, env);
      QuietEvent(s, Handle(s, conn, auth, msg, env).0, Event(msg.uid, Enrolled), u);
    }
  }

  lemma NextLogged(s: Server, step: Step, u: Uid)
    requires AllCoherent(s) && HealthLogged(s, u)
    ensures HealthLogged(Next(s, step), u)
  {
    match step
    case Receive(conn, auth, msg, env) =>
      hide Handle, HealthLogged;
      assert Coherent(s, msg.uid);
      ReceiveLogged(s, conn, auth, msg, env, u);
    case Disconnect(conn, env) =>
      hide HealthLogged;
      var uid := if conn in s.byConn then s.byConn[conn] else "";
      assert Coherent(s, uid);
      QuietEvent(s, Next(s, step), Event(uid, Disconnected), u);
    case _ =>
      hide HealthLogged;
      QuietEvent(s, Next(s, step), Event(u, Connected), u);
  }

  /**
   In every run, whatever writes fail and however often the agent reconnects or the server restarts, an
   agent's healthy and unhealthy events alternate, and the last one is the health its row shows.
   */
  lemma {:induction false} HealthEventsAlternate(s: Server, steps: seq<Step>, u: Uid)
    requires AllCoherent(s) && HealthLogged(s, u)
    ensures Alternates(Flips(Run(s, steps).events, u))
    ensures LastOf(Flips(Run(s, steps).events, u)) == RowHealth(Run(s, steps), u)
    decreases |steps|
  {
    if steps == [] {
    } else {
      NextCoherent(s, steps[0]);
      NextLogged(s, steps[0], u);
      HealthEventsAlternate(Next(s, steps[0]), steps[1..], u);
    }
  }

  // ---------------------------------------------------------------- the connection maps

  /** Every connection entry leads to an agent whose current connection it is. */
  predicate Routed(s: Server) {
    forall c :: c in s.byConn ==> s.byConn[c] in s.byUID && s.byUID[s.byConn[c]].conn == c
  }

  lemma PutRouted(s: Server, st: AgentConn, t: Server)
    requires Routed(s) && t.byConn == Put(s, st).byConn && st.uid in t.byUID && t.byUID[st.uid].conn == st.conn
    requires forall u :: u != st.uid && u in s.byUID ==> u in t.byUID && t.byUID[u] == s.byUID[u]
    ensures Routed(t)
  {
  }

  lemma NextRouted(s: Server, step: Step)
    requires AllCoherent(s) && Routed(s)
    ensures Routed(Next(s, step))
  {
    match step
    case Receive(conn, auth, msg, env) =>
      assert Coherent(s, msg.uid);
      hide Handle, Routed, Put, Identify, Offer, Updated, NewConn;
      if Accepted(s, conn, auth, msg, env) {
        AcceptedMessage(s, conn, auth, msg, env);
        PutRouted(s, Identify(s, conn, auth, msg, env).1.st.(conn := conn), Next(s, step));
      } else {
        RefusedMessage(s, conn, auth, msg, env);
        SameRoutes(s, Next(s, step));
      }
    case _ =>
  }

  lemma SameRoutes(s: Server, t: Server)
    requires Routed(s) && t.byUID == s.byUID && t.byConn == s.byConn
    ensures Routed(t)
  {
  }

  /** The connection map leads only to current connections, in every run. */
  lemma {:induction false} RoutesStayCurrent(s: Server, steps: seq<Step>)
    requires AllCoherent(s) && Routed(s)
    ensures Routed(Run(s, steps))
    decreases |steps|
  {
    if steps == [] {
    } else {
      NextCoherent(s, steps[0]);
      NextRouted(s, steps[0]);
      RoutesStayCurrent(Next(s, steps[0]), steps[1..]);
    }
  }

  /** Closing a connection that is no agent's current one, such as a superseded one, changes nothing at all. */
  lemma SupersededCloseIsSilent(s: Server, steps: seq<Step>, conn: Conn, env: Env)
    requires AllCoherent(s) && Routed(s)
    requires forall u :: u in Run(s, steps).byUID ==> Run(s, steps).byUID[u].conn != conn
    ensures Close(Run(s, steps), conn, env) == Run(s, steps)
  {
    RoutesStayCurrent(s, steps);
  }

  /** Each connection carries the messages of one instance UID. */
  ghost predicate OneUidEach(steps: seq<Step>, owner: Conn -> Uid) {
    forall i :: 0 <= i < |steps| && steps[i].Receive? ==> steps[i].msg.uid == owner(steps[i].conn)
  }

  /** The two maps are inverse to each other. */
  predicate Inverse(s: Server) {
    && Routed(s)
    && forall u :: u in s.byUID ==> s.byUID[u].conn in s.byConn && s.byConn[s.byUID[u].conn] == u
  }

  predicate Owned(s: Server, owner: Conn -> Uid) { forall u :: u in s.byUID ==> owner(s.byUID[u].conn) == u }

  lemma PutInverse(s: Server, st: AgentConn, t: Server, owner: Conn -> Uid)
    requires Inverse(s) && Owned(s, owner) && owner(st.conn) == st.uid
    requires t.byConn == Put(s, st).byConn && st.uid in t.byUID && t.byUID[st.uid].conn == st.conn
    requires forall u :: u != st.uid ==> (u in s.byUID <==> u in t.byUID)
    requires forall u :: u != st.uid && u in s.byUID ==> t.byUID[u] == s.byUID[u]
    ensures Inverse(t) && Owned(t, owner)
  {
  }

  lemma NextInverse(s: Server, step: Step, owner: Conn -> Uid)
    requires AllCoherent(s) && Inverse(s) && Owned(s, owner)
    requires step.Receive? ==> step.msg.uid == owner(step.conn)
    ensures Inverse(Next(s, step)) && Owned(Next(s, step), owner)
  {
    match step
    case Receive(conn, auth, msg, env) =>
      assert Coherent(s, msg.uid);
      hide Handle, Inverse, Owned, Put, Identify, Offer, Updated, NewConn;
      if Accepted(s, conn, auth, msg, env) {
        AcceptedMessage(s, conn, auth, msg, env);
        PutInverse(s, Identify(s, conn, auth, msg, env).1.st.(conn := conn), Next(s, step), owner);
      } else {
        RefusedMessage(s, conn, auth, msg, env);
        SameInverse(s, Next(s, step), owner);
      }
    case _ =>
  }

  lemma SameInverse(s: Server, t: Server, owner: Conn -> Uid)
    requires Inverse(s) && Owned(s, owner) && t.byUID == s.byUID && t.byConn == s.byConn
    ensures Inverse(t) && Owned(t, owner)
  {
  }

  /** With one instance UID per connection, the two maps are inverse in every run. */
  lemma {:induction false} MapsStayInverse(s: Server, steps: seq<Step>, owner: Conn -> Uid)
    requires AllCoherent(s) && Inverse(s) && Owned(s, owner) && OneUidEach(steps, owner)
    ensures Inverse(Run(s, steps))
    decreases |steps|
  {
    if steps == [] {
    } else {
      NextCoherent(s, steps[0]);
      NextInverse(s, steps[0], owner);
      MapsStayInverse(Next(s, steps[0]), steps[1..], owner);
    }
  }

  // ---------------------------------------------------------------- connections shared by agents

  /** A registered agent that no connection leads to. */
  predicate Stranded(s: Server, u: Uid) {
    u in s.byUID && !(s.byUID[u].conn in s.byConn && s.byConn[s.byUID[u].conn] == u)
  }

  /** Closing a connection unregisters the agent it leads to and no other, whoever else talked over it. */
  lemma CloseUnregistersExactly(s: Server, steps: seq<Step>, conn: Conn, env: Env, u: Uid)
    requires AllCoherent(s) && Routed(s) && u in Run(s, steps).byUID
    ensures var t := Run(s, steps); u !in Close(t, conn, env).byUID <==> conn in t.byConn && t.byConn[conn] == u
  {
    MemoryFollowsRows(s, steps);
    RoutesStayCurrent(s, steps);
    var t := Run(s, steps);
    if conn in t.byConn {
      assert Coherent(t, t.byConn[conn]);
    }
  }

  lemma PutStrands(s: Server, st: AgentConn, t: Server, u: Uid)
    requires t.byConn == Put(s, st).byConn && u != st.uid && u in s.byUID && u in t.byUID && t.byUID[u] == s.byUID[u]
    requires Stranded(s, u) || s.byUID[u].conn == st.conn
    ensures Stranded(t, u)
  {
  }

  lemma ReceiveStrands(s: Server, conn: Conn, auth: Auth, msg: Message, env: Env, u: Uid)
    requires AllCoherent(s) && u != msg.uid && u in s.byUID
    requires Stranded(s, u) || (Accepted(s, conn, auth, msg, env) && s.byUID[u].conn == conn)
    ensures var t := Handle(s, conn, auth, msg, env).0;
            Stranded(t, u) && t.byUID[u] == s.byUID[u] && u in s.rows && u in t.rows && t.rows[u] == s.rows[u]
  {
    assert Coherent(s, msg.uid) && Coherent(s, u);
    hide Handle, Identify, Offer, Updated, NewConn, Put, Accepted;
    if Accepted(s, conn, auth, msg, env) {
      AcceptedMessage(s, conn, auth, msg, env);
      var t := Handle(s, conn, auth, msg, env).0;
      OthersSame(s, t, msg.uid, u);
      PutStrands(s, Identify(s, conn, auth, msg, env).1.st.(conn := conn), t, u);
    } else {
      RefusedMessage(s, conn, auth, msg, env);
    }
  }

  lemma OthersSame(s: Server, t: Server, uid: Uid, u: Uid)
    requires OthersKept(s, t, uid) && u != uid && u in s.byUID && u in s.rows
    ensures u in t.byUID && t.byUID[u] == s.byUID[u] && u in t.rows && t.rows[u] == s.rows[u]
  {
  }

  lemma CloseStrands(s: Server, conn: Conn, env: Env, u: Uid)
    requires AllCoherent(s) && Routed(s) && Stranded(s, u)
    ensures var t := Close(s, conn, env);
            Stranded(t, u) && t.byUID[u] == s.byUID[u] && u in s.rows && u in t.rows && t.rows[u] == s.rows[u]
  {
    assert Coherent(s, u);
    if conn in s.byConn {
      assert Coherent(s, s.byConn[conn]);
    }
  }

  lemma StrandedKept(s: Server, step: Step, u: Uid)
    requires AllCoherent(s) && Routed(s) && Stranded(s, u) && OfOthers(step, u) && !step.Restart?
    ensures var t := Next(s, step);
            && Stranded(t, u) && t.byUID[u] == s.byUID[u]
            && u in s.rows && u in t.rows && t.rows[u].connected == s.rows[u].connected
  {
    assert Coherent(s, u);
    match step
    case Receive(conn, auth, msg, env) =>
      hide Handle, Stranded;
      ReceiveStrands(s, conn, auth, msg, env, u);
    case Disconnect(conn, env) =>
      hide Close;
      CloseStrands(s, conn, env, u);
    case _ =>
  }

  /**
   A stranded agent stays registered, and its row as connected as it was, until it speaks again or the server
   restarts: no close of any connection, its own included, takes it offline.
   */
  lemma {:induction false} StrandedOverRuns(s: Server, steps: seq<Step>, u: Uid)
    requires AllCoherent(s) && Routed(s) && Stranded(s, u)
    requires forall i :: 0 <= i < |steps| ==> OfOthers(steps[i], u) && !steps[i].Restart?
    ensures var t := Run(s, steps);
            Stranded(t, u) && t.byUID[u] == s.byUID[u] && u in s.rows && u in t.rows
                && t.rows[u].connected == s.rows[u].connected
    decreases |steps|
  {
    assert Coherent(s, u);
    if steps == [] {
    } else {
      NextCoherent(s, steps[0]);
      NextRouted(s, steps[0]);
      StrandedKept(s, steps[0], u);
      StrandedOverRuns(Next(s, steps[0]), steps[1..], u);
    }
  }

  /** So an agent whose connection another agent also used stays registered when that connection closes. */
  lemma SharedConnectionStrands(s: Server, first: Step, steps: seq<Step>, u: Uid)
    requires AllCoherent(s) && Routed(s) && u in s.byUID && u in s.rows && first.Receive? && first.msg.uid != u
    requires Accepted(s, first.conn, first.auth, first.msg, first.env) && s.byUID[u].conn == first.conn
    requires forall i :: 0 <= i < |steps| ==> OfOthers(steps[i], u) && !steps[i].Restart?
    ensures var t := Run(Next(s, first), steps);
            u in t.byUID && t.byUID[u] == s.byUID[u] && u in t.rows && t.rows[u].connected == s.rows[u].connected
  {
    hide Handle, Accepted;
    ReceiveStrands(s, first.conn, first.auth, first.msg, first.env, u);
    NextCoherent(s, first);
    NextRouted(s, first);
    StrandedOverRuns(Next(s, first), steps, u);
  }

  // ---------------------------------------------------------------- presence

  /** A row shows its agent connected exactly when the agent is registered. */
  ghost predicate Present(s: Server) { forall u :: u in s.rows ==> (s.rows[u].connected <==> u in s.byUID) }

  /**
   A presence change whose write is lost: a first connect, the close of a current connection, a restart with
   agents connected.
   */
  predicate Lost(s: Server, step: Step) {
    match step
    case Receive(conn, auth, msg, env) => env.connect && Accepted(s, conn, auth, msg, env) && msg.uid !in s.byUID
    case Disconnect(conn, env) => env.connect && conn in s.byConn
    case Restart => s.byUID != map[]
    case _ => false
  }

  lemma ReceivePresent(s: Server, conn: Conn, auth: Auth, msg: Message, env: Env)
    requires AllCoherent(s) && Present(s)
    ensures Present(Handle(s, conn, auth, msg, env).0) <==> !Lost(s, Receive(conn, auth, msg, env))
  {
    assert Coherent(s, msg.uid);
    var t := Handle(s, conn, auth, msg, env).0;
    hide Handle, Identify, Offer, Updated;
    if Accepted(s, conn, auth, msg, env) {
      AcceptedMessage(s, conn, auth, msg, env);
      IdentifyKeeps(s, conn, auth, msg, env);
      if msg.uid in s.byUID {
        assert t.rows[msg.uid].connected;
      } else {
        assert t.rows[msg.uid].connected == !env.connect;
      }
    } else {
      RefusedMessage(s, conn, auth, msg, env);
    }
  }

  lemma ClosePresent(s: Server, conn: Conn, env: Env)
    requires AllCoherent(s) && Routed(s) && Present(s)
    ensures Present(Close(s, conn, env)) <==> !Lost(s, Disconnect(conn, env))
  {
    if conn in s.byConn {
      var u := s.byConn[conn];
      assert Coherent(s, u);
      assert u in Close(s, conn, env).rows;
    }
  }

  /** One step breaks the agreement exactly when it loses a presence change. */
  lemma PresenceExactly(s: Server, step: Step)
    requires AllCoherent(s) && Routed(s) && Present(s)
    ensures Present(Next(s, step)) <==> !Lost(s, step)
  {
    match step
    case Receive(conn, auth, msg, env) =>
      hide Handle, Lost;
      ReceivePresent(s, conn, auth, msg, env);
    case Disconnect(conn, env) =>
      hide Lost;
      ClosePresent(s, conn, env);
    case Restart =>
      if s.byUID != map[] {
        var u :| u in s.byUID;
        assert Coherent(s, u);
        assert u in Next(s, step).rows;
      }
    case _ =>
  }

  predicate NothingLost(s: Server, steps: seq<Step>)
    decreases |steps|
  {
    steps == [] || (!Lost(s, steps[0]) && NothingLost(Next(s, steps[0]), steps[1..]))
  }

  /** In every run that loses no presence change, a row shows connected exactly when the agent is registered. */
  lemma {:induction false} PresenceOverRuns(s: Server, steps: seq<Step>)
    requires AllCoherent(s) && Routed(s) && Present(s) && NothingLost(s, steps)
    ensures Present(Run(s, steps))
    decreases |steps|
  {
    if steps == [] {
    } else {
      NextCoherent(s, steps[0]);
      NextRouted(s, steps[0]);
      PresenceExactly(s, steps[0]);
      PresenceOverRuns(Next(s, steps[0]), steps[1..]);
    }
  }

  // ---------------------------------------------------------------- acknowledged hashes

  predicate AckAgrees(s: Server, u: Uid) { u in s.byUID && u in s.rows ==> s.rows[u].acked == s.byUID[u].acked }

  /** A report that changes the acknowledged hash and whose write is lost. */
  predicate AckLost(s: Server, step: Step, u: Uid) {
    && step.Receive? && step.env.ack && step.msg.uid == u && Accepted(s, step.conn, step.auth, step.msg, step.env)
    && MessageAck(RowAcked(s, u), step.msg) != RowAcked(s, u)
  }

  lemma ReceiveAck(s: Server, conn: Conn, auth: Auth, msg: Message, env: Env, u: Uid)
    requires AllCoherent(s) && AckAgrees(s, u)
    ensures AckAgrees(Handle(s, conn, auth, msg, env).0, u) <==> !AckLost(s, Receive(conn, auth, msg, env), u)
  {
    assert Coherent(s, msg.uid) && Coherent(s, u);
    hide Handle, Offer, Updated, NewConn;
    if Accepted(s, conn, auth, msg, env) {
      AcceptedMessage(s, conn, auth, msg, env);
      IdentifyKeeps(s, conn, auth, msg, env);
    } else {
      RefusedMessage(s, conn, auth, msg, env);
    }
  }

  /** One step makes memory and row disagree on the acknowledged hash exactly when it loses a change of it. */
  lemma AckExactly(s: Server, step: Step, u: Uid)
    requires AllCoherent(s) && AckAgrees(s, u)
    ensures AckAgrees(Next(s, step), u) <==> !AckLost(s, step, u)
  {
    match step
    case Receive(conn, auth, msg, env) =>
      hide Handle, AckLost;
      ReceiveAck(s, conn, auth, msg, env, u);
    case Disconnect(conn, env) =>
      if conn in s.byConn { assert Coherent(s, s.byConn[conn]); }
    case _ =>
  }

  predicate NoAckLost(s: Server, steps: seq<Step>, u: Uid)
    decreases |steps|
  {
    steps == [] || (!AckLost(s, steps[0], u) && NoAckLost(Next(s, steps[0]), steps[1..], u))
  }

  /** In every run that loses no change of the acknowledged hash, memory and row hold the same one. */
  lemma {:induction false} AckOverRuns(s: Server, steps: seq<Step>, u: Uid)
    requires AllCoherent(s) && AckAgrees(s, u) && NoAckLost(s, steps, u)
    ensures AckAgrees(Run(s, steps), u)
    decreases |steps|
  {
    if steps == [] {
    } else {
      NextCoherent(s, steps[0]);
      AckExactly(s, steps[0], u);
      AckOverRuns(Next(s, steps[0]), steps[1..], u);
    }
  }

  // ---------------------------------------------------------------- an agent that has the current config

  /** The in-sync flag shown for an agent: absent until a config is both assigned and acknowledged. */
  function ConfigInSync(row: Row): Option<bool> {
    if row.assignedHash == "" || row.acked == "" then None else Some(row.assignedHash == row.acked)
  }

  /** `h` is the current config of the agent's customer. */
  predicate Wants(s: Server, u: Uid, h: Hash) {
    u in s.rows && s.rows[u].customer.Some? && s.rows[u].customer.value in s.desired
    && s.desired[s.rows[u].customer.value] == h
  }

  /** The agent has acknowledged its customer's current config `h`, and row and memory know it. */
  predicate HasCurrent(s: Server, u: Uid, h: Hash) {
    Wants(s, u, h) && s.rows[u].acked == h && (u in s.byUID ==> s.byUID[u].acked == h)
  }

  /** The current config is the one recorded as assigned to the agent. */
  predicate Assigned(s: Server, u: Uid, h: Hash) { Wants(s, u, h) && s.rows[u].assignedHash == h }

  predicate InSync(s: Server, u: Uid, h: Hash) { h != "" && HasCurrent(s, u, h) && Assigned(s, u, h) }

  /** The step leaves the agent's customer with the config `h`. */
  predicate KeepsConfig(step: Step, customer: Customer, h: Hash) {
    step.Change? && step.customer == customer ==> step.hash == h
  }

  /** Nor does it report that the agent has another config or none. */
  predicate LeavesCurrent(step: Step, u: Uid, customer: Customer, h: Hash) {
    KeepsConfig(step, customer, h) && (step.Receive? && step.msg.uid == u ==> MessageAck(h, step.msg) == h)
  }

  predicate Unoffered(s: Server, step: Step, u: Uid) {
    step.Receive? && step.msg.uid == u && Handle(s, step.conn, step.auth, step.msg, step.env).1.Served? ==>
      Handle(s, step.conn, step.auth, step.msg, step.env).1 == Served(None)
  }

  predicate NeverOffered(s: Server, steps: seq<Step>, u: Uid)
    decreases |steps|
  {
    steps == [] || (Unoffered(s, steps[0], u) && NeverOffered(Next(s, steps[0]), steps[1..], u))
  }

  lemma ReceiveWants(s: Server, conn: Conn, auth: Auth, msg: Message, env: Env, u: Uid, h: Hash)
    requires AllCoherent(s) && Wants(s, u, h)
    ensures var t := Handle(s, conn, auth, msg, env).0;
            Wants(t, u, h) && t.rows[u].customer == s.rows[u].customer && (Assigned(s, u, h) ==> Assigned(t, u, h))
  {
    assert Coherent(s, msg.uid) && Coherent(s, u);
    hide Handle, Identify, Offer, Updated, NewConn;
    if Accepted(s, conn, auth, msg, env) {
      AcceptedMessage(s, conn, auth, msg, env);
      IdentifyKeeps(s, conn, auth, msg, env);
    } else {
      RefusedMessage(s, conn, auth, msg, env);
    }
  }

  /**
   Whatever happens, an agent keeps its customer, and an assigned current config stays assigned while it is
   current.
   */
  lemma NextWants(s: Server, step: Step, u: Uid, h: Hash)
    requires AllCoherent(s) && Wants(s, u, h) && KeepsConfig(step, s.rows[u].customer.value, h)
    ensures var t := Next(s, step);
            Wants(t, u, h) && t.rows[u].customer == s.rows[u].customer && (Assigned(s, u, h) ==> Assigned(t, u, h))
  {
    match step
    case Receive(conn, auth, msg, env) =>
      hide Handle;
      ReceiveWants(s, conn, auth, msg, env, u, h);
    case Disconnect(conn, env) =>
      if conn in s.byConn {
        assert Coherent(s, s.byConn[conn]);
      }
    case Notify(customer, failed) => assert Coherent(s, u);
    case _ =>
  }

  lemma ReceiveCurrent(s: Server, conn: Conn, auth: Auth, msg: Message, env: Env, u: Uid, h: Hash)
    requires AllCoherent(s) && h != "" && HasCurrent(s, u, h) && (msg.uid == u ==> MessageAck(h, msg) == h)
    ensures HasCurrent(Handle(s, conn, auth, msg, env).0, u, h) && Unoffered(s, Receive(conn, auth, msg, env), u)
  {
    assert Coherent(s, msg.uid) && Coherent(s, u);
    ReceiveWants(s, conn, auth, msg, env, u, h);
    hide Handle, Identify, Offer, Updated, NewConn;
    if Accepted(s, conn, auth, msg, env) {
      AcceptedMessage(s, conn, auth, msg, env);
      IdentifyKeeps(s, conn, auth, msg, env);
      UpdatedKeeps(s, conn, auth, msg, env);
      var (s3, st3) := Updated(s, conn, auth, msg, env);
      OfferPart(s3, st3, env);
    } else {
      RefusedMessage(s, conn, auth, msg, env);
    }
  }

  lemma NextCurrent(s: Server, step: Step, u: Uid, h: Hash)
    requires AllCoherent(s) && h != "" && HasCurrent(s, u, h) && LeavesCurrent(step, u, s.rows[u].customer.value, h)
    ensures HasCurrent(Next(s, step), u, h) && Unoffered(s, step, u)
  {
    NextWants(s, step, u, h);
    match step
    case Receive(conn, auth, msg, env) =>
      hide Handle;
      ReceiveCurrent(s, conn, auth, msg, env, u, h);
    case Disconnect(conn, env) =>
      if conn in s.byConn {
        assert Coherent(s, s.byConn[conn]);
      }
    case _ =>
  }

  /**
   Once an agent has acknowledged its customer's current config, no message of its is answered with an offer,
   whatever the row says is assigned, over every run of messages, reconnects, restarts, pushes and failing
   writes in which the config stays and the agent does not report another hash or none.
   */
  lemma {:induction false} CurrentIsNeverOffered(s: Server, steps: seq<Step>, u: Uid, h: Hash)
    requires AllCoherent(s) && h != "" && HasCurrent(s, u, h)
    requires forall i :: 0 <= i < |steps| ==> LeavesCurrent(steps[i], u, s.rows[u].customer.value, h)
    ensures HasCurrent(Run(s, steps), u, h) && NeverOffered(s, steps, u)
    ensures Run(s, steps).rows[u].customer == s.rows[u].customer && (InSync(s, u, h) ==> InSync(Run(s, steps), u, h))
    decreases |steps|
  {
    if steps == [] {
    } else {
      hide Unoffered;
      NextCoherent(s, steps[0]);
      NextWants(s, steps[0], u, h);
      NextCurrent(s, steps[0], u, h);
      CurrentIsNeverOffered(Next(s, steps[0]), steps[1..], u, h);
    }
  }

  /** And an agent in sync stays in sync and is shown so. */
  lemma InSyncIsLeftAlone(s: Server, steps: seq<Step>, u: Uid, h: Hash)
    requires AllCoherent(s) && InSync(s, u, h)
    requires forall i :: 0 <= i < |steps| ==> LeavesCurrent(steps[i], u, s.rows[u].customer.value, h)
    ensures InSync(Run(s, steps), u, h) && NeverOffered(s, steps, u)
    ensures ConfigInSync(Run(s, steps).rows[u]) == Some(true)
  {
    CurrentIsNeverOffered(s, steps, u, h);
  }

  // ---------------------------------------------------------------- comparing messages

  /** A message that makes the server compare hashes, from an agent that takes configs, whose config renders. */
  predicate Compares(s: Server, conn: Conn, auth: Auth, msg: Message, env: Env) {
    && Accepted(s, conn, auth, msg, env) && (NewConn(s, conn, msg.uid) || msg.described)
    && Accepts(Updated(s, conn, auth, msg, env).1.caps) && !env.render && auth.customer in s.desired
  }

  /** Such a message is answered with the current config exactly when the agent does not have it. */
  lemma OfferExactly(s: Server, conn: Conn, auth: Auth, msg: Message, env: Env)
    requires AllCoherent(s) && AckAgrees(s, msg.uid) && Compares(s, conn, auth, msg, env)
    ensures var h := s.desired[auth.customer];
            Handle(s, conn, auth, msg, env).1
                == Served(if MessageAck(RowAcked(s, msg.uid), msg) == h then None else Some(h))
  {
    assert Coherent(s, msg.uid);
    hide Handle, Identify, Updated, NewConn;
    AcceptedMessage(s, conn, auth, msg, env);
    IdentifyKeeps(s, conn, auth, msg, env);
    UpdatedKeeps(s, conn, auth, msg, env);
    KeptDesired(s, Updated(s, conn, auth, msg, env).0, msg.uid);
  }

  /** Its assigned-hash write, if it succeeds, records the current config. */
  lemma ComparingAssigns(s: Server, conn: Conn, auth: Auth, msg: Message, env: Env)
    requires AllCoherent(s) && Compares(s, conn, auth, msg, env) && !env.assign
    ensures Assigned(Handle(s, conn, auth, msg, env).0, msg.uid, s.desired[auth.customer])
  {
    assert Coherent(s, msg.uid);
    hide Identify, Register, TakeParts, NewConn;
    IdentifyKeeps(s, conn, auth, msg, env);
    UpdatedKeeps(s, conn, auth, msg, env);
    KeptDesired(s, Updated(s, conn, auth, msg, env).0, msg.uid);
  }

  /** A comparing message of an agent that has, or now reports, the current config brings it in sync. */
  lemma ComparingSettles(s: Server, conn: Conn, auth: Auth, msg: Message, env: Env)
    requires AllCoherent(s) && AckAgrees(s, msg.uid) && Compares(s, conn, auth, msg, env) && !env.assign && !env.ack
    requires s.desired[auth.customer] != "" && MessageAck(RowAcked(s, msg.uid), msg) == s.desired[auth.customer]
    ensures InSync(Handle(s, conn, auth, msg, env).0, msg.uid, s.desired[auth.customer])
  {
    ComparingAssigns(s, conn, auth, msg, env);
    assert Coherent(s, msg.uid);
    hide Handle, Identify, Updated, NewConn, Offer;
    AcceptedMessage(s, conn, auth, msg, env);
    IdentifyKeeps(s, conn, auth, msg, env);
  }

  lemma {:induction false} RunConcat(s: Server, a: seq<Step>, b: seq<Step>)
    ensures Run(s, a + b) == Run(Run(s, a), b)
    decreases |a|
  {
    if a == [] {
      assert a + b == b;
    } else {
      assert (a + b)[0] == a[0] && (a + b)[1..] == a[1..] + b;
      RunConcat(Next(s, a[0]), a[1..], b);
    }
  }

  /**
   An agent that has the current config, assigned or not, is in sync from its first comparing message whose
   assigned-hash write succeeds, for as long as the config stays and it reports no other.
   */
  lemma CurrentBecomesInSync(s: Server, before: seq<Step>, step: Step, after: seq<Step>, u: Uid, h: Hash)
    requires AllCoherent(s) && h != "" && HasCurrent(s, u, h)
    requires forall i :: 0 <= i < |before| ==> LeavesCurrent(before[i], u, s.rows[u].customer.value, h)
    requires forall i :: 0 <= i < |after| ==> LeavesCurrent(after[i], u, s.rows[u].customer.value, h)
    requires LeavesCurrent(step, u, s.rows[u].customer.value, h) && step.Receive? && step.msg.uid == u
    requires !step.env.assign
    requires Compares(Run(s, before), step.conn, step.auth, step.msg, step.env)
    ensures InSync(Run(s, before + [step] + after), u, h)
    ensures ConfigInSync(Run(s, before + [step] + after).rows[u]) == Some(true)
  {
    var mid := Run(s, before);
    CoherentRun(s, before);
    CurrentIsNeverOffered(s, before, u, h);
    NextCoherent(mid, step);
    NextWants(mid, step, u, h);
    NextCurrent(mid, step, u, h);
    ComparingAssigns(mid, step.conn, step.auth, step.msg, step.env);
    AcceptedCustomer(mid, step.conn, step.auth, step.msg, step.env);
    InSyncIsLeftAlone(Next(mid, step), after, u, h);
    RunConcat(s, before + [step], after);
    RunConcat(s, before, [step]);
  }

  lemma CoherentRun(s: Server, steps: seq<Step>)
    requires AllCoherent(s)
    ensures AllCoherent(Run(s, steps))
  {
    MemoryFollowsRows(s, steps);
  }

  lemma AcceptedCustomer(s: Server, conn: Conn, auth: Auth, msg: Message, env: Env)
    requires AllCoherent(s) && Accepted(s, conn, auth, msg, env) && msg.uid in s.rows
    ensures s.rows[msg.uid].customer == Some(auth.customer)
  {
    assert Coherent(s, msg.uid);
  }

  // ---------------------------------------------------------------- offers, pushes and acknowledgements

  /** A recorded offer assigns the current config. */
  lemma OfferAssigns(s: Server, step: Step, h: Hash)
    requires AllCoherent(s) && step.Receive? && !step.env.assign
    requires Handle(s, step.conn, step.auth, step.msg, step.env).1 == Served(Some(h))
    ensures Assigned(Next(s, step), step.msg.uid, h)
  {
    assert Coherent(s, step.msg.uid);
    hide Identify, Register, TakeParts, NewConn;
    if !Accepted(s, step.conn, step.auth, step.msg, step.env) {
      RefusedMessage(s, step.conn, step.auth, step.msg, step.env);
    } else {
      IdentifyKeeps(s, step.conn, step.auth, step.msg, step.env);
      UpdatedKeeps(s, step.conn, step.auth, step.msg, step.env);
    }
  }

  /** So does a push, for every capable registered agent of the customer whose write succeeds. */
  lemma PushAssigns(s: Server, customer: Customer, failed: set<Uid>, u: Uid)
    requires AllCoherent(s) && customer in s.desired && Pushed(s, customer, u) && u !in failed
    ensures var t := Next(s, Notify(customer, failed));
            Assigned(t, u, s.desired[customer]) && t.rows[u].customer == Some(customer)
  {
    assert Coherent(s, u);
  }

  lemma {:induction false} AssignedOverRuns(s: Server, steps: seq<Step>, u: Uid, h: Hash)
    requires AllCoherent(s) && Assigned(s, u, h)
    requires forall i :: 0 <= i < |steps| ==> KeepsConfig(steps[i], s.rows[u].customer.value, h)
    ensures Assigned(Run(s, steps), u, h) && Run(s, steps).rows[u].customer == s.rows[u].customer
    decreases |steps|
  {
    if steps == [] {
    } else {
      NextCoherent(s, steps[0]);
      NextWants(s, steps[0], u, h);
      AssignedOverRuns(Next(s, steps[0]), steps[1..], u, h);
    }
  }

  /** The agent acknowledges `h` in a message that is accepted, and the write of it succeeds. */
  predicate Acknowledges(s: Server, step: Step, u: Uid, h: Hash) {
    && step.Receive? && step.msg.uid == u && !step.env.ack && Accepted(s, step.conn, step.auth, step.msg, step.env)
    && step.msg.report.Some? && step.msg.report.value.hash == h
  }

  lemma AckSettles(s: Server, step: Step, u: Uid, h: Hash)
    requires AllCoherent(s) && AckAgrees(s, u) && h != "" && Assigned(s, u, h) && Acknowledges(s, step, u, h)
    ensures InSync(Next(s, step), u, h)
  {
    assert Coherent(s, u);
    hide Handle, Identify, Updated, NewConn, Offer;
    ReceiveWants(s, step.conn, step.auth, step.msg, step.env, u, h);
    AcceptedMessage(s, step.conn, step.auth, step.msg, step.env);
    IdentifyKeeps(s, step.conn, step.auth, step.msg, step.env);
  }

  /**
   Once a config is assigned, any run that keeps it current and loses no acknowledgement, followed by the
   agent's acknowledgement of it, brings the agent in sync.
   */
  lemma AssignedThenAck(s: Server, steps: seq<Step>, ack: Step, u: Uid, h: Hash)
    requires AllCoherent(s) && AckAgrees(s, u) && h != "" && Assigned(s, u, h) && NoAckLost(s, steps, u)
    requires forall i :: 0 <= i < |steps| ==> KeepsConfig(steps[i], s.rows[u].customer.value, h)
    requires Acknowledges(Run(s, steps), ack, u, h)
    ensures InSync(Next(Run(s, steps), ack), u, h)
  {
    CoherentRun(s, steps);
    AssignedOverRuns(s, steps, u, h);
    AckOverRuns(s, steps, u);
    AckSettles(Run(s, steps), ack, u, h);
  }

  /** A recorded offer, then any such run, then its acknowledgement brings the agent in sync. */
  lemma OfferThenAck(s: Server, offer: Step, steps: seq<Step>, ack: Step, h: Hash)
    requires AllCoherent(s) && offer.Receive? && h != "" && !offer.env.assign
    requires Handle(s, offer.conn, offer.auth, offer.msg, offer.env).1 == Served(Some(h))
    requires AckAgrees(s, offer.msg.uid) && NoAckLost(s, [offer] + steps, offer.msg.uid)
    requires forall i :: 0 <= i < |steps| ==> KeepsConfig(steps[i], offer.auth.customer, h)
    requires Acknowledges(Run(s, [offer] + steps), ack, offer.msg.uid, h)
    ensures InSync(Run(s, [offer] + steps + [ack]), offer.msg.uid, h)
  {
    var u, t := offer.msg.uid, Next(s, offer);
    assert ([offer] + steps)[1..] == steps;
    OfferAssigns(s, offer, h);
    NextCoherent(s, offer);
    AckExactly(s, offer, u);
    OfferedCustomer(s, offer, h);
    AssignedThenAck(t, steps, ack, u, h);
    RunConcat(s, [offer] + steps, [ack]);
  }

  lemma OfferedCustomer(s: Server, step: Step, h: Hash)
    requires AllCoherent(s) && step.Receive? && Handle(s, step.conn, step.auth, step.msg, step.env).1 == Served(Some(h))
    ensures step.msg.uid in Next(s, step).rows && Next(s, step).rows[step.msg.uid].customer == Some(step.auth.customer)
  {
    assert Coherent(s, step.msg.uid);
    hide Handle, Identify, Updated, NewConn, Offer;
    if !Accepted(s, step.conn, step.auth, step.msg, step.env) {
      RefusedMessage(s, step.conn, step.auth, step.msg, step.env);
    } else {
      AcceptedMessage(s, step.conn, step.auth, step.msg, step.env);
      IdentifyKeeps(s, step.conn, step.auth, step.msg, step.env);
    }
  }

  /** A push of the current config, then any such run, then its acknowledgement brings the agent in sync. */
  lemma PushThenAck(s: Server, customer: Customer, failed: set<Uid>, steps: seq<Step>, ack: Step, u: Uid)
    requires AllCoherent(s) && customer in s.desired && s.desired[customer] != "" && Pushed(s, customer, u)
    requires u !in failed
    requires AckAgrees(s, u) && NoAckLost(s, [Notify(customer, failed)] + steps, u)
    requires forall i :: 0 <= i < |steps| ==> KeepsConfig(steps[i], customer, s.desired[customer])
    requires Acknowledges(Run(s, [Notify(customer, failed)] + steps), ack, u, s.desired[customer])
    ensures InSync(Run(s, [Notify(customer, failed)] + steps + [ack]), u, s.desired[customer])
  {
    hide Next, AllCoherent, Assigned, InSync, Acknowledges, AckAgrees;
    var push, h := Notify(customer, failed), s.desired[customer];
    var t := Next(s, push);
    assert ([push] + steps)[1..] == steps;
    PushAssigns(s, customer, failed, u);
    NextCoherent(s, push);
    AckExactly(s, push, u);
    AssignedThenAck(t, steps, ack, u, h);
    RunConcat(s, [push] + steps, [ack]);
  }

  // ---------------------------------------------------------------- agents that come back

  predicate OfOthers(step: Step, u: Uid) { step.Receive? ==> step.msg.uid != u }

  lemma AbsentKept(s: Server, step: Step, u: Uid)
    requires AllCoherent(s) && u in s.rows && u !in s.byUID && OfOthers(step, u)
    ensures var t := Next(s, step); u in t.rows && u !in t.byUID && t.rows[u].acked == s.rows[u].acked
  {
    match step
    case Receive(conn, auth, msg, env) =>
      assert Coherent(s, msg.uid);
      hide Handle, Identify, Updated, NewConn, Offer;
      if Accepted(s, conn, auth, msg, env) {
        AcceptedMessage(s, conn, auth, msg, env);
      } else {
        RefusedMessage(s, conn, auth, msg, env);
      }
    case Disconnect(conn, env) =>
      if conn in s.byConn {
        assert Coherent(s, s.byConn[conn]);
      }
    case _ =>
  }

  lemma {:induction false} AbsentOverRuns(s: Server, steps: seq<Step>, u: Uid)
    requires AllCoherent(s) && u in s.rows && u !in s.byUID
    requires forall i :: 0 <= i < |steps| ==> OfOthers(steps[i], u)
    ensures var t := Run(s, steps); AllCoherent(t) && u in t.rows && u !in t.byUID && t.rows[u].acked == s.rows[u].acked
    decreases |steps|
  {
    if steps == [] {
    } else {
      NextCoherent(s, steps[0]);
      AbsentKept(s, steps[0], u);
      AbsentOverRuns(Next(s, steps[0]), steps[1..], u);
    }
  }

  /**
   Whatever happens while an agent is away, its next connect offers the config current at that moment,
   unless that is the one it acknowledged before leaving or reports now.
   */
  lemma ReconnectOffersCurrent(s: Server, steps: seq<Step>, conn: Conn, auth: Auth, msg: Message, env: Env)
    requires AllCoherent(s) && msg.uid in s.rows && msg.uid !in s.byUID
    requires forall i :: 0 <= i < |steps| ==> OfOthers(steps[i], msg.uid)
    requires Compares(Run(s, steps), conn, auth, msg, env)
    ensures var h := Run(s, steps).desired[auth.customer];
            Handle(Run(s, steps), conn, auth, msg, env).1
            == Served(if MessageAck(s.rows[msg.uid].acked, msg) == h then None else Some(h))
  {
    hide Compares, Handle;
    AbsentOverRuns(s, steps, msg.uid);
    OfferExactly(Run(s, steps), conn, auth, msg, env);
  }

  /** An agent that connects reporting no config is offered the current one, whatever its row says. */
  lemma UnsetIsOffered(s: Server, conn: Conn, auth: Auth, msg: Message, env: Env)
    requires AllCoherent(s) && AckAgrees(s, msg.uid) && Compares(s, conn, auth, msg, env)
    requires msg.report == Some(Report(Unset, "")) && s.desired[auth.customer] != ""
    ensures Handle(s, conn, auth, msg, env).1 == Served(Some(s.desired[auth.customer]))
  {
    hide Handle;
    OfferExactly(s, conn, auth, msg, env);
  }
}
