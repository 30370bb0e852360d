/**
 Which messages the OpAMP server accepts, and the statuses, events and webhooks each message and each run leaves
 behind.
 */
module OpAMPEvents {
  import opened Wrappers
  import opened OpAMP
  import opened OpAMPRuns

  // ---------------------------------------------------------------- which messages are accepted

  /** A per-agent token speaks for its own agent only. */
  predicate TokenFits(auth: Auth, id: AgentId) { auth.agentID.Some? ==> auth.agentID.value == id }

  /** The message enrolls a new agent. */
  predicate Enrolls(s: Server, msg: Message, env: Env) {
    msg.uid != "" && msg.uid !in s.byUID && !env.lookup && msg.uid !in s.rows && msg.described && !env.enroll
  }

  /** The agent is connected or stored, as the customer's, and the token fits it. */
  predicate KnownTo(s: Server, auth: Auth, msg: Message, env: Env) {
    if msg.uid in s.byUID then s.byUID[msg.uid].customer == auth.customer && TokenFits(auth, s.byUID[msg.uid].agentID)
    else
      && !env.lookup && msg.uid in s.rows
      && s.rows[msg.uid].customer == Some(auth.customer) && TokenFits(auth, s.rows[msg.uid].id)
  }

  /** The connection is not the one the agent is registered on. */
  predicate Arrives(s: Server, conn: Conn, u: Uid) { u in s.byUID ==> s.byUID[u].conn != conn }

  /** The row a new agent starts with. */
  function FirstRow(auth: Auth, msg: Message, env: Env): Row {
    Row(env.newID, Some(auth.customer), Some(msg.caps), "", "", Unset, None, false)
  }

  /**
   A message is served exactly when it is for an agent known to the customer and its token, or enrolls one the
   token fits; the full state is asked for exactly when the agent can be neither found nor enrolled.
   */
  lemma ServedExactly(s: Server, conn: Conn, auth: Auth, msg: Message, env: Env)
    ensures var reply := Handle(s, conn, auth, msg, env).1;
            && (reply.Served? <==>
                  msg.uid != "" && (KnownTo(s, auth, msg, env) || (Enrolls(s, msg, env) && TokenFits(auth, env.newID))))
            && (reply.AskFullState? <==>
                  && msg.uid != "" && msg.uid !in s.byUID
                  && (env.lookup || (msg.uid !in s.rows && (!msg.described || env.enroll))))
  {
    hide Register, TakeParts, Offer;
  }

  /** The agent a message is identified as starts from its memory, its row or a first row. */
  lemma IdentifiedAs(s: Server, conn: Conn, auth: Auth, msg: Message, env: Env)
    requires Coherent(s, msg.uid) && msg.uid != ""
    ensures var (t, r) := Identify(s, conn, auth, msg, env);
            && t == (if Enrolls(s, msg, env)
                     then s.(rows := s.rows[msg.uid := FirstRow(auth, msg, env)],
                             events := s.events + [Event(msg.uid, Enrolled)]) else s)
            && (r.Found? ==>
                  && r.st.uid == msg.uid && msg.uid in t.rows && Backs(t.rows[msg.uid], r.st)
                  && r.st.status == RowStatus(s, msg.uid) && r.st.healthy == RowHealth(s, msg.uid)
                  && r.st.acked == KnownAcked(s, msg.uid))
  {
  }

  // ---------------------------------------------------------------- what was known before

  function RowStatus(s: Server, u: Uid): Status { if u in s.rows then s.rows[u].status else Unset }

  function KnownAcked(s: Server, u: Uid): Hash { if u in s.byUID then s.byUID[u].acked else RowAcked(s, u) }

  // ---------------------------------------------------------------- what a message has to record

  /** The reported status and health, where their writes succeed. */
  function StatusAfter(before: Status, msg: Message, env: Env): Status {
    if msg.report.Some? && !env.status then msg.report.value.status else before
  }

  function HealthAfter(before: Option<bool>, msg: Message, env: Env): Option<bool> {
    if msg.health.Some? && !env.health then msg.health else before
  }

  /** The config event of a report: a new outcome, or an old one for a new config. */
  function ConfigEvents(was: Status, acked: Hash, r: Report): seq<EventKind> {
    var news := r.status != was || (r.hash != "" && r.hash != acked);
    match r.status
    case Applied => if news then [ConfigApplied] else []
    case Failed => if news then [ConfigFailed] else []
    case _ => []
  }

  function HealthEvents(was: Option<bool>, healthy: bool): seq<EventKind> {
    if was == Some(healthy) then [] else if healthy then [Healthy] else [Unhealthy]
  }

  /** The events of an accepted message, in order, given which writes fail. */
  function MessageKinds(s: Server, conn: Conn, msg: Message, env: Env): seq<EventKind> {
    (if Enrolls(s, msg, env) then [Enrolled] else [])
    + (if Arrives(s, conn, msg.uid) && !env.connect then [Connected] else [])
    + (if msg.report.Some? && !env.status
       then ConfigEvents(RowStatus(s, msg.uid), KnownAcked(s, msg.uid), msg.report.value) else [])
    + (if msg.health.Some? && !env.health then HealthEvents(RowHealth(s, msg.uid), msg.health.value) else [])
  }

  function Of(u: Uid, kinds: seq<EventKind>): seq<Event> {
    seq(|kinds|, i requires 0 <= i < |kinds| => Event(u, kinds[i]))
  }

  /** The webhook an event raises. */
  function HookFor(kind: EventKind): Option<HookKind> {
    match kind
    case ConfigFailed => Some(AgentConfigFailed)
    case Unhealthy => Some(AgentUnhealthy)
    case _ => None
  }

  function HooksOf(agent: AgentId, kinds: seq<EventKind>): seq<Hook> {
    if kinds == [] then []
    else
      var rest, kind := HooksOf(agent, kinds[..|kinds| - 1]), HookFor(kinds[|kinds| - 1]);
      if kind.Some? then rest + [Hook(agent, kind.value)] else rest
  }

  /** `t` has the events of `kinds`, and their webhooks, on top of those of `s`. */
  predicate Adds(s: Server, t: Server, u: Uid, agent: AgentId, kinds: seq<EventKind>) {
    t.events == s.events + Of(u, kinds) && t.hooks == s.hooks + HooksOf(agent, kinds)
  }

  lemma {:induction false} HooksConcat(agent: AgentId, a: seq<EventKind>, b: seq<EventKind>)
    ensures HooksOf(agent, a + b) == HooksOf(agent, a) + HooksOf(agent, b)
  {
    if b == [] {
      assert a + b == a;
    } else {
      assert (a + b)[..|a + b| - 1] == a + b[..|b| - 1];
      HooksConcat(agent, a, b[..|b| - 1]);
    }
  }

  lemma AddsConcat(s: Server, t: Server, v: Server, u: Uid, agent: AgentId, a: seq<EventKind>, b: seq<EventKind>)
    requires Adds(s, t, u, agent, a) && Adds(t, v, u, agent, b)
    ensures Adds(s, v, u, agent, a + b)
  {
    hide HooksOf;
    HooksConcat(agent, a, b);
    assert Of(u, a + b) == Of(u, a) + Of(u, b);
  }

  lemma AddsNothing(s: Server, t: Server, u: Uid, agent: AgentId)
    requires t.events == s.events && t.hooks == s.hooks
    ensures Adds(s, t, u, agent, [])
  {
    assert Of(u, []) == [];
  }

  lemma AddsOne(s: Server, t: Server, u: Uid, agent: AgentId, kind: EventKind)
    requires t.events == s.events + [Event(u, kind)]
    requires t.hooks == if HookFor(kind).Some? then s.hooks + [Hook(agent, HookFor(kind).value)] else s.hooks
    ensures Adds(s, t, u, agent, [kind])
  {
    assert HooksOf(agent, [kind][..0]) == [];
    assert Of(u, [kind]) == [Event(u, kind)];
  }

  // ---------------------------------------------------------------- the parts of a message

  lemma AckAdds(s: Server, st: AgentConn, r: Report, env: Env)
    requires Held(s, st)
    ensures var (t, st') := TakeAck(s, st, r, env);
            Held(t, st') && st' == st.(acked := st'.acked) && Adds(s, t, st.uid, st.agentID, [])
  {
    AckPart(s, st, r, env);
    AddsNothing(s, TakeAck(s, st, r, env).0, st.uid, st.agentID);
  }

  lemma StatusAdds(s: Server, st: AgentConn, r: Report, acked: Hash, env: Env)
    requires Held(s, st)
    ensures var (t, st') := TakeStatus(s, st, r, r.hash != "" && r.hash != acked, env);
            && Held(t, st') && st' == st.(status := if env.status then st.status else r.status)
            && Adds(s, t, st.uid, st.agentID, if env.status then [] else ConfigEvents(st.status, acked, r))
  {
    var newHash := r.hash != "" && r.hash != acked;
    var (t, _) := TakeStatus(s, st, r, newHash, env);
    var kinds := if env.status then [] else ConfigEvents(st.status, acked, r);
    if kinds == [] {
      AddsNothing(s, t, st.uid, st.agentID);
    } else {
      AddsOne(s, t, st.uid, st.agentID, kinds[0]);
    }
  }

  lemma HealthAdds(s: Server, st: AgentConn, healthy: bool, env: Env)
    requires Held(s, st)
    ensures var (t, st') := TakeHealth(s, st, healthy, env);
            && Held(t, st') && st' == st.(healthy := if env.health then st.healthy else Some(healthy))
            && Adds(s, t, st.uid, st.agentID, if env.health then [] else HealthEvents(st.healthy, healthy))
  {
    var (t, _) := TakeHealth(s, st, healthy, env);
    var kinds := if env.health then [] else HealthEvents(st.healthy, healthy);
    if kinds == [] {
      AddsNothing(s, t, st.uid, st.agentID);
    } else {
      AddsOne(s, t, st.uid, st.agentID, kinds[0]);
    }
  }

  /** The config events of a message that found the agent with this status and acknowledged hash. */
  function ReportKinds(st: AgentConn, msg: Message, env: Env): seq<EventKind> {
    if msg.report.Some? && !env.status then ConfigEvents(st.status, st.acked, msg.report.value) else []
  }

  function HealthKinds(st: AgentConn, msg: Message, env: Env): seq<EventKind> {
    if msg.health.Some? && !env.health then HealthEvents(st.healthy, msg.health.value) else []
  }

  lemma ReportAdds(s: Server, st: AgentConn, r: Report, env: Env)
    requires Held(s, st)
    ensures var (t, st') := TakeReport(s, st, r, env);
            && Held(t, st')
            && st' == st.(acked := st'.acked, status := if env.status then st.status else r.status)
            && Adds(s, t, st.uid, st.agentID, if env.status then [] else ConfigEvents(st.status, st.acked, r))
  {
    AckAdds(s, st, r, env);
    hide TakeAck, TakeStatus, ConfigEvents, Adds;
    var (s1, st1) := TakeAck(s, st, r, env);
    StatusAdds(s1, st1, r, st.acked, env);
    var t := TakeStatus(s1, st1, r, NewHash(st, r), env).0;
    var kinds := if env.status then [] else ConfigEvents(st.status, st.acked, r);
    AddsConcat(s, s1, t, st.uid, st.agentID, [], kinds);
    assert [] + kinds == kinds;
  }

  lemma PartsAdd(s: Server, st: AgentConn, msg: Message, env: Env)
    requires Held(s, st)
    ensures var (t, st') := TakeParts(s, st, msg, env);
            && Held(t, st')
            && st'.status == StatusAfter(st.status, msg, env) && st'.healthy == HealthAfter(st.healthy, msg, env)
            && Adds(s, t, st.uid, st.agentID, ReportKinds(st, msg, env) + HealthKinds(st, msg, env))
  {
    var s1, st1 := s, st;
    AddsNothing(s, s, st.uid, st.agentID);
    hide TakeReport, TakeHealth, ConfigEvents, HealthEvents, Adds;
    if msg.report.Some? {
      ReportAdds(s, st, msg.report.value, env);
      var p := TakeReport(s, st, msg.report.value, env);
      s1, st1 := p.0, p.1;
    }
    AddsNothing(s1, s1, st.uid, st.agentID);
    if msg.health.Some? {
      HealthAdds(s1, st1, msg.health.value, env);
    }
    AddsConcat(s, s1, TakeParts(s, st, msg, env).0, st.uid, st.agentID, ReportKinds(st, msg, env),
               HealthKinds(st, msg, env));
  }

  lemma RegisterAdds(s: Server, st: AgentConn, conn: Conn, msg: Message, known: bool, newConn: bool, env: Env)
    requires st.uid in s.rows && Backs(s.rows[st.uid], st)
    ensures var (t, st') := Register(s, st, conn, msg, known, newConn, env);
            && Held(t, st') && st' == st.(conn := st'.conn, caps := st'.caps)
            && Adds(s, t, st.uid, st.agentID, if newConn && !env.connect then [Connected] else [])
  {
    var t := Register(s, st, conn, msg, known, newConn, env).0;
    if newConn && !env.connect {
      AddsOne(s, t, st.uid, st.agentID, Connected);
    } else {
      AddsNothing(s, t, st.uid, st.agentID);
    }
  }

  lemma IdentifyAdds(s: Server, conn: Conn, auth: Auth, msg: Message, env: Env, agent: AgentId)
    requires Coherent(s, msg.uid) && msg.uid != ""
    ensures Adds(s, Identify(s, conn, auth, msg, env).0, msg.uid, agent,
                 if Enrolls(s, msg, env) then [Enrolled] else [])
  {
    IdentifiedAs(s, conn, auth, msg, env);
    hide Identify;
    var t := Identify(s, conn, auth, msg, env).0;
    if Enrolls(s, msg, env) {
      AddsOne(s, t, msg.uid, agent, Enrolled);
    } else {
      AddsNothing(s, t, msg.uid, agent);
    }
  }

  // ---------------------------------------------------------------- one message

  /** Row and memory of the message's agent: the reported status and health, where their writes succeed. */
  predicate Recorded(s: Server, t: Server, msg: Message, env: Env) {
    && msg.uid in t.rows && msg.uid in t.byUID && Backs(t.rows[msg.uid], t.byUID[msg.uid])
    && t.rows[msg.uid].status == StatusAfter(RowStatus(s, msg.uid), msg, env)
    && t.rows[msg.uid].healthy == HealthAfter(RowHealth(s, msg.uid), msg, env)
  }

  /** The events of finding and registering the agent. */
  function ArrivalKinds(s: Server, conn: Conn, msg: Message, env: Env): seq<EventKind> {
    (if Enrolls(s, msg, env) then [Enrolled] else [])
    + (if Arrives(s, conn, msg.uid) && !env.connect then [Connected] else [])
  }

  lemma AttachedAdds(s: Server, conn: Conn, auth: Auth, msg: Message, env: Env)
    requires Coherent(s, msg.uid) && Accepted(s, conn, auth, msg, env)
    ensures var (t, st) := Attached(s, conn, auth, msg, env);
            && Held(t, st) && st.uid == msg.uid && Adds(s, t, msg.uid, st.agentID, ArrivalKinds(s, conn, msg, env))
            && st.status == RowStatus(s, msg.uid) && st.healthy == RowHealth(s, msg.uid)
            && st.acked == KnownAcked(s, msg.uid)
  {
    IdentifiedAs(s, conn, auth, msg, env);
    hide Identify, Register, NewConn, Adds, Enrolls, FirstRow, Coherent, RowStatus, RowHealth, KnownAcked;
    var (s1, r) := Identify(s, conn, auth, msg, env);
    var agent, newConn := r.st.agentID, NewConn(s, conn, msg.uid);
    IdentifyAdds(s, conn, auth, msg, env, agent);
    RegisterAdds(s1, r.st, conn, msg, msg.uid in s.byUID, newConn, env);
    AddsConcat(s, s1, Attached(s, conn, auth, msg, env).0, msg.uid, agent,
               if Enrolls(s, msg, env) then [Enrolled] else [], if newConn && !env.connect then [Connected] else []);
  }

  lemma KindsSplit(s: Server, conn: Conn, st: AgentConn, msg: Message, env: Env)
    requires st.status == RowStatus(s, msg.uid) && st.healthy == RowHealth(s, msg.uid)
    requires st.acked == KnownAcked(s, msg.uid)
    ensures MessageKinds(s, conn, msg, env)
            == ArrivalKinds(s, conn, msg, env) + (ReportKinds(st, msg, env) + HealthKinds(st, msg, env))
  {
    hide Arrives, Enrolls, RowStatus, RowHealth, KnownAcked, ConfigEvents, HealthEvents;
  }

  lemma UpdatedAdds(s: Server, conn: Conn, auth: Auth, msg: Message, env: Env)
    requires Coherent(s, msg.uid) && Accepted(s, conn, auth, msg, env)
    ensures var (t, st) := Updated(s, conn, auth, msg, env);
            && Held(t, st) && st.uid == msg.uid && Recorded(s, t, msg, env)
            && Adds(s, t, msg.uid, st.agentID, MessageKinds(s, conn, msg, env))
  {
    hide Attached, TakeParts, Adds, Identify, Coherent, RowStatus, RowHealth, KnownAcked, MessageKinds, ArrivalKinds,
         ReportKinds, HealthKinds, Accepted;
    AttachedAdds(s, conn, auth, msg, env);
    var (s2, st2) := Attached(s, conn, auth, msg, env);
    PartsAdd(s2, st2, msg, env);
    PartsAgent(s2, st2, msg, env);
    KindsSplit(s, conn, st2, msg, env);
    AddsConcat(s, s2, Updated(s, conn, auth, msg, env).0, msg.uid, st2.agentID, ArrivalKinds(s, conn, msg, env),
               ReportKinds(st2, msg, env) + HealthKinds(st2, msg, env));
  }

  lemma PartsAgent(s: Server, st: AgentConn, msg: Message, env: Env)
    requires Held(s, st)
    ensures TakeParts(s, st, msg, env).1.agentID == st.agentID && TakeParts(s, st, msg, env).1.uid == st.uid
  {
    hide TakeParts;
    Parts(s, st, msg, env);
  }

  lemma OfferAdds(s: Server, st: AgentConn, msg: Message, env: Env, s0: Server)
    requires Held(s, st) && st.uid == msg.uid && Recorded(s0, s, msg, env)
    ensures var t := Offer(s, st, env).0; t.events == s.events && t.hooks == s.hooks && Recorded(s0, t, msg, env)
    ensures Offer(s, st, env).0.byUID == s.byUID
  {
  }

  /**
   A served message records the reported status and health, logs exactly the events its news call for, and raises
   the webhook of each of those and no other; a message that is not served logs at most an enrolment.
   */
  lemma MessageRecords(s: Server, conn: Conn, auth: Auth, msg: Message, env: Env)
    requires Coherent(s, msg.uid)
    ensures var (t, reply) := Handle(s, conn, auth, msg, env);
            if reply.Served? then
              && Recorded(s, t, msg, env)
              && Adds(s, t, msg.uid, t.rows[msg.uid].id, MessageKinds(s, conn, msg, env))
            else
              && Adds(s, t, msg.uid, "", if Enrolls(s, msg, env) then [Enrolled] else [])
              && t.byUID == s.byUID
  {
    ServedExactly(s, conn, auth, msg, env);
    if msg.uid == "" {
      AddsNothing(s, s, msg.uid, "");
    } else if Accepted(s, conn, auth, msg, env) {
      UpdatedAdds(s, conn, auth, msg, env);
      hide Identify, Register, TakeParts, Offer, NewConn, MessageKinds, Recorded;
      var (s3, st3) := Updated(s, conn, auth, msg, env);
      OfferAdds(s3, st3, msg, env, s);
      SameAgent(s3, st3, Handle(s, conn, auth, msg, env).0, s, msg, env);
    } else {
      IdentifyAdds(s, conn, auth, msg, env, "");
      IdentifyKeeps(s, conn, auth, msg, env);
      hide Identify, Register, TakeParts, Offer, Adds, OthersKept;
    }
  }

  lemma SameAgent(s: Server, st: AgentConn, t: Server, s0: Server, msg: Message, env: Env)
    requires Held(s, st) && st.uid == msg.uid && t.byUID == s.byUID && Recorded(s0, t, msg, env)
    ensures t.rows[msg.uid].id == st.agentID
  {
  }

  // ---------------------------------------------------------------- the row and memory after a message

  function KnownId(s: Server, u: Uid, env: Env): AgentId {
    if u in s.byUID then s.byUID[u].agentID else if u in s.rows then s.rows[u].id else env.newID
  }

  function KnownCaps(s: Server, u: Uid): nat {
    if u in s.byUID then s.byUID[u].caps else if u in s.rows && s.rows[u].caps.Some? then s.rows[u].caps.value else 0
  }

  /** The acknowledged hash: the reported one, none for a report without a config, else as before. */
  function AckAfter(before: Hash, msg: Message): Hash {
    match msg.report
    case None => before
    case Some(r) => if r.hash != "" then r.hash else if r.status == Unset then "" else before
  }

  function MemoryAfter(s: Server, conn: Conn, auth: Auth, msg: Message, env: Env): AgentConn {
    AgentConn(conn, msg.uid, KnownId(s, msg.uid, env), auth.customer,
              if msg.caps != 0 then msg.caps else KnownCaps(s, msg.uid), AckAfter(KnownAcked(s, msg.uid), msg),
              StatusAfter(RowStatus(s, msg.uid), msg, env), HealthAfter(RowHealth(s, msg.uid), msg, env))
  }

  /** The report changes the acknowledged hash the database has to keep. */
  predicate WritesAck(acked: Hash, msg: Message) {
    match msg.report
    case None => false
    case Some(r) => (r.hash != "" && r.hash != acked) || (r.hash == "" && r.status == Unset)
  }

  /** The agent takes remote configs: bit 1 of its capabilities. */
  predicate TakesConfig(caps: nat) { caps % 4 >= 2 }

  lemma AcceptsIs(caps: nat)
    ensures Accepts(caps) <==> TakesConfig(caps)
  {
  }

  /** The message compares the agent's config with the current one and records that as assigned. */
  predicate WritesAssigned(s: Server, conn: Conn, auth: Auth, msg: Message, env: Env) {
    && (Arrives(s, conn, msg.uid) || msg.described) && !env.render && !env.assign && auth.customer in s.desired
    && TakesConfig(if msg.caps != 0 then msg.caps else KnownCaps(s, msg.uid))
  }

  /** The row the agent had, or starts with. */
  function RowBefore(s: Server, auth: Auth, msg: Message, env: Env): Row {
    if msg.uid in s.rows then s.rows[msg.uid] else FirstRow(auth, msg, env)
  }

  function RowAfter(s: Server, conn: Conn, auth: Auth, msg: Message, env: Env): Row {
    var row, u := RowBefore(s, auth, msg, env), msg.uid;
    Row(row.id, row.customer,
        if msg.described && u in s.byUID && !env.describe && msg.caps != 0 then Some(msg.caps) else row.caps,
        if WritesAssigned(s, conn, auth, msg, env) then s.desired[auth.customer] else row.assignedHash,
        if WritesAck(KnownAcked(s, u), msg) && !env.ack then AckAfter(KnownAcked(s, u), msg) else row.acked,
        StatusAfter(row.status, msg, env), HealthAfter(row.healthy, msg, env),
        row.connected || (Arrives(s, conn, u) && !env.connect))
  }

  lemma AckRow(s: Server, st: AgentConn, msg: Message, env: Env)
    requires Held(s, st) && msg.report.Some?
    ensures var (t, st') := TakeAck(s, st, msg.report.value, env);
            && Held(t, st') && st' == st.(acked := AckAfter(st.acked, msg)) && t.desired == s.desired
            && t.rows == s.rows[st.uid := s.rows[st.uid].(acked := if WritesAck(st.acked, msg) && !env.ack
                                                                   then AckAfter(st.acked, msg)
                                                                   else s.rows[st.uid].acked)]
  {
  }

  lemma StatusRow(s: Server, st: AgentConn, r: Report, newHash: bool, env: Env)
    requires Held(s, st)
    ensures var (t, st') := TakeStatus(s, st, r, newHash, env);
            && Held(t, st') && st' == st.(status := if env.status then st.status else r.status)
            && t.desired == s.desired
            && t.rows == s.rows[st.uid := s.rows[st.uid].(status := if env.status then st.status else r.status)]
  {
  }

  lemma HealthRow(s: Server, st: AgentConn, healthy: bool, env: Env)
    requires Held(s, st)
    ensures var (t, st') := TakeHealth(s, st, healthy, env);
            var now := if env.health then st.healthy else Some(healthy);
            && Held(t, st') && st' == st.(healthy := now) && t.desired == s.desired
            && t.rows == s.rows[st.uid := s.rows[st.uid].(healthy := now)]
  {
  }

  lemma PartsRow(s: Server, st: AgentConn, msg: Message, env: Env)
    requires Held(s, st)
    ensures var (t, st') := TakeParts(s, st, msg, env);
            var row := s.rows[st.uid];
            && Held(t, st') && t.desired == s.desired
            && st' == st.(acked := AckAfter(st.acked, msg), status := StatusAfter(st.status, msg, env),
                          healthy := HealthAfter(st.healthy, msg, env))
            && t.rows[st.uid] == row.(acked := if WritesAck(st.acked, msg) && !env.ack then AckAfter(st.acked, msg)
                                               else row.acked,
                                      status := StatusAfter(row.status, msg, env),
                                      healthy := HealthAfter(row.healthy, msg, env))
  {
    hide TakeAck, TakeStatus, TakeHealth, NewHash;
    var s1, st1 := s, st;
    if msg.report.Some? {
      AckRow(s, st, msg, env);
      var (sa, sta) := TakeAck(s, st, msg.report.value, env);
      StatusRow(sa, sta, msg.report.value, NewHash(st, msg.report.value), env);
      var p := TakeReport(s, st, msg.report.value, env);
      s1, st1 := p.0, p.1;
    }
    if msg.health.Some? {
      HealthRow(s1, st1, msg.health.value, env);
    }
  }

  lemma FoundAgent(s: Server, conn: Conn, auth: Auth, msg: Message, env: Env)
    requires Coherent(s, msg.uid) && Accepted(s, conn, auth, msg, env)
    ensures var (t, r) := Identify(s, conn, auth, msg, env);
            && r.st.agentID == KnownId(s, msg.uid, env) && r.st.customer == auth.customer
            && (msg.caps == 0 ==> r.st.caps == KnownCaps(s, msg.uid))
            && msg.uid in t.rows && t.rows[msg.uid] == RowBefore(s, auth, msg, env) && t.desired == s.desired
  {
  }

  lemma RegisterRow(s: Server, st: AgentConn, conn: Conn, msg: Message, known: bool, newConn: bool, env: Env)
    requires st.uid in s.rows && Backs(s.rows[st.uid], st)
    ensures var (t, st') := Register(s, st, conn, msg, known, newConn, env);
            var row := s.rows[st.uid];
            && Held(t, st') && t.desired == s.desired
            && st' == st.(conn := conn, caps := if msg.caps != 0 then msg.caps else st.caps)
            && t.rows[st.uid] == row.(
                 caps := if msg.described && known && !env.describe && msg.caps != 0 then Some(msg.caps) else row.caps,
                 connected := row.connected || (newConn && !env.connect))
  {
  }

  lemma ArrivedRow(s: Server, conn: Conn, auth: Auth, msg: Message, env: Env)
    requires Coherent(s, msg.uid) && Accepted(s, conn, auth, msg, env)
    ensures var (t, st) := Attached(s, conn, auth, msg, env);
            var row, u := RowBefore(s, auth, msg, env), msg.uid;
            && Held(t, st) && t.desired == s.desired
            && st == AgentConn(conn, u, KnownId(s, u, env), auth.customer,
                               if msg.caps != 0 then msg.caps else KnownCaps(s, u), KnownAcked(s, u),
                               RowStatus(s, u), RowHealth(s, u))
            && t.rows[u] == row.(
                 caps := if msg.described && u in s.byUID && !env.describe && msg.caps != 0 then Some(msg.caps)
                         else row.caps,
                 connected := row.connected || (Arrives(s, conn, u) && !env.connect))
  {
    IdentifiedAs(s, conn, auth, msg, env);
    FoundAgent(s, conn, auth, msg, env);
    hide Identify, Register, RowBefore, KnownId, KnownCaps, KnownAcked, RowStatus, RowHealth, Enrolls, FirstRow,
         Coherent;
    var (s1, r) := Identify(s, conn, auth, msg, env);
    RegisterRow(s1, r.st, conn, msg, msg.uid in s.byUID, NewConn(s, conn, msg.uid), env);
  }

  lemma OfferRow(s: Server, st: AgentConn, env: Env)
    requires Held(s, st)
    ensures var (t, offer) := Offer(s, st, env);
            && t.byUID == s.byUID && st.uid in t.rows
            && t.rows[st.uid] == s.rows[st.uid].(
                 assignedHash := if TakesConfig(st.caps) && !env.render && st.customer in s.desired && !env.assign
                                 then s.desired[st.customer] else s.rows[st.uid].assignedHash)
  {
    AcceptsIs(st.caps);
    hide Accepts, TakesConfig;
  }

  /** A served message, whatever writes fail, leaves exactly this row and memory for its agent. */
  lemma MessageUpdates(s: Server, conn: Conn, auth: Auth, msg: Message, env: Env)
    requires Coherent(s, msg.uid) && Handle(s, conn, auth, msg, env).1.Served?
    ensures var t := Handle(s, conn, auth, msg, env).0;
            && msg.uid in t.rows && t.rows[msg.uid] == RowAfter(s, conn, auth, msg, env)
            && msg.uid in t.byUID && t.byUID[msg.uid] == MemoryAfter(s, conn, auth, msg, env)
  {
    assert Accepted(s, conn, auth, msg, env);
    ArrivedRow(s, conn, auth, msg, env);
    hide Identify, Attached, TakeParts, Offer, NewConn, AckAfter, WritesAck, TakesConfig, KnownAcked, KnownCaps,
         KnownId, RowStatus, RowHealth, FirstRow, Coherent;
    var (s2, st2) := Attached(s, conn, auth, msg, env);
    PartsRow(s2, st2, msg, env);
    var (s3, st3) := Updated(s, conn, auth, msg, env);
    OfferRow(s3, st3, env);
  }

  // ---------------------------------------------------------------- closing and pushing

  /**
   Closing an agent's current connection unregisters it and, where the write succeeds, marks its row disconnected
   and logs that; nobody else's row or registration changes.
   */
  lemma CloseRecords(s: Server, conn: Conn, env: Env, u: Uid)
    requires AllCoherent(s) && conn in s.byConn && s.byConn[conn] == u && u in s.byUID && s.byUID[u].conn == conn
    ensures var t := Close(s, conn, env);
            && u in s.rows && t.byUID == s.byUID - {u} && t.byConn == s.byConn - {conn} && t.desired == s.desired
            && t.rows == s.rows[u := s.rows[u].(connected := env.connect && s.rows[u].connected)]
            && t.events == (if env.connect then s.events else s.events + [Event(u, Disconnected)])
            && t.hooks == s.hooks + [Hook(s.rows[u].id, AgentOffline)]
  {
    assert Coherent(s, u);
  }

  /** A push records the current hash for exactly the customer's connected agents that take configs. */
  lemma PushRecords(s: Server, customer: Customer, failed: set<Uid>, u: Uid)
    requires AllCoherent(s) && u in s.rows
    ensures var t := Push(s, customer, failed);
            && t.byUID == s.byUID && t.events == s.events && t.hooks == s.hooks && u in t.rows
            && t.rows[u] == s.rows[u].(
                 assignedHash := if && customer in s.desired && u in s.byUID && s.byUID[u].customer == customer
                                    && TakesConfig(s.byUID[u].caps) && u !in failed
                                 then s.desired[customer] else s.rows[u].assignedHash)
  {
    hide Accepts, TakesConfig;
    assert Coherent(s, u);
    if u in s.byUID {
      AcceptsIs(s.byUID[u].caps);
    }
  }

  // ---------------------------------------------------------------- webhooks over runs

  function Alarms(hooks: seq<Hook>): seq<Hook> {
    if hooks == [] then []
    else
      var rest, h := Alarms(hooks[..|hooks| - 1]), hooks[|hooks| - 1];
      if h.kind == AgentOffline then rest else rest + [h]
  }

  function Offlines(hooks: seq<Hook>): seq<Hook> {
    if hooks == [] then []
    else
      var rest, h := Offlines(hooks[..|hooks| - 1]), hooks[|hooks| - 1];
      if h.kind == AgentOffline then rest + [h] else rest
  }

  function IdOf(rows: map<Uid, Row>, u: Uid): AgentId { if u in rows then rows[u].id else "" }

  /** The webhooks the logged events call for, in order. */
  function CalledFor(events: seq<Event>, rows: map<Uid, Row>): seq<Hook> {
    if events == [] then []
    else
      var rest, e := CalledFor(events[..|events| - 1], rows), events[|events| - 1];
      if HookFor(e.kind).Some? then rest + [Hook(IdOf(rows, e.uid), HookFor(e.kind).value)] else rest
  }

  /** Apart from offline notices, the webhooks raised are those the events call for. */
  predicate AlarmsMatch(s: Server) {
    && (forall e :: e in s.events && HookFor(e.kind).Some? ==> e.uid in s.rows)
    && Alarms(s.hooks) == CalledFor(s.events, s.rows)
  }

  predicate IdsKept(s: Server, t: Server) { forall u :: u in s.rows ==> u in t.rows && t.rows[u].id == s.rows[u].id }

  lemma {:induction false} AlarmsConcat(a: seq<Hook>, b: seq<Hook>)
    ensures Alarms(a + b) == Alarms(a) + Alarms(b) && Offlines(a + b) == Offlines(a) + Offlines(b)
  {
    if b == [] {
      assert a + b == a;
    } else {
      assert (a + b)[..|a + b| - 1] == a + b[..|b| - 1];
      AlarmsConcat(a, b[..|b| - 1]);
    }
  }

  lemma {:induction false} CalledForConcat(a: seq<Event>, b: seq<Event>, rows: map<Uid, Row>)
    ensures CalledFor(a + b, rows) == CalledFor(a, rows) + CalledFor(b, rows)
  {
    if b == [] {
      assert a + b == a;
    } else {
      assert (a + b)[..|a + b| - 1] == a + b[..|b| - 1];
      CalledForConcat(a, b[..|b| - 1], rows);
    }
  }

  lemma {:induction false} CalledForKept(events: seq<Event>, s: Server, t: Server)
    requires IdsKept(s, t) && forall e :: e in events && HookFor(e.kind).Some? ==> e.uid in s.rows
    ensures CalledFor(events, t.rows) == CalledFor(events, s.rows)
  {
    if events == [] {
    } else {
      assert events[|events| - 1] in events;
      CalledForKept(events[..|events| - 1], s, t);
    }
  }

  lemma CalledForOne(events: seq<Event>, e: Event, rows: map<Uid, Row>)
    ensures CalledFor(events + [e], rows)
            == if HookFor(e.kind).Some? then CalledFor(events, rows) + [Hook(IdOf(rows, e.uid), HookFor(e.kind).value)]
               else CalledFor(events, rows)
  {
    assert (events + [e])[..|events|] == events;
  }

  lemma {:induction false} CalledForOf(u: Uid, kinds: seq<EventKind>, rows: map<Uid, Row>)
    ensures CalledFor(Of(u, kinds), rows) == HooksOf(IdOf(rows, u), kinds)
    decreases |kinds|
  {
    if kinds == [] {
    } else {
      var before, kind := kinds[..|kinds| - 1], kinds[|kinds| - 1];
      CalledForOf(u, before, rows);
      assert Of(u, kinds) == Of(u, before) + [Event(u, kind)];
      CalledForOne(Of(u, before), Event(u, kind), rows);
    }
  }

  lemma {:induction false} HooksAreAlarms(agent: AgentId, kinds: seq<EventKind>)
    ensures Alarms(HooksOf(agent, kinds)) == HooksOf(agent, kinds) && Offlines(HooksOf(agent, kinds)) == []
    decreases |kinds|
  {
    if kinds == [] {
    } else {
      HooksAreAlarms(agent, kinds[..|kinds| - 1]);
    }
  }

  /** Events of one agent with their webhooks, or neither, keep the match. */
  lemma AddsMatch(s: Server, t: Server, u: Uid, agent: AgentId, kinds: seq<EventKind>)
    requires AlarmsMatch(s) && IdsKept(s, t) && Adds(s, t, u, agent, kinds)
    requires if u in t.rows then agent == t.rows[u].id else kinds == []
    ensures AlarmsMatch(t) && Offlines(t.hooks) == Offlines(s.hooks)
  {
    var more, hooks := Of(u, kinds), HooksOf(agent, kinds);
    if u !in t.rows {
      assert more == [] && hooks == [] && s.events + more == s.events && s.hooks + hooks == s.hooks;
      CalledForKept(s.events, s, t);
    } else {
      hide Alarms, Offlines, CalledFor, HooksOf;
      AlarmsConcat(s.hooks, hooks);
      CalledForConcat(s.events, more, t.rows);
      CalledForKept(s.events, s, t);
      CalledForOf(u, kinds, t.rows);
      HooksAreAlarms(agent, kinds);
      assert Offlines(s.hooks) + [] == Offlines(s.hooks);
    }
  }

  lemma ReceiveKeepsIds(s: Server, conn: Conn, auth: Auth, msg: Message, env: Env)
    requires AllCoherent(s)
    ensures var (t, reply) := Handle(s, conn, auth, msg, env);
            IdsKept(s, t) && (reply.Served? || Enrolls(s, msg, env) ==> msg.uid in t.rows)
  {
    assert Coherent(s, msg.uid);
    if Accepted(s, conn, auth, msg, env) {
      assert Handle(s, conn, auth, msg, env).1.Served?;
      hide Handle, Identify, Offer, Updated, NewConn, AgentUpdated, RowAfter, MemoryAfter, Accepted;
      AcceptedMessage(s, conn, auth, msg, env);
      MessageUpdates(s, conn, auth, msg, env);
      RowAfterId(s, conn, auth, msg, env);
    } else if msg.uid != "" {
      IdentifiedAs(s, conn, auth, msg, env);
      hide Identify, Register, TakeParts, Offer;
    }
  }

  lemma RowAfterId(s: Server, conn: Conn, auth: Auth, msg: Message, env: Env)
    ensures msg.uid in s.rows ==> RowAfter(s, conn, auth, msg, env).id == s.rows[msg.uid].id
  {
  }

  lemma ReceiveMatches(s: Server, conn: Conn, auth: Auth, msg: Message, env: Env)
    requires AllCoherent(s) && AlarmsMatch(s)
    ensures var t := Handle(s, conn, auth, msg, env).0; AlarmsMatch(t) && Offlines(t.hooks) == Offlines(s.hooks)
  {
    assert Coherent(s, msg.uid);
    hide Handle, MessageKinds, AlarmsMatch, IdsKept, Recorded;
    ReceiveKeepsIds(s, conn, auth, msg, env);
    MessageRecords(s, conn, auth, msg, env);
    var (t, reply) := Handle(s, conn, auth, msg, env);
    if reply.Served? {
      AddsMatch(s, t, msg.uid, t.rows[msg.uid].id, MessageKinds(s, conn, msg, env));
    } else if Enrolls(s, msg, env) {
      EnrolledAdds(s, t, msg.uid, t.rows[msg.uid].id);
      AddsMatch(s, t, msg.uid, t.rows[msg.uid].id, [Enrolled]);
    } else {
      EmptyAdds(s, t, msg.uid);
      AddsMatch(s, t, msg.uid, IdOf(t.rows, msg.uid), []);
    }
  }

  lemma EnrolledAdds(s: Server, t: Server, u: Uid, agent: AgentId)
    requires Adds(s, t, u, "", [Enrolled])
    ensures Adds(s, t, u, agent, [Enrolled])
  {
    assert HooksOf("", [Enrolled]) == [] && HooksOf(agent, [Enrolled]) == [];
  }

  lemma EmptyAdds(s: Server, t: Server, u: Uid)
    requires Adds(s, t, u, "", [])
    ensures forall agent :: Adds(s, t, u, agent, [])
  {
  }

  /** The offline notices of a run: one for each close of a connection that is its agent's current one. */
  function OfflineNotices(s: Server, steps: seq<Step>): seq<Hook>
    decreases |steps|
  {
    if steps == [] then []
    else
      (if steps[0].Disconnect? && steps[0].conn in s.byConn && s.byConn[steps[0].conn] in s.byUID
       then [Hook(s.byUID[s.byConn[steps[0].conn]].agentID, AgentOffline)] else [])
      + OfflineNotices(Next(s, steps[0]), steps[1..])
  }

  lemma OfflineMatches(s: Server, t: Server, u: Uid, agent: AgentId)
    requires AlarmsMatch(s) && IdsKept(s, t) && t.hooks == s.hooks + [Hook(agent, AgentOffline)]
    requires t.events == s.events || t.events == s.events + [Event(u, Disconnected)]
    ensures AlarmsMatch(t) && Offlines(t.hooks) == Offlines(s.hooks) + [Hook(agent, AgentOffline)]
  {
    var offline := [Hook(agent, AgentOffline)];
    assert offline[..0] == [] && Alarms([]) == [] && Offlines([]) == [];
    assert Alarms(offline) == [];
    assert Offlines(offline) == [] + [offline[0]];
    hide Alarms, Offlines, CalledFor;
    AlarmsConcat(s.hooks, offline);
    CalledForKept(s.events, s, t);
    CalledForOne(s.events, Event(u, Disconnected), t.rows);
    assert Alarms(s.hooks) + [] == Alarms(s.hooks);
  }

  lemma CloseMatches(s: Server, conn: Conn, env: Env)
    requires AllCoherent(s) && Routed(s) && AlarmsMatch(s)
    ensures var t := Close(s, conn, env);
            && AlarmsMatch(t)
            && Offlines(t.hooks) == Offlines(s.hooks) + OfflineNotices(s, [Disconnect(conn, env)])
  {
    hide AlarmsMatch, Offlines;
    assert [Disconnect(conn, env)][1..] == [];
    if conn in s.byConn {
      var u := s.byConn[conn];
      assert Coherent(s, u);
      CloseRecords(s, conn, env, u);
      OfflineMatches(s, Close(s, conn, env), u, s.byUID[u].agentID);
    }
  }

  lemma NextMatches(s: Server, step: Step)
    requires AllCoherent(s) && Routed(s) && AlarmsMatch(s)
    ensures AlarmsMatch(Next(s, step))
    ensures Offlines(Next(s, step).hooks) == Offlines(s.hooks) + OfflineNotices(s, [step])
  {
    assert [step][1..] == [] && Offlines(s.hooks) + [] == Offlines(s.hooks);
    assert !step.Disconnect? ==> OfflineNotices(s, [step]) == [] + [];
    match step
    case Receive(conn, auth, msg, env) =>
      hide Handle, AlarmsMatch, Alarms, Offlines;
      ReceiveMatches(s, conn, auth, msg, env);
    case Disconnect(conn, env) =>
      hide Close, AlarmsMatch, Alarms, Offlines, OfflineNotices;
      CloseMatches(s, conn, env);
    case Notify(customer, failed) =>
      CalledForKept(s.events, s, Next(s, step));
    case _ =>
  }

  /**
   Over every run, whatever writes fail: a config-failed or unhealthy webhook is raised exactly with each such
   event, in the same order and for its agent, and one offline webhook for each close of a current connection.
   */
  lemma {:induction false} WebhooksOverRuns(s: Server, steps: seq<Step>)
    requires AllCoherent(s) && Routed(s) && AlarmsMatch(s)
    ensures AlarmsMatch(Run(s, steps))
    ensures Offlines(Run(s, steps).hooks) == Offlines(s.hooks) + OfflineNotices(s, steps)
    decreases |steps|
  {
    hide AlarmsMatch, Alarms, Offlines, Next, Routed, AllCoherent;
    if steps == [] {
    } else {
      NextCoherent(s, steps[0]);
      NextRouted(s, steps[0]);
      NextMatches(s, steps[0]);
      NoticesSplit(s, steps);
      hide OfflineNotices;
      var t, rest := Next(s, steps[0]), steps[1..];
      assert Run(s, steps) == Run(t, rest);
      hide Run;
      WebhooksOverRuns(t, rest);
    }
  }

  lemma NoticesSplit(s: Server, steps: seq<Step>)
    requires steps != []
    ensures OfflineNotices(s, steps) == OfflineNotices(s, [steps[0]]) + OfflineNotices(Next(s, steps[0]), steps[1..])
  {
    hide Next;
    assert [steps[0]][1..] == [];
  }
}
