/**
 What every run of the pool protocol keeps: isolation, atomicity, conservation of connections, routing.
 */
module PoolSafety {
  import opened Results
  import opened PoolProtocol

  // ---------------------------------------------------------------- the settings of a request

  function Given(name: Setting, value: Option<string>): Settings {
    if value.Some? && value.value != "" then map[name := value.value] else map[]
  }

  /** Exactly what a request's own context says: a value that is absent stays unset. */
  function Expected(kind: Kind): Settings {
    match kind
    case Tenant(c) =>
      map[TenantId := c.tenantId, UserId := c.userId]
      + Given(RequestId, c.requestId) + Given(RequestIp, c.ipAddress) + Given(UserAgent, c.userAgent)
    case ReadOnly(c) => map[TenantId := c.tenantId, UserId := c.userId] + Given(RequestId, c.requestId)
    case Admin(a) =>
      Given(UserId, a.userId) + Given(RequestId, a.requestId)
      + Given(RequestIp, a.ipAddress) + Given(UserAgent, a.userAgent)
    case _ => map[]
  }

  /** A clean connection after the statements of a script. */
  function Ran(k: Connection, script: seq<Statement>): Connection
    decreases |script|
  {
    if script == [] then k else Execute(Ran(k, script[..|script| - 1]), script[|script| - 1])
  }

  function Fresh(p: Pool): Connection {
    Connection(p, true, NoTx, map[])
  }

  lemma RanNothing(k: Connection)
    ensures Ran(k, []) == k
  {
  }

  lemma RanMore(k: Connection, script: seq<Statement>, st: Statement)
    ensures Ran(k, script + [st]) == Execute(Ran(k, script), st)
  {
    assert (script + [st])[..|script|] == script;
  }

  lemma RanGiven(k: Connection, script: seq<Statement>, name: Setting, value: Option<string>)
    requires Ran(k, script).tx.Active?
    ensures Ran(k, script + IfGiven(name, value))
         == Ran(k, script).(settings := Ran(k, script).settings + Given(name, value))
  {
    hide Ran;
    if value.Some? && value.value != "" {
      RanMore(k, script, SetLocal(name, value.value));
    } else {
      assert script + IfGiven(name, value) == script;
    }
  }

  lemma RanTenant(k: Connection, readOnly: bool, c: Context)
    requires Clean(k)
    ensures Ran(k, [Begin(readOnly), SetLocal(TenantId, c.tenantId), SetLocal(UserId, c.userId)])
         == k.(tx := Active(readOnly, []), settings := map[TenantId := c.tenantId, UserId := c.userId])
  {
    hide Ran;
    var s0, s1, s2 := Begin(readOnly), SetLocal(TenantId, c.tenantId), SetLocal(UserId, c.userId);
    RanNothing(k);
    RanMore(k, [], s0);
    RanMore(k, [s0], s1);
    RanMore(k, [s0, s1], s2);
    assert [] + [s0] == [s0] && [s0] + [s1] == [s0, s1] && [s0, s1] + [s2] == [s0, s1, s2];
  }

  /** The script leaves exactly the expected settings, in a transaction of the right mode. */
  lemma ScriptSetsExpected(kind: Kind, p: Pool)
    requires Transactional(kind)
    ensures Ran(Fresh(p), Script(kind)) == Connection(p, true, Active(kind.ReadOnly?, []), Expected(kind))
  {
    hide Ran, IfGiven, Given, Execute;
    var k := Fresh(p);
    match kind
    case Tenant(c) =>
      var script := [Begin(false), SetLocal(TenantId, c.tenantId), SetLocal(UserId, c.userId)];
      RanTenant(k, false, c);
      RanGiven(k, script, RequestId, c.requestId);
      RanGiven(k, script + IfGiven(RequestId, c.requestId), RequestIp, c.ipAddress);
      RanGiven(k, script + IfGiven(RequestId, c.requestId) + IfGiven(RequestIp, c.ipAddress), UserAgent, c.userAgent);
    case ReadOnly(c) =>
      var script := [Begin(true), SetLocal(TenantId, c.tenantId), SetLocal(UserId, c.userId)];
      RanTenant(k, true, c);
      RanGiven(k, script, RequestId, c.requestId);
    case Admin(a) =>
      RanBegin(k);
      RanGiven(k, [Begin(false)], UserId, a.userId);
      RanGiven(k, [Begin(false)] + IfGiven(UserId, a.userId), RequestId, a.requestId);
      RanGiven(k, [Begin(false)] + IfGiven(UserId, a.userId) + IfGiven(RequestId, a.requestId), RequestIp, a.ipAddress);
      RanGiven(k, [Begin(false)] + IfGiven(UserId, a.userId) + IfGiven(RequestId, a.requestId)
                  + IfGiven(RequestIp, a.ipAddress), UserAgent, a.userAgent);
      assert map[] + Given(UserId, a.userId) == Given(UserId, a.userId);
    case Anonymous => RanBegin(k);
  }

  lemma RanBegin(k: Connection)
    ensures Ran(k, [Begin(false)]) == k.(tx := Active(false, []))
  {
    RanMore(k, [], Begin(false));
    assert [] + [Begin(false)] == [Begin(false)];
  }

  // ---------------------------------------------------------------- one request and its connection

  /** The rows a request may see or change are its own tenant's; there are none without a tenant. */
  predicate Own(kind: Kind, row: Row) {
    kind.Admin? || CurrentTenant(Expected(kind)) == Some(row.tenant)
  }

  ghost predicate HistoryOk(q: Request) {
    && (forall i :: 0 <= i < |q.observed| ==>
          q.observed[i].settings == Expected(q.kind) && forall row :: row in q.observed[i].rows ==> Own(q.kind, row))
    && (forall i :: 0 <= i < |q.writes| ==> Own(q.kind, q.writes[i].row))
    && (q.kind.ReadOnly? ==> q.writes == [])
  }

  /** During the work: its transaction holds exactly its changes, under exactly its settings, unless a
      query has failed. */
  predicate WorkOk(q: Request, k: Connection) {
    && Transactional(q.kind)
    && (k.alive ==>
          || (!q.failed && k.tx == Active(q.kind.ReadOnly?, q.writes) && k.settings == Expected(q.kind))
          || (q.failed && k.tx == Aborted))
  }

  /** What must be in the log for a request that ended this way. */
  predicate EndingOk(q: Request, ending: Ending, mine: seq<seq<Write>>) {
    && (ending == Returned && Transactional(q.kind) ==> mine == if q.failed || q.writes == [] then [] else [q.writes])
    && (mine != [] ==> mine == [q.writes] && q.commitSent && q.writes != [])
    && (!Transactional(q.kind) ==> q.writes == [] && q.observed == [])
  }

  predicate NothingYet(q: Request, mine: seq<seq<Write>>) {
    q.writes == [] && q.observed == [] && !q.failed && !q.commitSent && mine == []
  }

  predicate PhaseOk(q: Request, k: Connection, mine: seq<seq<Write>>) {
    match q.phase
    case Waiting => false
    case Setup(n) =>
      && n < |Script(q.kind)| && NothingYet(q, mine)
      && (k.alive ==> k == Ran(Fresh(k.pool), Script(q.kind)[..n]))
    case Working => WorkOk(q, k) && !q.commitSent && mine == []
    case Committing => WorkOk(q, k) && !q.commitSent && mine == []
    case RollingBack => Transactional(q.kind) && EndingOk(q, Threw, mine)
    case Releasing(ending) =>
      Clean(k) && EndingOk(q, ending, mine) && (q.kind.LagProbe? ==> ending == Returned)
    case Finished(_) => false
  }

  ghost predicate Coherent(q: Request, k: Connection, mine: seq<seq<Write>>) {
    && q.leases == 1 && q.releases == 0
    && (k.pool == AdminPool <==> q.kind.Admin?)
    && (k.pool == ReplicaPool ==> q.kind.ReadOnly? || q.kind.LagProbe?)
    && (!k.alive ==> Clean(k))
    && (k.tx.Active? ==> k.tx.readOnly == q.kind.ReadOnly?)
    && HistoryOk(q)
    && PhaseOk(q, k, mine)
  }

  function Added(mine: seq<seq<Write>>, writes: seq<Write>): seq<seq<Write>> {
    if writes == [] then mine else mine + [writes]
  }

  ghost predicate StepKeeps(q: Request, k: Connection, step: Step, rows: set<Row>, mine: seq<seq<Write>>)
    requires StepEnabled(q, k, step)
  {
    var o := Next(q, k, step, rows);
    && Coherent(o.request, o.connection, Added(mine, o.committed))
    && o.request.kind == q.kind && o.request.lease == q.lease && o.connection.pool == k.pool
    && (o.connection.alive ==> k.alive)
    && (k.pool == ReplicaPool ==> o.committed == [])
  }

  lemma BeginsInMode(kind: Kind, n: nat)
    requires n < |Script(kind)|
    ensures Script(kind)[n].Begin? ==> Script(kind)[n].readOnly == kind.ReadOnly?
  {
  }

  /** One more statement of the script is one more statement run. */
  lemma QueryRuns(q: Request, k: Connection, mine: seq<seq<Write>>)
    requires Coherent(q, k, mine) && StepEnabled(q, k, Query)
    ensures Execute(k, Script(q.kind)[q.phase.next]) == Ran(Fresh(k.pool), Script(q.kind)[..q.phase.next + 1])
  {
    hide Script, Execute, Ran;
    var script, n := Script(q.kind), q.phase.next;
    RanMore(Fresh(k.pool), script[..n], script[n]);
    assert script[..n] + [script[n]] == script[..n + 1];
  }

  lemma ExecuteKeeps(k: Connection, st: Statement)
    ensures Execute(k, st).pool == k.pool && Execute(k, st).alive == k.alive
    ensures Execute(k, st).tx.Active? ==>
      || (st.Begin? && Execute(k, st).tx.readOnly == st.readOnly)
      || (k.tx.Active? && Execute(k, st).tx.readOnly == k.tx.readOnly)
  {
  }

  lemma QueryKeeps(q: Request, k: Connection, rows: set<Row>, mine: seq<seq<Write>>)
    requires Coherent(q, k, mine) && StepEnabled(q, k, Query)
    ensures StepKeeps(q, k, Query, rows, mine)
  {
    hide Expected, Own, Ran, Script, Execute;
    var script, n := Script(q.kind), q.phase.next;
    BeginsInMode(q.kind, n);
    ExecuteKeeps(k, script[n]);
    QueryRuns(q, k, mine);
    if n + 1 == |script| {
      assert script[..n + 1] == script;
      if Transactional(q.kind) {
        ScriptSetsExpected(q.kind, k.pool);
      } else {
        ProbeStartsClean(q, k, mine);
        ProbeRuns(q.kind, n, k);
      }
    }
  }

  lemma ProbeRuns(kind: Kind, n: nat, k: Connection)
    requires n < |Script(kind)| && !Transactional(kind)
    ensures Execute(k, Script(kind)[n]) == k
  {
  }

  lemma ProbeStartsClean(q: Request, k: Connection, mine: seq<seq<Write>>)
    requires Coherent(q, k, mine) && q.phase.Setup? && !Transactional(q.kind)
    ensures Clean(k)
  {
    assert Script(q.kind)[..0] == [];
  }

  lemma WorkKeeps(q: Request, k: Connection, step: Step, rows: set<Row>, mine: seq<seq<Write>>)
    requires Coherent(q, k, mine) && StepEnabled(q, k, step) && (step.Read? || step.Change?)
    ensures StepKeeps(q, k, step, rows, mine)
  {
    hide Script, Expected, Changed;
  }

  lemma FailureKeeps(q: Request, k: Connection, step: Step, rows: set<Row>, mine: seq<seq<Write>>)
    requires Coherent(q, k, mine) && StepEnabled(q, k, step) && (step.Fail? || step.Lost?)
    ensures StepKeeps(q, k, step, rows, mine)
  {
    hide Script, Expected, Own, Ran;
    if q.phase.Setup? && !Transactional(q.kind) { ProbeStartsClean(q, k, mine); }
  }

  lemma EndKeeps(q: Request, k: Connection, step: Step, rows: set<Row>, mine: seq<seq<Write>>)
    requires Coherent(q, k, mine) && StepEnabled(q, k, step)
    requires step.Throw? || step.Return? || step.Commit? || step.CommitLost? || step.Rollback?
    ensures StepKeeps(q, k, step, rows, mine)
  {
    hide Script, Expected, Own, Ran;
  }

  lemma NextKeeps(q: Request, k: Connection, step: Step, rows: set<Row>, mine: seq<seq<Write>>)
    requires Coherent(q, k, mine) && StepEnabled(q, k, step)
    ensures StepKeeps(q, k, step, rows, mine)
  {
    hide Coherent, StepKeeps, StepEnabled;
    match step
    case Query => QueryKeeps(q, k, rows, mine);
    case Read => WorkKeeps(q, k, step, rows, mine);
    case Change(_) => WorkKeeps(q, k, step, rows, mine);
    case Fail => FailureKeeps(q, k, step, rows, mine);
    case Lost => FailureKeeps(q, k, step, rows, mine);
    case _ => EndKeeps(q, k, step, rows, mine);
  }

  // ---------------------------------------------------------------- the invariant of the whole system

  /** What a log holds of one request, oldest first. */
  function Of(log: seq<Entry>, r: nat): seq<seq<Write>> {
    if log == [] then []
    else
      var e, before := log[|log| - 1], Of(log[..|log| - 1], r);
      if e.request == r then before + [e.writes] else before
  }

  /** How a call that never gets a connection ends. */
  function WithoutLease(kind: Kind, replicaConfigured: bool): Ending {
    if kind.LagProbe? && !replicaConfigured then Returned else Threw
  }

  /** A request without a connection has not started or is over. */
  ghost predicate AtRest(q: Request, mine: seq<seq<Write>>, replicaConfigured: bool) {
    || (q.phase.Waiting? && q == Arrived(q.kind, replicaConfigured) && mine == [])
    || (q.phase.Finished? && q.leases == q.releases <= 1 && HistoryOk(q) && EndingOk(q, q.phase.ending, mine)
        && (q.kind.LagProbe? && q.leases == 1 ==> q.phase.ending == Returned)
        && (q.leases == 0 ==> NothingYet(q, mine) && q.phase.ending == WithoutLease(q.kind, replicaConfigured)))
  }

  ghost predicate RequestOk(s: State, q: Request, mine: seq<seq<Write>>) {
    match q.lease
    case None => AtRest(q, mine, s.replicaConfigured)
    case Some(c) =>
      && c < |s.conns| && c !in s.idle && c !in s.dead
      && s.conns[c].pool == PoolFor(q.kind, s.replicaConfigured)
      && (q.kind.LagProbe? ==> s.replicaConfigured)
      && Coherent(q, s.conns[c], mine)
  }

  ghost predicate RequestsOk(s: State) {
    forall r :: 0 <= r < |s.requests| ==> RequestOk(s, s.requests[r], Of(s.primary, r))
  }

  /** No connection is leased to two requests. */
  ghost predicate Exclusive(s: State) {
    forall r1, r2 :: 0 <= r1 < r2 < |s.requests| && s.requests[r1].lease.Some? ==>
      s.requests[r1].lease != s.requests[r2].lease
  }

  /** A connection in a pool is alive, in no transaction, and carries no setting. */
  ghost predicate IdleOk(s: State) {
    forall c :: c in s.idle ==> c < |s.conns| && c !in s.dead && s.conns[c].alive && Clean(s.conns[c])
  }

  ghost predicate DeadOk(s: State) {
    forall c :: c in s.dead ==> c < |s.conns| && !s.conns[c].alive
  }

  ghost predicate Taken(s: State, c: nat) {
    exists r :: Leases(s, r, c)
  }

  /** Idle, leased or dead: no connection is ever lost. */
  ghost predicate Accounted(s: State) {
    forall c :: 0 <= c < |s.conns| ==> c in s.idle || c in s.dead || Taken(s, c)
  }

  /** The replica holds a prefix of the primary's log, and without a replica no pool reaches one. */
  ghost predicate LogsOk(s: State) {
    && s.replica <= s.primary
    && (forall i :: 0 <= i < |s.primary| ==> s.primary[i].request < |s.requests|)
    && (!s.replicaConfigured ==> forall c :: 0 <= c < |s.conns| ==> s.conns[c].pool != ReplicaPool)
  }

  ghost predicate SizesOk(s: State) {
    forall p: Pool :: |Members(s, p)| <= MaxSize(p)
  }

  ghost predicate Safe(s: State) {
    RequestsOk(s) && Exclusive(s) && IdleOk(s) && DeadOk(s) && Accounted(s) && LogsOk(s) && SizesOk(s)
  }

  // ---------------------------------------------------------------- every step keeps it

  lemma OfLog(log: seq<Entry>, r: nat, writes: seq<Write>, other: nat)
    ensures Of(Log(log, r, writes), other) == if other == r then Added(Of(log, r), writes) else Of(log, other)
  {
    if writes != [] { assert (log + [Entry(r, writes)])[..|log|] == log; }
  }

  lemma {:induction false} OfNone(log: seq<Entry>, r: nat)
    requires forall i :: 0 <= i < |log| ==> log[i].request < r
    ensures Of(log, r) == []
  {
    if log != [] { OfNone(log[..|log| - 1], r); }
  }

  lemma FewerMembers(s: State, t: State)
    requires SizesOk(s)
    requires |t.conns| == |s.conns| && s.dead <= t.dead
    requires forall c :: 0 <= c < |s.conns| ==> t.conns[c].pool == s.conns[c].pool
    ensures SizesOk(t)
  {
    forall p: Pool
      ensures |Members(t, p)| <= MaxSize(p)
    {
      Smaller(Members(t, p), Members(s, p));
    }
  }

  lemma {:induction false} Smaller(a: set<nat>, b: set<nat>)
    requires a <= b
    ensures |a| <= |b|
  {
    if a != {} {
      var x :| x in a;
      Smaller(a - {x}, b - {x});
    }
  }

  lemma LocalKeepsRequests(s: State, r: nat, step: Step)
    requires Safe(s) && Enabled(s, Local(r, step))
    ensures RequestsOk(Apply(s, Local(r, step)))
    ensures LogsOk(Apply(s, Local(r, step)))
    ensures var c := s.requests[r].lease.value; var t := Apply(s, Local(r, step));
      && t.requests[r].lease == Some(c) && t.conns[c].pool == s.conns[c].pool
      && (t.conns[c].alive ==> s.conns[c].alive)
  {
    hide Coherent, AtRest, SizesOk, Accounted, Next, StepEnabled, Rows, Of, Log, Added;
    var t, q, c := Apply(s, Local(r, step)), s.requests[r], s.requests[r].lease.value;
    var k, mine := s.conns[c], Of(s.primary, r);
    var rows := Rows(Server(s, k.pool));
    var o := Next(q, k, step, rows);
    assert RequestOk(s, q, mine);
    NextKeeps(q, k, step, rows, mine);
    LogExtends(s.primary, r, o.committed);
    LogExtends(s.replica, r, o.committed);
    AddedNothing(mine);
    forall r2 | 0 <= r2 < |t.requests|
      ensures RequestOk(t, t.requests[r2], Of(t.primary, r2))
    {
      OfLog(s.primary, r, o.committed, r2);
      assert RequestOk(s, s.requests[r2], Of(s.primary, r2));
    }
  }

  lemma AddedNothing(mine: seq<seq<Write>>)
    ensures Added(mine, []) == mine
  {
  }

  lemma LogExtends(log: seq<Entry>, r: nat, writes: seq<Write>)
    ensures log <= Log(log, r, writes)
    ensures writes == [] ==> Log(log, r, writes) == log
    ensures forall i :: |log| <= i < |Log(log, r, writes)| ==> Log(log, r, writes)[i].request == r
  {
  }

  lemma LocalKeeps(s: State, r: nat, step: Step)
    requires Safe(s) && Enabled(s, Local(r, step))
    ensures Safe(Apply(s, Local(r, step)))
  {
    hide RequestOk, LogsOk, SizesOk, Next, StepEnabled, Rows, Log, Clean;
    var t, c := Apply(s, Local(r, step)), s.requests[r].lease.value;
    LocalKeepsRequests(s, r, step);
    assert c !in s.idle && c !in s.dead by { LeasedElsewhere(s, r, c); }
    FewerMembers(s, t);
    forall c2 | 0 <= c2 < |t.conns| && c2 !in t.idle && c2 !in t.dead
      ensures Taken(t, c2)
    {
      var r2 :| Leases(s, r2, c2);
      assert Leases(t, r2, c2);
    }
  }

  lemma LeasedElsewhere(s: State, r: nat, c: nat)
    requires RequestsOk(s) && Leases(s, r, c)
    ensures c < |s.conns| && c !in s.idle && c !in s.dead
  {
    assert RequestOk(s, s.requests[r], Of(s.primary, r));
  }

  lemma ArriveKeeps(s: State, kind: Kind)
    requires Safe(s)
    ensures Safe(Apply(s, Arrive(kind)))
  {
    hide SizesOk, Coherent;
    var t := Apply(s, Arrive(kind));
    FewerMembers(s, t);
    OfNone(s.primary, |s.requests|);
    forall r | 0 <= r < |t.requests|
      ensures RequestOk(t, t.requests[r], Of(t.primary, r))
    {
      if r < |s.requests| { assert RequestOk(s, s.requests[r], Of(s.primary, r)); }
    }
    forall c | 0 <= c < |t.conns| && c !in t.idle && c !in t.dead
      ensures Taken(t, c)
    {
      var r :| Leases(s, r, c);
      assert Leases(t, r, c);
    }
  }

  lemma WaitingIsFresh(s: State, r: nat)
    requires RequestsOk(s) && r < |s.requests| && s.requests[r].phase.Waiting?
    ensures s.requests[r] == Arrived(s.requests[r].kind, s.replicaConfigured) && Of(s.primary, r) == []
  {
    assert RequestOk(s, s.requests[r], Of(s.primary, r));
  }

  lemma RefusedIsAtRest(q: Request, replicaConfigured: bool)
    requires q == Arrived(q.kind, replicaConfigured) && q.phase.Waiting?
    ensures AtRest(q.(phase := Finished(Threw)), [], replicaConfigured)
  {
  }

  lemma RefuseKeeps(s: State, r: nat)
    requires Safe(s) && Enabled(s, Refuse(r))
    ensures Safe(Apply(s, Refuse(r)))
  {
    hide SizesOk, Coherent, AtRest, Of;
    var t := Apply(s, Refuse(r));
    FewerMembers(s, t);
    WaitingIsFresh(s, r);
    RefusedIsAtRest(s.requests[r], s.replicaConfigured);
    forall r2 | 0 <= r2 < |t.requests|
      ensures RequestOk(t, t.requests[r2], Of(t.primary, r2))
    {
      assert RequestOk(s, s.requests[r2], Of(s.primary, r2));
    }
    forall c | 0 <= c < |t.conns| && c !in t.idle && c !in t.dead
      ensures Taken(t, c)
    {
      var r2 :| Leases(s, r2, c);
      assert Leases(t, r2, c);
    }
  }

  /** A request that gets a clean connection from its own pool starts coherently. */
  lemma LeasedIsCoherent(q: Request, k: Connection, replicaConfigured: bool)
    requires q == Arrived(q.kind, replicaConfigured) && q.phase.Waiting?
    requires k == Fresh(k.pool) && k.pool == PoolFor(q.kind, replicaConfigured)
    ensures forall c :: Coherent(Leased(q, c), k, [])
  {
    assert Script(q.kind)[..0] == [];
    RanNothing(k);
  }

  lemma LeaseKeeps(s: State, r: nat, c: nat)
    requires Safe(s) && Enabled(s, Lease(r, c))
    ensures Safe(Apply(s, Lease(r, c)))
  {
    hide SizesOk, Coherent, AtRest, Of;
    var t, q := Apply(s, Lease(r, c)), s.requests[r];
    FewerMembers(s, t);
    WaitingIsFresh(s, r);
    LeasedIsCoherent(q, s.conns[c], s.replicaConfigured);
    forall r2 | 0 <= r2 < |t.requests|
      ensures RequestOk(t, t.requests[r2], Of(t.primary, r2))
      ensures r2 != r ==> t.requests[r2].lease != Some(c)
    {
      assert RequestOk(s, s.requests[r2], Of(s.primary, r2));
    }
    forall c2 | 0 <= c2 < |t.conns| && c2 !in t.idle && c2 !in t.dead
      ensures Taken(t, c2)
    {
      if c2 == c {
        assert Leases(t, r, c2);
      } else {
        var r2 :| Leases(s, r2, c2);
        assert Leases(t, r2, c2);
      }
    }
  }

  lemma OpenedMembers(s: State, t: State, p: Pool, k: Connection)
    requires SizesOk(s) && DeadOk(s) && |Members(s, k.pool)| < MaxSize(k.pool)
    requires t.conns == s.conns + [k] && t.dead == s.dead
    ensures |Members(t, p)| <= MaxSize(p)
  {
    if p == k.pool {
      assert Members(t, p) == Members(s, p) + {|s.conns|};
    } else {
      assert Members(t, p) == Members(s, p);
    }
  }

  lemma OpenKeeps(s: State, r: nat)
    requires Safe(s) && Enabled(s, Open(r))
    ensures Safe(Apply(s, Open(r)))
  {
    hide SizesOk, Coherent, AtRest, Of;
    var t, q, c := Apply(s, Open(r)), s.requests[r], |s.conns|;
    assert SizesOk(t) by { OpenKeepsSizes(s, r); }
    WaitingIsFresh(s, r);
    LeasedIsCoherent(q, t.conns[c], s.replicaConfigured);
    forall r2 | 0 <= r2 < |t.requests|
      ensures RequestOk(t, t.requests[r2], Of(t.primary, r2))
      ensures r2 != r ==> t.requests[r2].lease != Some(c)
    {
      assert RequestOk(s, s.requests[r2], Of(s.primary, r2));
    }
    forall c2 | 0 <= c2 < |t.conns| && c2 !in t.idle && c2 !in t.dead
      ensures Taken(t, c2)
    {
      if c2 == c {
        assert Leases(t, r, c2);
      } else {
        var r2 :| Leases(s, r2, c2);
        assert Leases(t, r2, c2);
      }
    }
  }

  lemma OpenKeepsSizes(s: State, r: nat)
    requires Safe(s) && Enabled(s, Open(r))
    ensures SizesOk(Apply(s, Open(r)))
  {
    hide RequestsOk, Exclusive, IdleOk, Accounted, LogsOk;
    var t := Apply(s, Open(r));
    forall p: Pool
      ensures |Members(t, p)| <= MaxSize(p)
    {
      OpenedMembers(s, t, p, t.conns[|s.conns|]);
    }
  }

  lemma ReleasedIsAtRest(q: Request, k: Connection, mine: seq<seq<Write>>, replicaConfigured: bool)
    requires Coherent(q, k, mine) && q.phase.Releasing?
    ensures AtRest(Released(q), mine, replicaConfigured) && Clean(k)
  {
  }

  lemma ReleaseKeeps(s: State, r: nat)
    requires Safe(s) && Enabled(s, Release(r))
    ensures Safe(Apply(s, Release(r)))
  {
    hide SizesOk, Coherent, AtRest, Of;
    var t, q, c := Apply(s, Release(r)), s.requests[r], s.requests[r].lease.value;
    FewerMembers(s, t);
    assert RequestOk(s, q, Of(s.primary, r));
    ReleasedIsAtRest(q, s.conns[c], Of(s.primary, r), s.replicaConfigured);
    forall r2 | 0 <= r2 < |t.requests|
      ensures RequestOk(t, t.requests[r2], Of(t.primary, r2))
    {
      assert RequestOk(s, s.requests[r2], Of(s.primary, r2));
    }
    forall c2 | 0 <= c2 < |t.conns| && c2 !in t.idle && c2 !in t.dead
      ensures Taken(t, c2)
    {
      var r2 :| Leases(s, r2, c2);
      assert Leases(t, r2, c2);
    }
  }

  lemma BreakKeepsCoherence(q: Request, k: Connection, mine: seq<seq<Write>>)
    requires Coherent(q, k, mine)
    ensures Coherent(q, Break(k), mine)
  {
    hide Script, Ran, Expected;
  }

  lemma DieKeeps(s: State, c: nat)
    requires Safe(s) && Enabled(s, Die(c))
    ensures Safe(Apply(s, Die(c)))
  {
    hide SizesOk, Coherent, AtRest, Of;
    var t := Apply(s, Die(c));
    FewerMembers(s, t);
    forall r | 0 <= r < |t.requests|
      ensures RequestOk(t, t.requests[r], Of(t.primary, r))
    {
      var q, mine := s.requests[r], Of(s.primary, r);
      assert RequestOk(s, q, mine);
      if q.lease == Some(c) { BreakKeepsCoherence(q, s.conns[c], mine); }
    }
    forall c2 | 0 <= c2 < |t.conns| && c2 !in t.idle && c2 !in t.dead
      ensures Taken(t, c2)
    {
      var r :| Leases(s, r, c2);
      assert Leases(t, r, c2);
    }
  }

  lemma ReplicateKeeps(s: State)
    requires Safe(s) && Enabled(s, Replicate)
    ensures Safe(Apply(s, Replicate))
  {
    hide SizesOk, Coherent, AtRest, Of;
    var t := Apply(s, Replicate);
    FewerMembers(s, t);
    forall r | 0 <= r < |t.requests|
      ensures RequestOk(t, t.requests[r], Of(t.primary, r))
    {
      assert RequestOk(s, s.requests[r], Of(s.primary, r));
    }
    forall c | 0 <= c < |t.conns| && c !in t.idle && c !in t.dead
      ensures Taken(t, c)
    {
      var r :| Leases(s, r, c);
      assert Leases(t, r, c);
    }
  }

  lemma EveryStepKeepsSafe(s: State, a: Action)
    requires Safe(s) && Enabled(s, a)
    ensures Safe(Apply(s, a))
  {
    hide *;
    match a
    case Arrive(kind) => ArriveKeeps(s, kind);
    case Open(r) => OpenKeeps(s, r);
    case Lease(r, c) => LeaseKeeps(s, r, c);
    case Refuse(r) => RefuseKeeps(s, r);
    case Local(r, step) => LocalKeeps(s, r, step);
    case Release(r) => ReleaseKeeps(s, r);
    case Die(c) => DieKeeps(s, c);
    case Replicate => ReplicateKeeps(s);
  }

  lemma InitialIsSafe(replicaConfigured: bool)
    ensures Safe(Initial(replicaConfigured))
  {
    forall p: Pool
      ensures |Members(Initial(replicaConfigured), p)| == 0
    {
      assert Members(Initial(replicaConfigured), p) == {};
    }
  }

  lemma {:induction false} SafeRun(s: State, actions: seq<Action>)
    requires Safe(s)
    ensures Run(s, actions).Some? ==> Safe(Run(s, actions).value)
    decreases |actions|
  {
    hide Safe, Enabled, Apply;
    if actions != [] && Enabled(s, actions[0]) {
      EveryStepKeepsSafe(s, actions[0]);
      SafeRun(Apply(s, actions[0]), actions[1..]);
    }
  }

  /** A state some interleaving of any requests leads to. */
  ghost predicate Reachable(s: State) {
    exists actions :: Run(Initial(s.replicaConfigured), actions) == Some(s)
  }

  lemma ReachableIsSafe(s: State)
    requires Reachable(s)
    ensures Safe(s)
  {
    hide Safe, Run;
    var actions :| Run(Initial(s.replicaConfigured), actions) == Some(s);
    InitialIsSafe(s.replicaConfigured);
    SafeRun(Initial(s.replicaConfigured), actions);
  }
}
