/**
 Requests that share pooled connections, as interleaved steps: connect, BEGIN, local settings, work,
 COMMIT or ROLLBACK, release. Any number of requests of every kind run at once; a statement may fail, a
 connection may die, and the answer to a COMMIT may be lost, at any moment.

 What is assumed of PostgreSQL and of the pool is written into `Execute`, `EndTx`, `Visible`, `MayChange`
 and `Enabled`: row security filters on the tenant setting and shows nothing when it is unset or empty;
 a local setting ends with its transaction; ROLLBACK fails only on a dead connection; the pool never
 hands out a dead connection again; work issues no transaction control and no settings of its own.
 */
module PoolProtocol {
  import opened Results

  // ---------------------------------------------------------------- the database

  datatype Setting = TenantId | UserId | RequestId | RequestIp | UserAgent

  type Settings = map<Setting, string>

  datatype Row = Row(tenant: string, key: nat, body: string)

  datatype Write = Insert(row: Row) | Delete(row: Row)

  /** What one transaction of one request committed. */
  datatype Entry = Entry(request: nat, writes: seq<Write>)

  function Changed(rows: set<Row>, writes: seq<Write>): set<Row>
    decreases |writes|
  {
    if writes == [] then rows
    else
      var w := writes[0];
      Changed(if w.Insert? then rows + {w.row} else rows - {w.row}, writes[1..])
  }

  function Rows(log: seq<Entry>): set<Row> {
    if log == [] then {} else Changed(Rows(log[..|log| - 1]), log[|log| - 1].writes)
  }

  datatype Tx = NoTx | Active(readOnly: bool, pending: seq<Write>) | Aborted

  datatype Pool = AppPool | ReplicaPool | AdminPool

  datatype Connection = Connection(pool: Pool, alive: bool, tx: Tx, settings: Settings)

  predicate Clean(k: Connection) {
    k.tx == NoTx && k.settings == map[]
  }

  datatype Statement = Begin(readOnly: bool) | SetLocal(name: Setting, value: string) | Probe

  /** A local setting outside a transaction has no effect. */
  function Execute(k: Connection, st: Statement): Connection {
    match st
    case Begin(readOnly) => k.(tx := Active(readOnly, []))
    case SetLocal(name, value) => if k.tx.Active? then k.(settings := k.settings[name := value]) else k
    case Probe => k
  }

  function EndTx(k: Connection): Connection {
    k.(tx := NoTx, settings := map[])
  }

  /** A connection that breaks takes its open transaction with it. */
  function Break(k: Connection): Connection {
    EndTx(k).(alive := false)
  }

  function CurrentTenant(settings: Settings): Option<string> {
    if TenantId in settings && settings[TenantId] != "" then Some(settings[TenantId]) else None
  }

  /** Row security; the admin connects as a superuser, to whom it does not apply. */
  function Visible(rows: set<Row>, k: Connection): set<Row> {
    if k.pool == AdminPool then rows else set r | r in rows && CurrentTenant(k.settings) == Some(r.tenant)
  }

  predicate MayChange(k: Connection, w: Write) {
    k.pool == AdminPool || CurrentTenant(k.settings) == Some(w.row.tenant)
  }

  // ---------------------------------------------------------------- the requests

  datatype Context = Context(tenantId: string, userId: string, requestId: Option<string>,
                             ipAddress: Option<string>, userAgent: Option<string>)

  datatype Actor = Actor(userId: Option<string>, requestId: Option<string>,
                         ipAddress: Option<string>, userAgent: Option<string>)

  datatype Kind = Tenant(ctx: Context) | Anonymous | ReadOnly(ctx: Context) | Admin(actor: Actor) | Ping | LagProbe

  predicate Transactional(kind: Kind) {
    !kind.Ping? && !kind.LagProbe?
  }

  datatype Token = APP_POOL | REPLICA_POOL

  function SelectPoolToken(readOnly: bool, replicaConfigured: bool): Token {
    if readOnly && replicaConfigured then REPLICA_POOL else APP_POOL
  }

  /** Without a replica of its own, the replica pool is the very pool of the primary. */
  function ReplicaInstance(replicaConfigured: bool): Pool {
    if replicaConfigured then ReplicaPool else AppPool
  }

  function PickPool(readOnly: bool, replicaConfigured: bool): Pool {
    if SelectPoolToken(readOnly, replicaConfigured) == REPLICA_POOL then ReplicaInstance(replicaConfigured) else AppPool
  }

  function PoolFor(kind: Kind, replicaConfigured: bool): Pool {
    match kind
    case Tenant(_) => AppPool
    case Anonymous => AppPool
    case ReadOnly(_) => PickPool(true, replicaConfigured)
    case Admin(_) => AdminPool
    case Ping => AppPool
    case LagProbe => ReplicaInstance(replicaConfigured)
  }

  function MaxSize(p: Pool): nat {
    match p
    case AppPool => 20
    case ReplicaPool => 10
    case AdminPool => 4
  }

  /** `if (value)`: an undefined or empty value issues no statement. */
  function IfGiven(name: Setting, value: Option<string>): seq<Statement> {
    if value.Some? && value.value != "" then [SetLocal(name, value.value)] else []
  }

  /** The statements before the work. */
  function Script(kind: Kind): seq<Statement> {
    match kind
    case Tenant(c) =>
      [Begin(false), SetLocal(TenantId, c.tenantId), SetLocal(UserId, c.userId)]
      + IfGiven(RequestId, c.requestId) + IfGiven(RequestIp, c.ipAddress) + IfGiven(UserAgent, c.userAgent)
    case Anonymous => [Begin(false)]
    case ReadOnly(c) =>
      [Begin(true), SetLocal(TenantId, c.tenantId), SetLocal(UserId, c.userId)] + IfGiven(RequestId, c.requestId)
    case Admin(a) =>
      [Begin(false)] + IfGiven(UserId, a.userId) + IfGiven(RequestId, a.requestId)
      + IfGiven(RequestIp, a.ipAddress) + IfGiven(UserAgent, a.userAgent)
    case Ping => [Probe]
    case LagProbe => [Probe]
  }

  datatype Ending = Returned | Threw

  datatype Phase =
    | Waiting
    | Setup(next: nat)
    | Working
    | Committing
    | RollingBack
    | Releasing(ending: Ending)
    | Finished(ending: Ending)

  /** What one query of the work saw, and under which settings. */
  datatype Observation = Observation(settings: Settings, rows: set<Row>)

  /** `writes`: the changes that succeeded; `failed`: some query of the work failed on a live connection. */
  datatype Request = Request(kind: Kind, phase: Phase, lease: Option<nat>, writes: seq<Write>,
                             observed: seq<Observation>, failed: bool, commitSent: bool,
                             leases: nat, releases: nat)

  // ---------------------------------------------------------------- one request and its connection

  datatype Step = Query | Read | Change(write: Write) | Fail | Lost | Throw | Return | Commit | CommitLost | Rollback

  predicate StepEnabled(q: Request, k: Connection, step: Step) {
    match step
    case Query => k.alive && q.phase.Setup? && q.phase.next < |Script(q.kind)|
    case Read => k.alive && q.phase.Working? && k.tx.Active?
    case Change(w) => k.alive && q.phase.Working? && k.tx.Active? && !k.tx.readOnly && MayChange(k, w)
    case Fail =>
      k.alive && ((q.phase.Setup? && q.phase.next < |Script(q.kind)|) || q.phase.Working? || q.phase.Committing?)
    case Lost => !k.alive && (q.phase.Setup? || q.phase.Working? || q.phase.Committing? || q.phase.RollingBack?)
    case Throw => q.phase.Working?
    case Return => q.phase.Working?
    case Commit => k.alive && q.phase.Committing?
    case CommitLost => k.alive && q.phase.Committing?
    case Rollback => k.alive && q.phase.RollingBack?
  }

  /** Where a failed statement of the script leads. */
  function AfterFailure(kind: Kind): Phase {
    if kind.Ping? then Releasing(Threw) else if kind.LagProbe? then Releasing(Returned) else RollingBack
  }

  function AfterSetup(kind: Kind): Phase {
    if Transactional(kind) then Working else Releasing(Returned)
  }

  /** The request and the connection after a step, and what the server made permanent in it. */
  datatype Outcome = Outcome(request: Request, connection: Connection, committed: seq<Write>)

  function Pending(k: Connection): seq<Write> {
    if k.tx.Active? then k.tx.pending else []
  }

  function Next(q: Request, k: Connection, step: Step, rows: set<Row>): Outcome
    requires StepEnabled(q, k, step)
  {
    match step
    case Query =>
      var n := q.phase.next + 1;
      Outcome(q.(phase := if n < |Script(q.kind)| then Setup(n) else AfterSetup(q.kind)),
              Execute(k, Script(q.kind)[n - 1]), [])
    case Read =>
      var seen := Visible(Changed(rows, k.tx.pending), k);
      Outcome(q.(observed := q.observed + [Observation(k.settings, seen)]), k, [])
    case Change(w) =>
      Outcome(q.(writes := q.writes + [w]), k.(tx := k.tx.(pending := k.tx.pending + [w])), [])
    case Fail =>
      if q.phase.Setup? then
        Outcome(q.(phase := AfterFailure(q.kind)), if k.tx.Active? then k.(tx := Aborted) else k, [])
      else if q.phase.Working? then
        Outcome(q.(failed := true), k.(tx := Aborted), [])
      else
        Outcome(q.(phase := RollingBack, commitSent := true), EndTx(k), [])
    case Lost =>
      if q.phase.Setup? then Outcome(q.(phase := AfterFailure(q.kind)), k, [])
      else if q.phase.Working? then Outcome(q, k, [])
      else if q.phase.Committing? then Outcome(q.(phase := RollingBack, commitSent := true), k, [])
      else Outcome(q.(phase := Releasing(Threw)), k, [])
    case Throw => Outcome(q.(phase := RollingBack), k, [])
    case Return => Outcome(q.(phase := Committing), k, [])
    case Commit => Outcome(q.(phase := Releasing(Returned), commitSent := true), EndTx(k), Pending(k))
    case CommitLost => Outcome(q.(phase := RollingBack, commitSent := true), Break(k), Pending(k))
    case Rollback => Outcome(q.(phase := Releasing(Threw)), EndTx(k), [])
  }

  // ---------------------------------------------------------------- the whole system

  datatype State = State(replicaConfigured: bool, conns: seq<Connection>, idle: set<nat>, dead: set<nat>,
                         requests: seq<Request>, primary: seq<Entry>, replica: seq<Entry>)

  datatype Action =
    | Arrive(kind: Kind)
    | Open(r: nat)
    | Lease(r: nat, c: nat)
    | Refuse(r: nat)
    | Local(r: nat, step: Step)
    | Release(r: nat)
    | Die(c: nat)
    | Replicate

  function Initial(replicaConfigured: bool): State {
    State(replicaConfigured, [], {}, {}, [], [], [])
  }

  predicate Leases(s: State, r: nat, c: nat) {
    r < |s.requests| && s.requests[r].lease == Some(c)
  }

  /** The connections of a pool that are not dead and gone. */
  function Members(s: State, p: Pool): set<nat> {
    set c | 0 <= c < |s.conns| && c !in s.dead && s.conns[c].pool == p
  }

  predicate AtWork(s: State, r: nat) {
    r < |s.requests| && s.requests[r].lease.Some? && s.requests[r].lease.value < |s.conns|
  }

  predicate Enabled(s: State, a: Action) {
    match a
    case Arrive(_) => true
    case Open(r) =>
      && r < |s.requests| && s.requests[r].phase.Waiting?
      && var p := PoolFor(s.requests[r].kind, s.replicaConfigured); |Members(s, p)| < MaxSize(p)
    case Lease(r, c) =>
      && r < |s.requests| && s.requests[r].phase.Waiting?
      && c in s.idle && c < |s.conns| && s.conns[c].pool == PoolFor(s.requests[r].kind, s.replicaConfigured)
    case Refuse(r) => r < |s.requests| && s.requests[r].phase.Waiting?
    case Local(r, step) => AtWork(s, r) && StepEnabled(s.requests[r], s.conns[s.requests[r].lease.value], step)
    case Release(r) => AtWork(s, r) && s.requests[r].phase.Releasing?
    case Die(c) => c < |s.conns| && s.conns[c].alive
    case Replicate => |s.replica| < |s.primary|
  }

  /** The lag probe asks nobody when there is no replica. */
  function Arrived(kind: Kind, replicaConfigured: bool): Request {
    var phase := if kind.LagProbe? && !replicaConfigured then Finished(Returned) else Waiting;
    Request(kind, phase, None, [], [], false, false, 0, 0)
  }

  function Leased(q: Request, c: nat): Request {
    q.(phase := Setup(0), lease := Some(c), leases := q.leases + 1)
  }

  function Released(q: Request): Request
    requires q.phase.Releasing?
  {
    q.(phase := Finished(q.phase.ending), lease := None, releases := q.releases + 1)
  }

  function Log(log: seq<Entry>, r: nat, writes: seq<Write>): seq<Entry> {
    if writes == [] then log else log + [Entry(r, writes)]
  }

  /** A replica connection reads from the replica, and would write to it. */
  function Server(s: State, p: Pool): seq<Entry> {
    if p == ReplicaPool then s.replica else s.primary
  }

  function Apply(s: State, a: Action): State
    requires Enabled(s, a)
  {
    match a
    case Arrive(kind) => s.(requests := s.requests + [Arrived(kind, s.replicaConfigured)])
    case Open(r) =>
      var p := PoolFor(s.requests[r].kind, s.replicaConfigured);
      s.(conns := s.conns + [Connection(p, true, NoTx, map[])],
         requests := s.requests[r := Leased(s.requests[r], |s.conns|)])
    case Lease(r, c) => s.(idle := s.idle - {c}, requests := s.requests[r := Leased(s.requests[r], c)])
    case Refuse(r) => s.(requests := s.requests[r := s.requests[r].(phase := Finished(Threw))])
    case Local(r, step) =>
      var c := s.requests[r].lease.value;
      var k := s.conns[c];
      var o := Next(s.requests[r], k, step, Rows(Server(s, k.pool)));
      s.(requests := s.requests[r := o.request], conns := s.conns[c := o.connection],
         primary := if k.pool == ReplicaPool then s.primary else Log(s.primary, r, o.committed),
         replica := if k.pool == ReplicaPool then Log(s.replica, r, o.committed) else s.replica)
    case Release(r) =>
      var c := s.requests[r].lease.value;
      s.(requests := s.requests[r := Released(s.requests[r])],
         idle := if s.conns[c].alive then s.idle + {c} else s.idle,
         dead := if s.conns[c].alive then s.dead else s.dead + {c})
    case Die(c) =>
      s.(conns := s.conns[c := Break(s.conns[c])], idle := s.idle - {c},
         dead := if c in s.idle then s.dead + {c} else s.dead)
    case Replicate => s.(replica := s.replica + [s.primary[|s.replica|]])
  }

  /** The state after a list of actions, if each is enabled when its turn comes. */
  function Run(s: State, actions: seq<Action>): Option<State>
    decreases |actions|
  {
    if actions == [] then Some(s)
    else if Enabled(s, actions[0]) then Run(Apply(s, actions[0]), actions[1..])
    else None
  }
}
