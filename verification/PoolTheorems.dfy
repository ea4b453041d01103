/**
 The promises of the transaction helpers, for every interleaving of any requests.
 */
module PoolTheorems {
  import opened Results
  import opened PoolProtocol
  import opened PoolSafety

  // ---------------------------------------------------------------- isolation

  /** Whatever the interleaving, a request's queries ran under exactly the settings its own context asks
      for, and showed no row of another tenant. */
  lemma Isolation(s: State, r: nat, i: nat)
    requires Reachable(s) && r < |s.requests| && i < |s.requests[r].observed|
    ensures var q, seen := s.requests[r], s.requests[r].observed[i];
      && seen.settings == Expected(q.kind)
      && ((q.kind.Tenant? || q.kind.ReadOnly?) ==>
            && (forall row :: row in seen.rows ==> row.tenant == q.kind.ctx.tenantId)
            && (q.kind.ctx.tenantId == "" ==> seen.rows == {}))
      && (q.kind.Anonymous? ==> seen.rows == {})
  {
    hide Safe, Coherent, AtRest, Reachable;
    var q := s.requests[r];
    HistoryAlwaysOk(s, r);
    assert forall row :: row in q.observed[i].rows ==> Own(q.kind, row);
    if q.kind.Tenant? || q.kind.ReadOnly? { TenantOfContext(q.kind); }
  }

  lemma HistoryAlwaysOk(s: State, r: nat)
    requires Reachable(s) && r < |s.requests|
    ensures HistoryOk(s.requests[r])
  {
    hide HistoryOk, Reachable;
    ReachableIsSafe(s);
    assert RequestOk(s, s.requests[r], Of(s.primary, r));
    ArrivedHasNoHistory(s.requests[r].kind, s.replicaConfigured);
  }

  lemma ArrivedHasNoHistory(kind: Kind, replicaConfigured: bool)
    ensures HistoryOk(Arrived(kind, replicaConfigured))
  {
  }

  lemma TenantOfContext(kind: Kind)
    requires kind.Tenant? || kind.ReadOnly?
    ensures CurrentTenant(Expected(kind)) == if kind.ctx.tenantId == "" then None else Some(kind.ctx.tenantId)
  {
  }

  /** The value a context provides for a setting; an empty one counts as absent where it is optional. */
  function Provided(kind: Kind, name: Setting): Option<string> {
    match kind
    case Tenant(c) =>
      (match name
       case TenantId => Some(c.tenantId)
       case UserId => Some(c.userId)
       case RequestId => NonEmpty(c.requestId)
       case RequestIp => NonEmpty(c.ipAddress)
       case UserAgent => NonEmpty(c.userAgent))
    case ReadOnly(c) =>
      (match name
       case TenantId => Some(c.tenantId)
       case UserId => Some(c.userId)
       case RequestId => NonEmpty(c.requestId)
       case _ => None)
    case Admin(a) =>
      (match name
       case TenantId => None
       case UserId => NonEmpty(a.userId)
       case RequestId => NonEmpty(a.requestId)
       case RequestIp => NonEmpty(a.ipAddress)
       case UserAgent => NonEmpty(a.userAgent))
    case _ => None
  }

  function NonEmpty(value: Option<string>): Option<string> {
    if value.Some? && value.value != "" then value else None
  }

  /** The setting has the value that is provided, and is unset without one. */
  predicate Agrees(settings: Settings, name: Setting, own: Option<string>) {
    if own.Some? then name in settings && settings[name] == own.value else name !in settings
  }

  lemma GivenAgrees(settings: Settings, given: Setting, value: Option<string>, name: Setting, own: Option<string>)
    requires Agrees(settings, name, own)
    ensures name != given ==> Agrees(settings + Given(given, value), name, own)
    ensures name == given && own == None ==> Agrees(settings + Given(given, value), name, NonEmpty(value))
  {
  }

  lemma ContextAgrees(settings: Settings, requestId: Option<string>, ip: Option<string>, agent: Option<string>,
                      name: Setting, own: Option<string>)
    requires Agrees(settings, name, own) && (name.RequestId? || name.RequestIp? || name.UserAgent? ==> own == None)
    ensures Agrees(settings + Given(RequestId, requestId) + Given(RequestIp, ip) + Given(UserAgent, agent), name,
                   match name
                   case RequestId => NonEmpty(requestId)
                   case RequestIp => NonEmpty(ip)
                   case UserAgent => NonEmpty(agent)
                   case _ => own)
  {
    hide Agrees, Given, NonEmpty;
    var s1 := settings + Given(RequestId, requestId);
    GivenAgrees(settings, RequestId, requestId, name, own);
    var own1 := if name.RequestId? then NonEmpty(requestId) else own;
    GivenAgrees(s1, RequestIp, ip, name, own1);
    var own2 := if name.RequestIp? then NonEmpty(ip) else own1;
    GivenAgrees(s1 + Given(RequestIp, ip), UserAgent, agent, name, own2);
  }

  lemma ExpectedIsProvided(kind: Kind, name: Setting)
    ensures Agrees(Expected(kind), name, Provided(kind, name))
  {
    hide Given, NonEmpty;
    match kind
    case Tenant(c) =>
      var own := if name.TenantId? then Some(c.tenantId) else if name.UserId? then Some(c.userId) else None;
      ContextAgrees(map[TenantId := c.tenantId, UserId := c.userId], c.requestId, c.ipAddress, c.userAgent, name, own);
    case ReadOnly(c) =>
      var own := if name.TenantId? then Some(c.tenantId) else if name.UserId? then Some(c.userId) else None;
      GivenAgrees(map[TenantId := c.tenantId, UserId := c.userId], RequestId, c.requestId, name, own);
    case Admin(a) =>
      GivenAgrees(map[], UserId, a.userId, name, None);
      assert map[] + Given(UserId, a.userId) == Given(UserId, a.userId);
      var own := if name.UserId? then NonEmpty(a.userId) else None;
      ContextAgrees(Given(UserId, a.userId), a.requestId, a.ipAddress, a.userAgent, name, own);
    case _ =>
  }

  /** Under whatever interleaving, every query of every request saw each setting as the request's own context
      provides it, and unset when it provides none: nothing is inherited from an earlier request. */
  lemma SettingsAreOnesOwn(s: State, r: nat, i: nat, name: Setting)
    requires Reachable(s) && r < |s.requests| && i < |s.requests[r].observed|
    ensures Agrees(s.requests[r].observed[i].settings, name, Provided(s.requests[r].kind, name))
  {
    hide Reachable, Provided, Expected;
    HistoryAlwaysOk(s, r);
    ExpectedIsProvided(s.requests[r].kind, name);
  }

  /** Is the text there, and not empty? */
  predicate Usable(value: Option<string>) {
    value.Some? && value.value != ""
  }

  /** The same, setting by setting. */
  lemma SettingsByName(s: State, r: nat, i: nat)
    requires Reachable(s) && r < |s.requests| && i < |s.requests[r].observed|
    ensures var own, kind := s.requests[r].observed[i].settings, s.requests[r].kind;
      && (kind.Tenant? || kind.ReadOnly? ==>
            && TenantId in own && own[TenantId] == kind.ctx.tenantId
            && UserId in own && own[UserId] == kind.ctx.userId
            && (RequestId in own <==> Usable(kind.ctx.requestId))
            && (RequestId in own ==> own[RequestId] == kind.ctx.requestId.value))
      && (kind.Tenant? ==>
            && (RequestIp in own <==> Usable(kind.ctx.ipAddress))
            && (RequestIp in own ==> own[RequestIp] == kind.ctx.ipAddress.value)
            && (UserAgent in own <==> Usable(kind.ctx.userAgent))
            && (UserAgent in own ==> own[UserAgent] == kind.ctx.userAgent.value))
      && (kind.ReadOnly? ==> RequestIp !in own && UserAgent !in own)
      && (kind.Admin? ==>
            && TenantId !in own
            && (UserId in own <==> Usable(kind.actor.userId))
            && (UserId in own ==> own[UserId] == kind.actor.userId.value)
            && (RequestId in own <==> Usable(kind.actor.requestId))
            && (RequestId in own ==> own[RequestId] == kind.actor.requestId.value)
            && (RequestIp in own <==> Usable(kind.actor.ipAddress))
            && (RequestIp in own ==> own[RequestIp] == kind.actor.ipAddress.value)
            && (UserAgent in own <==> Usable(kind.actor.userAgent))
            && (UserAgent in own ==> own[UserAgent] == kind.actor.userAgent.value))
      && (kind.Anonymous? ==> own == map[])
  {
    hide Reachable, Expected;
    SettingsAreOnesOwn(s, r, i, TenantId);
    SettingsAreOnesOwn(s, r, i, UserId);
    SettingsAreOnesOwn(s, r, i, RequestId);
    SettingsAreOnesOwn(s, r, i, RequestIp);
    SettingsAreOnesOwn(s, r, i, UserAgent);
    Isolation(s, r, i);
    assert s.requests[r].kind.Anonymous? ==> Expected(s.requests[r].kind) == map[] by { AnonymousExpectsNothing(); }
  }

  lemma AnonymousExpectsNothing()
    ensures Expected(Anonymous) == map[]
  {
  }

  /** The rows that are a request's own: its tenant's, none without a tenant, and all of them for the admin. */
  lemma OwnIs(kind: Kind, row: Row)
    ensures Own(kind, row) <==>
      || kind.Admin?
      || ((kind.Tenant? || kind.ReadOnly?) && kind.ctx.tenantId != "" && row.tenant == kind.ctx.tenantId)
  {
    if kind.Tenant? || kind.ReadOnly? { TenantOfContext(kind); }
  }

  /** Change i puts the row there, and none after it takes it away. */
  predicate PutsLast(writes: seq<Write>, i: nat, row: Row) {
    i < |writes| && writes[i] == Insert(row) && Delete(row) !in writes[i + 1..]
  }

  lemma PutsLater(w: Write, rest: seq<Write>, i: nat, row: Row)
    ensures PutsLast([w] + rest, i + 1, row) <==> PutsLast(rest, i, row)
    ensures PutsLast([w] + rest, 0, row) <==> w == Insert(row) && Delete(row) !in rest
  {
    if i < |rest| { assert ([w] + rest)[i + 2..] == rest[i + 1..]; }
    assert ([w] + rest)[1..] == rest;
  }

  /** The last change of a row decides whether it is there. */
  lemma {:induction false} LastChangeDecides(rows: set<Row>, writes: seq<Write>, row: Row)
    ensures row in Changed(rows, writes) <==>
      (exists i: nat :: PutsLast(writes, i, row)) || (row in rows && Delete(row) !in writes)
    decreases |writes|
  {
    hide PutsLast;
    if writes == [] {
      NothingPut(row);
    } else {
      var w, rest := writes[0], writes[1..];
      var next := if w.Insert? then rows + {w.row} else rows - {w.row};
      LastChangeDecides(next, rest, row);
      assert writes == [w] + rest;
      if i: nat :| PutsLast(rest, i, row) { PutsLater(w, rest, i, row); }
      if i: nat :| PutsLast(writes, i, row) && i > 0 { PutsLater(w, rest, i - 1, row); }
      PutsLater(w, rest, 0, row);
    }
  }

  lemma NothingPut(row: Row)
    ensures forall i: nat :: !PutsLast([], i, row)
  {
  }

  /** All changes of a log, oldest first. */
  function AllWrites(log: seq<Entry>): seq<Write> {
    if log == [] then [] else AllWrites(log[..|log| - 1]) + log[|log| - 1].writes
  }

  lemma {:induction false} ChangedInTurn(rows: set<Row>, a: seq<Write>, b: seq<Write>)
    ensures Changed(rows, a + b) == Changed(Changed(rows, a), b)
    decreases |a|
  {
    if a == [] {
      assert a + b == b;
    } else {
      assert (a + b)[1..] == a[1..] + b;
      ChangedInTurn(if a[0].Insert? then rows + {a[0].row} else rows - {a[0].row}, a[1..], b);
    }
  }

  /** The rows of a server are what all changes of its log, one after the other, make of nothing. */
  lemma {:induction false} RowsOfLog(log: seq<Entry>)
    ensures Rows(log) == Changed({}, AllWrites(log))
  {
    if log != [] {
      RowsOfLog(log[..|log| - 1]);
      ChangedInTurn({}, AllWrites(log[..|log| - 1]), log[|log| - 1].writes);
    }
  }

  /** A query of the work sees all of its tenant's rows, with its own changes, and nothing else. */
  lemma WorkSeesExactlyItsOwn(s: State, r: nat)
    requires Reachable(s) && Enabled(s, Local(r, Read))
    ensures var q, t := s.requests[r], Apply(s, Local(r, Read));
      var log := if q.kind.ReadOnly? && s.replicaConfigured then s.replica else s.primary;
      && |t.requests[r].observed| > 0
      && t.requests[r].observed[|t.requests[r].observed| - 1].rows
         == set row | row in Changed(Rows(log), q.writes) && Own(q.kind, row)
  {
    hide Reachable, Rows, Changed, Expected;
    ReachableIsSafe(s);
    assert RequestOk(s, s.requests[r], Of(s.primary, r));
  }

  /** A connection in a pool carries no transaction and no setting, and belongs to no request. */
  lemma IdleIsClean(s: State, c: nat)
    requires Reachable(s) && c in s.idle
    ensures c < |s.conns| && s.conns[c].alive && s.conns[c].tx == NoTx && s.conns[c].settings == map[]
    ensures forall r :: 0 <= r < |s.requests| ==> s.requests[r].lease != Some(c)
  {
    hide Reachable;
    ReachableIsSafe(s);
    forall r | 0 <= r < |s.requests|
      ensures s.requests[r].lease != Some(c)
    {
      assert RequestOk(s, s.requests[r], Of(s.primary, r));
    }
  }

  // ---------------------------------------------------------------- atomicity

  ghost predicate InLog(log: seq<Entry>, r: nat) {
    exists i :: 0 <= i < |log| && log[i].request == r
  }

  lemma {:induction false} OfIsWhatTheLogHolds(log: seq<Entry>, r: nat)
    ensures Of(log, r) == [] <==> !InLog(log, r)
    ensures forall i :: 0 <= i < |log| && log[i].request == r ==> log[i].writes in Of(log, r)
    ensures forall i, j :: 0 <= i < j < |log| && log[i].request == r && log[j].request == r ==> |Of(log, r)| >= 2
  {
    if log != [] {
      OfIsWhatTheLogHolds(log[..|log| - 1], r);
      assert log == log[..|log| - 1] + [log[|log| - 1]];
    }
  }

  /** A request's changes are in the log once, all of them and nothing else, or not at all; never before
      COMMIT is sent. */
  lemma AllOrNothing(s: State, r: nat)
    requires Reachable(s) && r < |s.requests|
    ensures forall i :: 0 <= i < |s.primary| && s.primary[i].request == r ==>
      s.primary[i].writes == s.requests[r].writes
    ensures forall i, j :: 0 <= i < j < |s.primary| ==> !(s.primary[i].request == r == s.primary[j].request)
    ensures !s.requests[r].commitSent ==> !InLog(s.primary, r)
  {
    hide Reachable, HistoryOk, Script, Expected, Of;
    ReachableIsSafe(s);
    OfIsWhatTheLogHolds(s.primary, r);
    assert RequestOk(s, s.requests[r], Of(s.primary, r));
  }

  /** A call that returned has committed its changes exactly when no query of its work failed on the way:
      COMMIT of an aborted transaction rolls back without an error. */
  lemma ReturnedMeansCommitted(s: State, r: nat)
    requires Reachable(s) && r < |s.requests| && s.requests[r].phase == Finished(Returned)
    requires Transactional(s.requests[r].kind)
    ensures InLog(s.primary, r) <==> !s.requests[r].failed && s.requests[r].writes != []
  {
    hide Reachable, HistoryOk, Script, Expected, Of;
    ReachableIsSafe(s);
    OfIsWhatTheLogHolds(s.primary, r);
    assert RequestOk(s, s.requests[r], Of(s.primary, r));
  }

  /** Changes in the log were made by tenant requests on their own rows, or by the admin. */
  lemma OnlyOwnRowsChange(s: State, i: nat, j: nat)
    requires Reachable(s) && i < |s.primary| && j < |s.primary[i].writes|
    ensures s.primary[i].request < |s.requests|
    ensures var kind := s.requests[s.primary[i].request].kind;
      kind.Admin? || (kind.Tenant? && s.primary[i].writes[j].row.tenant == kind.ctx.tenantId != "")
  {
    hide Reachable, AtRest, Coherent;
    ReachableIsSafe(s);
    var r := s.primary[i].request;
    AllOrNothing(s, r);
    HistoryAlwaysOk(s, r);
    assert Own(s.requests[r].kind, s.requests[r].writes[j].row);
  }

  // ---------------------------------------------------------------- conservation

  /** The connections some request holds. */
  ghost function LeasedSet(s: State): set<nat> {
    set c | c in Below(|s.conns|) && Taken(s, c)
  }

  function Below(n: nat): (r: set<nat>)
    ensures |r| == n
    ensures forall c :: c in r <==> 0 <= c < n
  {
    if n == 0 then {} else Below(n - 1) + {n - 1}
  }

  /** Every connection ever opened is idle, leased to exactly one request, or dead. */
  lemma ConnectionsConserved(s: State)
    requires Reachable(s)
    ensures s.idle !! LeasedSet(s) !! s.dead
    ensures s.idle + LeasedSet(s) + s.dead == Below(|s.conns|)
    ensures |s.idle| + |LeasedSet(s)| + |s.dead| == |s.conns|
    ensures forall r1, r2, c :: Leases(s, r1, c) && Leases(s, r2, c) ==> r1 == r2
  {
    hide Reachable, RequestOk, Clean;
    ReachableIsSafe(s);
    forall c | c in LeasedSet(s)
      ensures c !in s.idle && c !in s.dead
    {
      var r :| Leases(s, r, c);
      LeasedElsewhere(s, r, c);
    }
    assert s.idle + LeasedSet(s) + s.dead == Below(|s.conns|);
    assert |s.idle + LeasedSet(s)| == |s.idle| + |LeasedSet(s)|;
    assert |s.idle + LeasedSet(s) + s.dead| == |s.idle + LeasedSet(s)| + |s.dead|;
  }

  /** A finished request has released what it acquired, once; an unfinished one holds at most one. */
  lemma ReleasedOnce(s: State, r: nat)
    requires Reachable(s) && r < |s.requests|
    ensures var q := s.requests[r];
      && q.releases <= q.leases <= 1
      && q.leases == q.releases + (if q.lease.Some? then 1 else 0)
      && (q.phase.Finished? || q.phase.Waiting? <==> q.lease == None)
  {
    hide Reachable, HistoryOk, Script, Expected, Of;
    ReachableIsSafe(s);
    assert RequestOk(s, s.requests[r], Of(s.primary, r));
  }

  lemma PoolsStaySmall(s: State)
    requires Reachable(s)
    ensures |Members(s, AppPool)| <= 20 && |Members(s, ReplicaPool)| <= 10 && |Members(s, AdminPool)| <= 4
  {
    hide Reachable, Members;
    ReachableIsSafe(s);
    assert MaxSize(AppPool) == 20;
  }

  // ---------------------------------------------------------------- routing

  /** No write reaches the replica: what it holds is always a prefix of what the primary committed. */
  lemma ReplicaIsPrefix(s: State)
    requires Reachable(s)
    ensures s.replica <= s.primary
    ensures !s.replicaConfigured ==> forall c :: 0 <= c < |s.conns| ==> s.conns[c].pool != ReplicaPool
  {
    hide Reachable;
    ReachableIsSafe(s);
  }

  /** The replica is reached only by the lag probe and by read-only work, in read-only transactions, and
      only when there is one; all other work runs on the primary. */
  lemma OnlyReadersReachTheReplica(s: State, r: nat, c: nat)
    requires Reachable(s) && Leases(s, r, c)
    ensures c < |s.conns|
    ensures s.conns[c].pool == ReplicaPool ==>
      && s.replicaConfigured
      && (s.requests[r].kind.ReadOnly? || s.requests[r].kind.LagProbe?)
      && s.requests[r].writes == []
      && (s.conns[c].tx.Active? ==> s.conns[c].tx.readOnly)
    ensures s.requests[r].kind.ReadOnly? && s.conns[c].tx.Active? ==> s.conns[c].tx.readOnly
    ensures s.requests[r].kind.ReadOnly? && s.replicaConfigured ==> s.conns[c].pool == ReplicaPool
  {
    hide Reachable, Script, Expected, Of;
    ReachableIsSafe(s);
    assert RequestOk(s, s.requests[r], Of(s.primary, r));
    if s.requests[r].kind.LagProbe? { ProbesOpenNothing(s.requests[r], s.conns[c], Of(s.primary, r)); }
  }

  lemma ProbesOpenNothing(q: Request, k: Connection, mine: seq<seq<Write>>)
    requires Coherent(q, k, mine) && !Transactional(q.kind)
    ensures q.writes == [] && !k.tx.Active?
  {
    hide Script, Expected;
    if q.phase.Setup? { ProbeStartsClean(q, k, mine); }
  }

  /** Whose pool a request's connection comes from: read-only work and the lag probe are at the replica when there
      is one; the admin has a pool of its own; all else, and read-only work without a replica, is at the primary. */
  lemma WhichPool(s: State, r: nat, c: nat)
    requires Reachable(s) && Leases(s, r, c)
    ensures c < |s.conns|
    ensures var kind, pool := s.requests[r].kind, s.conns[c].pool;
      && (kind.LagProbe? ==> s.replicaConfigured && pool == ReplicaPool)
      && (kind.ReadOnly? ==> pool == if s.replicaConfigured then ReplicaPool else AppPool)
      && (kind.Tenant? || kind.Anonymous? || kind.Ping? ==> pool == AppPool)
      && (kind.Admin? ==> pool == AdminPool)
  {
    hide Reachable, Coherent, Of;
    ReachableIsSafe(s);
    assert RequestOk(s, s.requests[r], Of(s.primary, r));
  }

  /** The replica can always catch up: as many steps as it is behind bring it to the primary's state. */
  lemma {:induction false} ReplicaCanCatchUp(s: State) returns (steps: seq<Action>, t: State)
    requires Reachable(s)
    ensures Run(s, steps) == Some(t) && |steps| == |s.primary| - |s.replica|
    ensures t.replica == s.primary == t.primary && t.requests == s.requests && t.conns == s.conns
    decreases |s.primary| - |s.replica|
  {
    hide Reachable, Enabled, Apply;
    ReplicaIsPrefix(s);
    if |s.replica| < |s.primary| {
      OneReplicated(s);
      var u := Then(s, Replicate);
      var rest;
      rest, t := ReplicaCanCatchUp(u);
      steps := [Replicate] + rest;
      RunFirst(s, Replicate, rest);
    } else {
      steps, t := [], s;
    }
  }

  lemma OneReplicated(s: State)
    requires |s.replica| < |s.primary|
    ensures Enabled(s, Replicate)
    ensures Apply(s, Replicate) == s.(replica := s.replica + [s.primary[|s.replica|]])
  {
  }

  /** The lag probe hides every failure but one: it throws exactly when it gets no connection. */
  lemma LagProbeThrows(s: State, r: nat)
    requires Reachable(s) && r < |s.requests| && s.requests[r].kind.LagProbe? && s.requests[r].phase.Finished?
    ensures s.requests[r].phase.ending == Threw <==> s.requests[r].leases == 0 && s.replicaConfigured
  {
    hide Reachable, HistoryOk, Of;
    ReachableIsSafe(s);
    assert RequestOk(s, s.requests[r], Of(s.primary, r));
  }

  // ---------------------------------------------------------------- both provisos are needed

  lemma {:induction false} RunOn(s: State, before: seq<Action>, a: Action)
    requires Run(s, before).Some? && Enabled(Run(s, before).value, a)
    ensures Run(s, before + [a]) == Some(Apply(Run(s, before).value, a))
    decreases |before|
  {
    hide Enabled, Apply;
    if before == [] {
      assert Run(Apply(s, a), []) == Some(Apply(s, a));
      assert ([] + [a])[1..] == [];
    } else {
      RunOn(Apply(s, before[0]), before[1..], a);
      assert (before + [a])[1..] == before[1..] + [a];
    }
  }

  /** One more enabled action leads from a reachable state to a reachable state. */
  lemma Then(s: State, a: Action) returns (t: State)
    requires Reachable(s) && Enabled(s, a)
    ensures t == Apply(s, a) && Reachable(t)
  {
    hide Run, Enabled;
    t := Apply(s, a);
    var before :| Run(Initial(s.replicaConfigured), before) == Some(s);
    RunOn(Initial(s.replicaConfigured), before, a);
    ModeKept(s, a);
  }

  lemma ModeKept(s: State, a: Action)
    requires Enabled(s, a)
    ensures Apply(s, a).replicaConfigured == s.replicaConfigured
  {
  }

  lemma StartIsReachable(replicaConfigured: bool)
    ensures Reachable(Initial(replicaConfigured))
  {
    assert Run(Initial(replicaConfigured), []) == Some(Initial(replicaConfigured));
  }

  /** One admin request with the only connection, and nothing committed. */
  function Alone(q: Request, k: Connection): State {
    State(false, [k], {}, {}, [q], [], [])
  }

  lemma StepAlone(q: Request, k: Connection, step: Step) returns (q1: Request, k1: Connection)
    requires Reachable(Alone(q, k)) && q.lease == Some(0) && k.pool == AdminPool && StepEnabled(q, k, step)
    requires Next(q, k, step, {}).committed == []
    ensures q1 == Next(q, k, step, {}).request && k1 == Next(q, k, step, {}).connection
    ensures Reachable(Alone(q1, k1))
  {
    hide Reachable, Run, Next, StepEnabled;
    var o := Next(q, k, step, {});
    q1, k1 := o.request, o.connection;
    var s := Then(Alone(q, k), Local(0, step));
    assert Rows([]) == {};
    assert s == Alone(q1, k1);
  }

  lemma StartAlone(kind: Kind) returns (q: Request, k: Connection)
    requires kind.Admin?
    ensures q == Leased(Arrived(kind, false), 0) && k == Fresh(AdminPool)
    ensures Reachable(Alone(q, k))
  {
    hide Reachable, Run;
    StartIsReachable(false);
    var s := Then(Initial(false), Arrive(kind));
    assert Members(s, AdminPool) == {};
    s := Then(s, Open(0));
    q, k := Leased(Arrived(kind, false), 0), Fresh(AdminPool);
    assert s == Alone(q, k);
  }

  /** An admin at work, before any query. */
  lemma AtWorkAlone(kind: Kind) returns (q: Request, k: Connection)
    requires kind == Admin(Actor(None, None, None, None))
    ensures Reachable(Alone(q, k)) && k == Connection(AdminPool, true, Active(false, []), map[])
    ensures q == Request(kind, Working, Some(0), [], [], false, false, 1, 0)
  {
    hide Reachable, Run, Apply, Alone, Script;
    PlainScript();
    q, k := StartAlone(kind);
    q, k := StepAlone(q, k, Query);
  }

  lemma FailedAlone(q: Request, k: Connection, w: Write) returns (q1: Request, k1: Connection)
    requires Reachable(Alone(q, k)) && k.alive && k.pool == AdminPool && k.tx == Active(false, [])
    requires q.phase == Working && q.lease == Some(0) && q.writes == []
    ensures Reachable(Alone(q1, k1)) && k1.alive && k1.pool == AdminPool && k1.tx == Aborted
    ensures q1.phase == Working && q1.lease == Some(0) && q1.writes == [w]
  {
    hide Reachable, Run, Apply, Alone, Script;
    q1, k1 := StepAlone(q, k, Change(w));
    q1, k1 := StepAlone(q1, k1, Fail);
  }

  /** A call whose work swallows a failed query returns although its change is lost. */
  lemma SwallowedFailure(w: Write) returns (s: State)
    ensures Reachable(s) && |s.requests| == 1
    ensures s.requests[0].phase == Finished(Returned) && s.requests[0].writes == [w] && s.primary == []
  {
    hide Reachable, Run, Apply, Alone, Script;
    var q, k := AtWorkAlone(Admin(Actor(None, None, None, None)));
    q, k := FailedAlone(q, k, w);
    q, k := StepAlone(q, k, Return);
    q, k := StepAlone(q, k, Commit);
    s := EndAlone(q, k);
  }

  lemma PlainScript()
    ensures Script(Admin(Actor(None, None, None, None))) == [Begin(false)]
  {
  }

  lemma EndAlone(q: Request, k: Connection) returns (s: State)
    requires Reachable(Alone(q, k)) && q.lease == Some(0) && q.phase.Releasing?
    ensures Reachable(s) && s.requests == [Released(q)] && s.primary == []
  {
    hide Reachable, Run;
    s := Then(Alone(q, k), Release(0));
  }

  /** The lag probe throws when its pool refuses a connection. */
  lemma LagProbeRefused() returns (s: State)
    ensures Reachable(s) && |s.requests| == 1
    ensures s.requests[0].kind == LagProbe && s.requests[0].phase == Finished(Threw)
  {
    hide Reachable, Run;
    StartIsReachable(true);
    s := Then(Initial(true), Arrive(LagProbe));
    s := Then(s, Refuse(0));
  }

  // ---------------------------------------------------------------- nobody gets stuck

  /** How many steps of its own a request is away from releasing, at most. */
  function StepsLeft(q: Request): nat {
    match q.phase
    case Waiting => 0
    case Setup(n) => if n < |Script(q.kind)| then |Script(q.kind)| - n + 4 else 5
    case Working => 4
    case Committing => 3
    case RollingBack => 2
    case Releasing(_) => 1
    case Finished(_) => 0
  }

  function OwnStep(q: Request, k: Connection): Step {
    if !k.alive && !q.phase.Working? then Lost
    else
      match q.phase
      case Setup(_) => Query
      case Working => Throw
      case Committing => Commit
      case _ => Rollback
  }

  lemma OwnStepLeads(q: Request, k: Connection, mine: seq<seq<Write>>, rows: set<Row>)
    requires Coherent(q, k, mine) && !q.phase.Releasing?
    ensures StepEnabled(q, k, OwnStep(q, k))
    ensures StepsLeft(Next(q, k, OwnStep(q, k), rows).request) < StepsLeft(q)
    ensures Next(q, k, OwnStep(q, k), rows).request.lease == q.lease
  {
    hide Script, HistoryOk, Expected, Ran;
    if q.phase.Setup? && q.phase.next + 1 == |Script(q.kind)| { assert StepsLeft(q) == 5; }
  }

  predicate OwnAction(a: Action, r: nat) {
    match a
    case Local(r1, _) => r1 == r
    case Release(r1) => r1 == r
    case _ => false
  }

  /** From this very state, whatever others have done and whatever has failed: a request that holds a
      connection can release it by at most `StepsLeft` steps, all of them its own. */
  lemma {:induction false} CanAlwaysRelease(s: State, r: nat) returns (steps: seq<Action>, t: State)
    requires Reachable(s) && r < |s.requests| && s.requests[r].lease.Some?
    ensures Run(s, steps) == Some(t)
    ensures |steps| <= StepsLeft(s.requests[r])
    ensures forall i :: 0 <= i < |steps| ==> OwnAction(steps[i], r)
    ensures r < |t.requests| && t.requests[r].phase.Finished? && t.requests[r].lease == None
    ensures t.requests[r].leases == 1 == t.requests[r].releases
    decreases StepsLeft(s.requests[r])
  {
    hide Reachable, Next, StepEnabled, StepsLeft, OwnStep, Rows, Of, Members, PhaseOk, HistoryOk;
    ReachableIsSafe(s);
    var q := s.requests[r];
    assert RequestOk(s, q, Of(s.primary, r));
    var k := s.conns[q.lease.value];
    if q.phase.Releasing? {
      OneLeft(q);
      t := Then(s, Release(r));
      steps := [Release(r)];
      RunOne(s, Release(r));
    } else {
      var step := OwnStep(q, k);
      OwnStepLeads(q, k, Of(s.primary, r), Rows(Server(s, k.pool)));
      var u := Then(s, Local(r, step));
      var rest;
      rest, t := CanAlwaysRelease(u, r);
      steps := [Local(r, step)] + rest;
      RunFirst(s, Local(r, step), rest);
    }
  }

  lemma RunOne(s: State, a: Action)
    requires Enabled(s, a)
    ensures Run(s, [a]) == Some(Apply(s, a))
  {
    hide Enabled, Apply;
    RunFirst(s, a, []);
    assert [a] + [] == [a];
  }

  lemma RunFirst(s: State, a: Action, rest: seq<Action>)
    requires Enabled(s, a)
    ensures Run(s, [a] + rest) == Run(Apply(s, a), rest)
  {
    hide Enabled, Apply;
    assert ([a] + rest)[1..] == rest;
  }

  lemma OneLeft(q: Request)
    requires q.phase.Releasing?
    ensures StepsLeft(q) == 1
  {
  }

  // ---------------------------------------------------------------- the past stays

  /** A state that comes later in some run. */
  ghost predicate Later(s: State, t: State) {
    exists actions :: Run(s, actions) == Some(t)
  }

  /** What is committed stays committed, in its place; a request keeps its kind, and once over it stays as
      it is. */
  ghost predicate PastKept(s: State, t: State) {
    && s.primary <= t.primary && s.replica <= t.replica
    && |s.requests| <= |t.requests|
    && (forall r :: 0 <= r < |s.requests| ==> s.requests[r].kind == t.requests[r].kind)
    && (forall r :: 0 <= r < |s.requests| && s.requests[r].phase.Finished? ==> s.requests[r] == t.requests[r])
    && t.replicaConfigured == s.replicaConfigured
  }

  lemma LocalKeepsPast(s: State, r: nat, step: Step)
    requires Safe(s) && Enabled(s, Local(r, step))
    ensures PastKept(s, Apply(s, Local(r, step)))
  {
    hide Safe, Coherent, Rows, Next, StepEnabled, Log;
    var q, c := s.requests[r], s.requests[r].lease.value;
    assert !q.phase.Finished? by { HolderIsNotOver(s, r); }
    NextKeepsKind(q, s.conns[c], step, Rows(Server(s, s.conns[c].pool)));
    LogExtends(s.primary, r, Next(q, s.conns[c], step, Rows(Server(s, s.conns[c].pool))).committed);
    LogExtends(s.replica, r, Next(q, s.conns[c], step, Rows(Server(s, s.conns[c].pool))).committed);
  }

  lemma HolderIsNotOver(s: State, r: nat)
    requires Safe(s) && AtWork(s, r)
    ensures !s.requests[r].phase.Finished?
  {
    hide Exclusive, IdleOk, DeadOk, Accounted, LogsOk, SizesOk, Of, HistoryOk, Script, Ran;
    assert RequestOk(s, s.requests[r], Of(s.primary, r));
  }

  lemma StepKeepsPast(s: State, a: Action)
    requires Safe(s) && Enabled(s, a)
    ensures PastKept(s, Apply(s, a))
  {
    hide Safe, Coherent, Rows, Members, Next, StepEnabled;
    match a
    case Local(r, step) => LocalKeepsPast(s, r, step);
    case _ =>
  }

  lemma NextKeepsKind(q: Request, k: Connection, step: Step, rows: set<Row>)
    requires StepEnabled(q, k, step)
    ensures Next(q, k, step, rows).request.kind == q.kind
  {
    hide Script;
  }

  lemma {:induction false} RunKeepsPast(s: State, actions: seq<Action>)
    requires Safe(s) && Run(s, actions).Some?
    ensures PastKept(s, Run(s, actions).value)
    decreases |actions|
  {
    hide Safe, Enabled, Apply;
    if actions != [] {
      var u := Apply(s, actions[0]);
      EveryStepKeepsSafe(s, actions[0]);
      StepKeepsPast(s, actions[0]);
      RunKeepsPast(u, actions[1..]);
    }
  }

  /** The log only grows and finished requests never change, along every run. */
  lemma LaterKeepsPast(s: State, t: State)
    requires Reachable(s) && Later(s, t)
    ensures PastKept(s, t)
    ensures forall r :: InLog(s.primary, r) ==> InLog(t.primary, r)
  {
    hide Reachable, Run;
    ReachableIsSafe(s);
    var actions :| Run(s, actions) == Some(t);
    RunKeepsPast(s, actions);
    forall r | InLog(s.primary, r)
      ensures InLog(t.primary, r)
    {
      var i :| 0 <= i < |s.primary| && s.primary[i].request == r;
      assert t.primary[i].request == r;
    }
  }
}
