/**
 The transaction helpers in the form the services have: connect, try, catch, finally. While one of them
 is at work, other requests and the servers go on; what happens between its statements, and how each
 statement is answered, comes from an environment that nothing is known about. Every call is shown to be
 a run of the pool protocol from the state it starts in, made of its own actions and those the environment
 has others do, that ends with its connection released; and to fail only when there is a reason to.
 */
module TransactionHelpers {
  import opened Results
  import opened PoolProtocol
  import opened PoolSafety
  import opened PoolTheorems

  datatype Answer = Good | Error | Broken

  /** At each moment: what others do meanwhile, how a statement is answered, which connection is offered. */
  datatype Environment = Environment(others: nat -> seq<Action>, answer: nat -> Answer, offer: nat -> Option<nat>)

  datatype Operation = Look | Alter(write: Write)

  /** A callback: its queries, whether it catches the failure of each, and whether it throws in the end. */
  datatype Task = Task(op: Operation, catches: bool)

  datatype Work = Work(tasks: seq<Task>, throws: bool)

  predicate CatchesNothing(work: Work) {
    forall i :: 0 <= i < |work.tasks| ==> !work.tasks[i].catches
  }

  /** The changes a callback makes when every query succeeds. */
  function Alterations(tasks: seq<Task>): seq<Write>
    decreases |tasks|
  {
    if tasks == [] then []
    else
      var before, last := Alterations(tasks[..|tasks| - 1]), tasks[|tasks| - 1];
      before + Made(last.op)
  }

  function Made(op: Operation): seq<Write> {
    if op.Alter? then [op.write] else []
  }

  /** How many queries of a callback only look. */
  function Looks(tasks: seq<Task>): nat
    decreases |tasks|
  {
    if tasks == [] then 0
    else Looks(tasks[..|tasks| - 1]) + (if tasks[|tasks| - 1].op.Look? then 1 else 0)
  }

  /** The database allows the query: read-only work changes nothing, a tenant only its own rows. */
  predicate Permitted(kind: Kind, op: Operation) {
    op.Alter? ==> !kind.ReadOnly? && Own(kind, op.write.row)
  }

  predicate AllPermitted(kind: Kind, tasks: seq<Task>) {
    forall i :: 0 <= i < |tasks| ==> Permitted(kind, tasks[i].op)
  }

  predicate Mine(a: Action, r: nat) {
    match a
    case Open(r1) => r1 == r
    case Lease(r1, _) => r1 == r
    case Refuse(r1) => r1 == r
    case Local(r1, _) => r1 == r
    case Release(r1) => r1 == r
    case _ => false
  }

  /** Every query that is not permitted, and every one after it, has its failure caught. */
  predicate Survives(kind: Kind, tasks: seq<Task>) {
    forall i :: 0 <= i < |tasks| ==> tasks[i].catches || AllPermitted(kind, tasks[..i + 1])
  }

  /** Only a change can be refused, so work that is not permitted has one. */
  lemma {:induction false} ForbiddenAlters(kind: Kind, tasks: seq<Task>)
    requires !AllPermitted(kind, tasks)
    ensures Alterations(tasks) != []
  {
    hide Own;
    var before, last := tasks[..|tasks| - 1], tasks[|tasks| - 1];
    if Permitted(kind, last.op) {
      assert !AllPermitted(kind, before);
      ForbiddenAlters(kind, before);
    }
  }

  /** Others never touch a request. */
  lemma OthersLeaveAlone(s: State, a: Action, r: nat)
    requires r < |s.requests| && Enabled(s, a) && !Mine(a, r)
    ensures r < |Apply(s, a).requests| && Apply(s, a).requests[r] == s.requests[r]
  {
    hide Next, StepEnabled, Rows, Members;
  }

  lemma HoldsItsConnection(s: State, r: nat)
    requires Reachable(s) && r < |s.requests|
    ensures s.requests[r].lease.Some? ==> AtWork(s, r)
    ensures s.requests[r].lease == None <==> s.requests[r].phase.Waiting? || s.requests[r].phase.Finished?
  {
    hide Reachable, RequestOk, Of;
    ReachableIsSafe(s);
    ReleasedOnce(s, r);
    if s.requests[r].lease.Some? { LeasedElsewhere(s, r, s.requests[r].lease.value); }
  }

  predicate NoDeaths(others: seq<Action>) {
    forall i :: 0 <= i < |others| ==> !others[i].Die?
  }

  /** Unless a connection dies, others do not touch the one a request holds either. */
  lemma OthersLeaveConnection(s: State, a: Action, r: nat)
    requires Reachable(s) && Enabled(s, a) && !Mine(a, r) && !a.Die? && AtWork(s, r)
    ensures AtWork(Apply(s, a), r)
    ensures Apply(s, a).conns[s.requests[r].lease.value] == s.conns[s.requests[r].lease.value]
  {
    hide Reachable, RequestsOk, IdleOk, DeadOk, Accounted, LogsOk, SizesOk, Next, StepEnabled, Rows, Members;
    ReachableIsSafe(s);
    OthersLeaveAlone(s, a, r);
  }

  /** The state after others have had their turn; what is not possible when it comes up does not happen. */
  function Interfered(s: State, others: seq<Action>, r: nat): State
    decreases |others|
  {
    if others == [] then s
    else
      var t, a := Interfered(s, others[..|others| - 1], r), others[|others| - 1];
      if !Mine(a, r) && Enabled(t, a) then Apply(t, a) else t
  }

  /** `pool.connect()` has something to give: an idle connection on offer, or room to open one. */
  predicate CanConnect(env: Environment, s: State, r: nat, clock: nat) {
    || (env.offer(clock).Some? && Enabled(s, Lease(r, env.offer(clock).value)))
    || (env.answer(clock) == Good && Enabled(s, Open(r)))
  }

  /** An idle connection of this pool is on offer, or one more can be opened, because the server answers and the
      pool has fewer than its maximum. */
  predicate HasRoom(env: Environment, s: State, pool: Pool, maximum: nat, clock: nat) {
    || (match env.offer(clock)
        case None => false
        case Some(c) => c in s.idle && c < |s.conns| && s.conns[c].pool == pool)
    || (env.answer(clock) == Good && |Members(s, pool)| < maximum)
  }

  /** Which pool that is, and how large it may be, for every kind of call. */
  lemma CanConnectWhen(env: Environment, s: State, r: nat, clock: nat)
    requires r < |s.requests| && s.requests[r].phase.Waiting?
    ensures var kind := s.requests[r].kind;
      && (kind.Tenant? || kind.Anonymous? || kind.Ping? ==>
            (CanConnect(env, s, r, clock) <==> HasRoom(env, s, AppPool, 20, clock)))
      && (kind.Admin? ==> (CanConnect(env, s, r, clock) <==> HasRoom(env, s, AdminPool, 4, clock)))
      && (kind.ReadOnly? && !s.replicaConfigured ==>
            (CanConnect(env, s, r, clock) <==> HasRoom(env, s, AppPool, 20, clock)))
      && (s.replicaConfigured && (kind.ReadOnly? || kind.LagProbe?) ==>
            (CanConnect(env, s, r, clock) <==> HasRoom(env, s, ReplicaPool, 10, clock)))
  {
    hide Members;
  }

  /** The same for a call that arrives in state s, when it comes to connect. */
  predicate Served(env: Environment, s: State, kind: Kind, clock: nat) {
    var r := |s.requests|;
    CanConnect(env, Interfered(Apply(s, Arrive(kind)), env.others(clock), r), r, clock + 1)
  }

  /** From one moment to another every statement is answered, and no connection dies meanwhile. */
  ghost predicate Calm(env: Environment, from: nat, to: nat) {
    forall t: nat :: from <= t < to ==> NoDeaths(env.others(t)) && env.answer(t + 1) == Good
  }

  /** The request holds a connection that is alive. */
  predicate Healthy(s: State, r: nat) {
    AtWork(s, r) && s.conns[s.requests[r].lease.value].alive
  }

  /** The connection the request holds, as it stands. */
  function ItsConnection(s: State, r: nat): Option<Connection> {
    if AtWork(s, r) then Some(s.conns[s.requests[r].lease.value]) else None
  }

  /** During the work, on a live connection: an aborted transaction after a failure; before one, a
      transaction that allows exactly what is permitted. */
  lemma WorkingHolds(s: State, r: nat)
    requires Reachable(s) && Healthy(s, r) && s.requests[r].phase.Working?
    ensures var q, k := s.requests[r], s.conns[s.requests[r].lease.value];
      && (q.failed <==> k.tx == Aborted)
      && (!q.failed ==> k.tx == Active(q.kind.ReadOnly?, q.writes)
                        && forall w :: MayChange(k, w) <==> Own(q.kind, w.row))
  {
    hide Reachable, HistoryOk, Expected, Of;
    ReachableIsSafe(s);
    assert RequestOk(s, s.requests[r], Of(s.primary, r));
  }

  /** A request that is served gets a live connection. */
  lemma LeasedIsHealthy(s: State, r: nat, c: nat)
    requires Reachable(s) && Enabled(s, Lease(r, c))
    ensures Healthy(Apply(s, Lease(r, c)), r)
  {
    hide Reachable, RequestsOk, Exclusive, DeadOk, Accounted, LogsOk, SizesOk, Clean;
    ReachableIsSafe(s);
  }

  lemma WaitingHasNoLease(s: State, r: nat)
    requires Reachable(s) && r < |s.requests| && s.requests[r].phase.Waiting?
    ensures s.requests[r] == Arrived(s.requests[r].kind, s.replicaConfigured)
  {
    hide Reachable, Exclusive, IdleOk, DeadOk, Accounted, LogsOk, SizesOk;
    ReachableIsSafe(s);
    WaitingIsFresh(s, r);
  }

  lemma StaysHealthy(s: State, a: Action, r: nat)
    requires Reachable(s) && Enabled(s, a) && !Mine(a, r) && !a.Die? && r < |s.requests| && Healthy(s, r)
    ensures Healthy(Apply(s, a), r) && ItsConnection(Apply(s, a), r) == ItsConnection(s, r)
  {
    hide Reachable, Enabled, Apply;
    OthersLeaveAlone(s, a, r);
    OthersLeaveConnection(s, a, r);
  }

  /** When the last statement before the end was answered: ROLLBACK comes after it. */
  function Decided(clock: nat, ending: Ending): nat {
    if ending == Threw && clock > 0 then clock - 1 else clock
  }

  lemma CalmWithin(env: Environment)
    ensures forall from: nat, a: nat, b: nat, to: nat :: from <= a <= b <= to && Calm(env, from, to) ==> Calm(env, a, b)
  {
  }

  lemma CalmParts(env: Environment, from: nat, middle: nat, to: nat)
    requires from <= middle <= to
    ensures Calm(env, from, to) ==> Calm(env, from, middle) && Calm(env, middle, to)
  {
  }

  lemma ServedIs(env: Environment, s: State, kind: Kind, clock: nat)
    ensures var r := |s.requests|;
      Served(env, s, kind, clock)
      <==> CanConnect(env, Interfered(Apply(s, Arrive(kind)), env.others(clock), r), r, clock + 1)
  {
  }

  lemma NoLeaseNoCommit(s: State, r: nat)
    requires Reachable(s) && r < |s.requests| && s.requests[r].phase.Finished? && s.requests[r].leases == 0
    ensures !InLog(s.primary, r) && !s.requests[r].commitSent
  {
    hide Reachable, HistoryOk, Script, Expected, Of;
    ReachableIsSafe(s);
    OfIsWhatTheLogHolds(s.primary, r);
    assert RequestOk(s, s.requests[r], Of(s.primary, r));
  }

  /** One of the call's own actions, or one the environment has others do at some time. */
  ghost predicate Allowed(env: Environment, a: Action, r: nat) {
    Mine(a, r) || exists t: nat :: a in env.others(t)
  }

  /** State t comes about by a call that arrives in s, its own actions, and what the environment has others
      do. */
  ghost predicate CallOf(env: Environment, s: State, kind: Kind, t: State) {
    exists rest: seq<Action> ::
      && Run(s, [Arrive(kind)] + rest) == Some(t)
      && forall i :: 0 <= i < |rest| ==> Allowed(env, rest[i], |s.requests|)
  }

  /** A call undoes nothing: the log only grows, requests that are over stay as they are, and what was
      committed stays committed. */
  lemma CallKeepsPast(env: Environment, s: State, kind: Kind, t: State)
    requires Reachable(s) && CallOf(env, s, kind, t)
    ensures Later(s, t) && PastKept(s, t)
    ensures forall r :: InLog(s.primary, r) ==> InLog(t.primary, r)
  {
    hide Run, Reachable, PastKept, InLog;
    var rest :| Run(s, [Arrive(kind)] + rest) == Some(t);
    LaterKeepsPast(s, t);
  }

  class TenantAwareDb {
    const replicaConfigured: bool
    const env: Environment
    var state: State
    var clock: nat
    /** The state the current call started in, its kind, and all actions since it arrived. */
    ghost var origin: State
    ghost var calling: Kind
    ghost var rest: seq<Action>

    ghost predicate Valid(): (v: bool)
      reads `state
      ensures v ==> Reachable(state)
    {
      Reachable(state) && state.replicaConfigured == replicaConfigured
    }

    /** Request r is the current call, and everything since it arrived is accounted for. */
    ghost predicate Serving(r: nat): (v: bool)
      reads `state, `origin, `calling, `rest
      ensures v ==> Valid() && Reachable(state)
    {
      && Valid() && r == |origin.requests|
      && Run(origin, [PoolProtocol.Arrive(calling)] + rest) == Some(state)
      && forall i :: 0 <= i < |rest| ==> Allowed(env, rest[i], r)
    }

    constructor (replicaConfigured: bool, env: Environment)
      ensures Valid() && state == Initial(replicaConfigured)
      ensures this.env == env && this.replicaConfigured == replicaConfigured
    {
      this.replicaConfigured, this.env := replicaConfigured, env;
      state, clock := Initial(replicaConfigured), 0;
      origin, calling, rest := Initial(replicaConfigured), PoolProtocol.Ping, [];
      new;
      StartIsReachable(replicaConfigured);
    }

    /** The call r of a given kind is in this phase. */
    predicate In(r: nat, kind: Kind, phase: Phase)
      reads this
    {
      r < |state.requests| && state.requests[r].kind == kind && state.requests[r].phase == phase
    }

    method Do(a: Action, ghost r: nat)
      requires Serving(r) && Enabled(state, a) && Allowed(env, a, r)
      modifies `state, `rest
      ensures Serving(r) && state == Apply(old(state), a)
    {
      hide Reachable, Run, Enabled, Apply, Allowed;
      ghost var t := Then(state, a);
      ModeKept(state, a);
      ghost var actions := [PoolProtocol.Arrive(calling)] + rest;
      RunOn(origin, actions, a);
      assert actions + [a] == [PoolProtocol.Arrive(calling)] + (rest + [a]);
      state := Apply(state, a);
      rest := rest + [a];
    }

    /** Time passes: others act, the call r does not. */
    method Elapse(r: nat)
      requires Serving(r) && r < |state.requests|
      modifies `state, `rest, `clock
      ensures Serving(r) && clock == old(clock) + 1
      ensures state == Interfered(old(state), env.others(old(clock)), r)
      ensures r < |state.requests| && state.requests[r] == old(state.requests[r])
      ensures NoDeaths(env.others(old(clock))) && old(Healthy(state, r)) ==>
        Healthy(state, r) && ItsConnection(state, r) == old(ItsConnection(state, r))
    {
      hide Serving, Valid, Reachable, Enabled, Apply, Healthy, ItsConnection;
      var others := env.others(clock);
      for i := 0 to |others|
        invariant Serving(r) && clock == old(clock)
        invariant state == Interfered(old(state), others[..i], r)
        invariant r < |state.requests| && state.requests[r] == old(state.requests[r])
        invariant NoDeaths(others) && old(Healthy(state, r)) ==>
          Healthy(state, r) && ItsConnection(state, r) == old(ItsConnection(state, r))
      {
        var a := others[i];
        assert others[..i + 1][..i] == others[..i];
        if !Mine(a, r) && Enabled(state, a) {
          OthersLeaveAlone(state, a, r);
          if NoDeaths(others) && Healthy(state, r) { StaysHealthy(state, a, r); }
          assert a in env.others(clock);
          Do(a, r);
        }
      }
      assert others[..|others|] == others;
      clock := clock + 1;
    }

    method Arrive(kind: Kind) returns (r: nat)
      requires Valid()
      modifies `state, `origin, `calling, `rest
      ensures r == old(|state.requests|) && Serving(r) && origin == old(state) && calling == kind
      ensures state == Apply(old(state), PoolProtocol.Arrive(kind))
      ensures r < |state.requests| && state.requests[r] == Arrived(kind, old(state.replicaConfigured))
    {
      hide Reachable, Run;
      r := |state.requests|;
      ghost var t := Then(state, PoolProtocol.Arrive(kind));
      RunOne(state, PoolProtocol.Arrive(kind));
      origin, calling, rest := state, kind, [];
      state := Apply(state, PoolProtocol.Arrive(kind));
      assert [PoolProtocol.Arrive(kind)] + [] == [PoolProtocol.Arrive(kind)];
    }

    /** `pool.connect()`. */
    method Connect(r: nat, kind: Kind) returns (ok: bool)
      requires Serving(r) && In(r, kind, Waiting)
      modifies `state, `rest, `clock
      ensures Serving(r) && clock == old(clock) + 1
      ensures ok <==> CanConnect(env, Interfered(old(state), env.others(old(clock)), r), r, clock)
      ensures In(r, kind, if ok then Setup(0) else Finished(Threw)) && (ok ==> Healthy(state, r))
      ensures Untouched(state.requests[r]) && state.requests[r].leases == if ok then 1 else 0
    {
      hide Serving, Valid, Reachable, Members, Interfered;
      Elapse(r);
      WaitingHasNoLease(state, r);
      var offer := env.offer(clock);
      if offer.Some? && Enabled(state, Lease(r, offer.value)) {
        LeasedIsHealthy(state, r, offer.value);
        Do(Lease(r, offer.value), r);
        return true;
      }
      if env.answer(clock) == Good && Enabled(state, Open(r)) {
        Do(Open(r), r);
        return true;
      }
      Do(Refuse(r), r);
      return false;
    }

    /** `client.query(...)` for one statement of the script: it goes through exactly when it is answered on a
        live connection. */
    method Statement(r: nat, kind: Kind, n: nat, st: Statement) returns (ok: bool)
      requires Serving(r) && In(r, kind, Setup(n)) && n < |Script(kind)| && Script(kind)[n] == st
      modifies `state, `rest, `clock
      ensures Serving(r) && clock == old(clock) + 1
      ensures In(r, kind, if !ok then AfterFailure(kind)
                          else if n + 1 < |Script(kind)| then Setup(n + 1) else AfterSetup(kind))
      ensures SameWork(state.requests[r], old(state.requests[r]))
      ensures ok <==> env.answer(clock) == Good && Healthy(state, r)
      ensures NoDeaths(env.others(old(clock))) && old(Healthy(state, r)) ==> Healthy(state, r)
    {
      hide Serving, Valid, Reachable, Script, Rows, Execute, Members, Interfered, NoDeaths;
      Elapse(r);
      HoldsItsConnection(state, r);
      ExecuteKeeps(state.conns[state.requests[r].lease.value], st);
      if !state.conns[state.requests[r].lease.value].alive {
        Do(Local(r, Lost), r);
        return false;
      }
      if env.answer(clock) == Good {
        Do(Local(r, Query), r);
        return true;
      }
      Do(Local(r, Fail), r);
      return false;
    }

    /** `if (value) await client.query(set_config ...)`, unless an earlier statement threw. */
    method StatementIfGiven(r: nat, kind: Kind, n: nat, name: Setting, value: Option<string>, ok: bool)
      returns (ok1: bool, n1: nat)
      requires Serving(r) && Transactional(kind) && n + |IfGiven(name, value)| <= |Script(kind)|
      requires Script(kind)[n..n + |IfGiven(name, value)|] == IfGiven(name, value)
      requires In(r, kind, if !ok then RollingBack else At(kind, n))
      modifies `state, `rest, `clock
      ensures Serving(r) && clock >= old(clock)
      ensures n1 == n + |IfGiven(name, value)| && clock <= old(clock) + |IfGiven(name, value)|
      ensures In(r, kind, if !ok1 then RollingBack else At(kind, n1))
      ensures SameWork(state.requests[r], old(state.requests[r]))
      ensures Calm(env, old(clock), clock) && ok && old(Healthy(state, r)) ==> ok1 && Healthy(state, r)
    {
      hide Serving, Valid, Reachable, Script, Healthy;
      ok1, n1 := ok, n;
      if value.Some? && value.value != "" {
        n1 := n + 1;
        if ok {
          assert Script(kind)[n..n + 1][0] == Script(kind)[n];
          ok1 := Statement(r, kind, n, SetLocal(name, value.value));
        }
      }
    }

    /** One query of the callback. A failure on a live connection aborts the transaction. */
    method WorkQuery(r: nat, kind: Kind, op: Operation) returns (ok: bool)
      requires Serving(r) && In(r, kind, Working)
      modifies `state, `rest, `clock
      ensures Serving(r) && clock == old(clock) + 1
      ensures In(r, kind, Working) && state.requests[r].leases == old(state.requests[r].leases)
      ensures ok ==> state.requests[r].failed == old(state.requests[r].failed)
      ensures ok ==> state.requests[r].writes == old(state.requests[r].writes) + Made(op)
      ensures ok ==> |state.requests[r].observed| == old(|state.requests[r].observed|) + if op.Look? then 1 else 0
      ensures Calm(env, old(clock), clock) && old(Healthy(state, r)) ==>
        Healthy(state, r) && (ok <==> !old(state.requests[r].failed) && Permitted(kind, op))
        && (state.requests[r].failed <==> !ok)
    {
      hide Serving, Valid, Reachable, Script, Rows, Members, MayChange, Visible, Changed, Interfered, NoDeaths, Own;
      Elapse(r);
      HoldsItsConnection(state, r);
      var k := state.conns[state.requests[r].lease.value];
      var step := if op.Alter? then Change(op.write) else Read;
      if !k.alive {
        Do(Local(r, Lost), r);
        return false;
      }
      WorkingHolds(state, r);
      if env.answer(clock) == Good && StepEnabled(state.requests[r], k, step) {
        Do(Local(r, step), r);
        return true;
      }
      Do(Local(r, Fail), r);
      return false;
    }

    /** `await work(db, client)`: false when the callback throws. */
    method Perform(r: nat, kind: Kind, work: Work) returns (ok: bool)
      requires Serving(r) && In(r, kind, Working) && Untouched(state.requests[r])
      modifies `state, `rest, `clock
      ensures Serving(r) && old(clock) <= clock <= old(clock) + |work.tasks|
      ensures In(r, kind, Working) && state.requests[r].leases == old(state.requests[r].leases)
      ensures ok ==> !work.throws
      ensures ok && CatchesNothing(work) ==>
        (!state.requests[r].failed && state.requests[r].writes == Alterations(work.tasks))
      ensures Calm(env, old(clock), clock) && old(Healthy(state, r)) ==> Healthy(state, r)
      ensures Calm(env, old(clock), clock) && old(Healthy(state, r)) ==>
        (ok <==> !work.throws && Survives(kind, work.tasks))
      ensures Calm(env, old(clock), clock) && old(Healthy(state, r)) && ok ==>
        (state.requests[r].failed <==> !AllPermitted(kind, work.tasks))
      ensures Calm(env, old(clock), clock) && old(Healthy(state, r)) && AllPermitted(kind, work.tasks) ==>
        AllDone(state.requests[r], work.tasks)
    {
      hide Serving, Valid, Reachable, Healthy, Permitted;
      for i := 0 to |work.tasks|
        invariant Serving(r) && old(clock) <= clock <= old(clock) + i
        invariant In(r, kind, Working) && state.requests[r].leases == old(state.requests[r].leases)
        invariant CatchesNothing(work) ==>
          (!state.requests[r].failed && state.requests[r].writes == Alterations(work.tasks[..i]))
        invariant Calm(env, old(clock), clock) && old(Healthy(state, r)) ==> Healthy(state, r)
        invariant Calm(env, old(clock), clock) && old(Healthy(state, r)) ==>
          Survives(kind, work.tasks[..i]) && (state.requests[r].failed <==> !AllPermitted(kind, work.tasks[..i]))
        invariant Calm(env, old(clock), clock) && old(Healthy(state, r)) && AllPermitted(kind, work.tasks) ==>
          AllDone(state.requests[r], work.tasks[..i])
      {
        assert work.tasks[..i + 1] == work.tasks[..i] + [work.tasks[i]];
        assert work.tasks[..i + 1][..i] == work.tasks[..i];
        var done := WorkQuery(r, kind, work.tasks[i].op);
        if !done && !work.tasks[i].catches { return false; }
      }
      assert work.tasks[..|work.tasks|] == work.tasks;
      return !work.throws;
    }

    /** The callback has returned. */
    method Proceed(r: nat, kind: Kind)
      requires Serving(r) && In(r, kind, Working)
      modifies `state, `rest, `clock
      ensures Serving(r) && clock == old(clock)
      ensures In(r, kind, Committing) && SameWork(state.requests[r], old(state.requests[r]))
      ensures old(Healthy(state, r)) ==> Healthy(state, r)
    {
      hide Serving, Valid, Reachable, Script, Rows, Members;
      HoldsItsConnection(state, r);
      Do(Local(r, Return), r);
    }

    /** `client.query('COMMIT')`. */
    method SendCommit(r: nat, kind: Kind) returns (ok: bool)
      requires Serving(r) && In(r, kind, Committing)
      modifies `state, `rest, `clock
      ensures Serving(r) && clock == old(clock) + 1
      ensures In(r, kind, if ok then Releasing(Returned) else RollingBack)
      ensures SameWork(state.requests[r], old(state.requests[r]))
      ensures Calm(env, old(clock), clock) && old(Healthy(state, r)) ==> ok
    {
      hide Serving, Valid, Reachable, Script, Rows, Members, Interfered, NoDeaths;
      Elapse(r);
      HoldsItsConnection(state, r);
      if !state.conns[state.requests[r].lease.value].alive {
        Do(Local(r, Lost), r);
        return false;
      }
      match env.answer(clock)
      case Good =>
        Do(Local(r, Commit), r);
        return true;
      case Error =>
        Do(Local(r, Fail), r);
        return false;
      case Broken =>
        Do(Local(r, CommitLost), r);
        return false;
    }

    /** The catch block: `client.query('ROLLBACK')`, whose own failure is ignored. */
    method SendRollback(r: nat, kind: Kind)
      requires Serving(r) && In(r, kind, RollingBack)
      modifies `state, `rest, `clock
      ensures Serving(r) && clock == old(clock) + 1
      ensures In(r, kind, Releasing(Threw))
      ensures SameWork(state.requests[r], old(state.requests[r]))
      ensures state.requests[r].commitSent == old(state.requests[r].commitSent)
    {
      hide Serving, Valid, Reachable, Script, Rows, Members, Interfered, NoDeaths;
      Elapse(r);
      HoldsItsConnection(state, r);
      if state.conns[state.requests[r].lease.value].alive {
        Do(Local(r, Rollback), r);
      } else {
        Do(Local(r, Lost), r);
      }
    }

    /** The finally block: `client.release()`. */
    method GiveBack(r: nat, kind: Kind, ending: Ending)
      requires Serving(r) && In(r, kind, Releasing(ending))
      modifies `state, `rest, `clock
      ensures Serving(r) && clock == old(clock)
      ensures In(r, kind, Finished(ending)) && state.conns == old(state.conns)
      ensures SameWork(state.requests[r], old(state.requests[r]))
      ensures state.requests[r].commitSent == old(state.requests[r].commitSent)
    {
      hide Serving, Valid, Reachable, Rows, Members;
      HoldsItsConnection(state, r);
      Do(Release(r), r);
    }

    /** The callback throws, into the catch block. */
    method Abandon(r: nat, kind: Kind)
      requires Serving(r) && In(r, kind, Working)
      modifies `state, `rest, `clock
      ensures Serving(r) && clock == old(clock)
      ensures In(r, kind, RollingBack) && SameWork(state.requests[r], old(state.requests[r]))
    {
      hide Serving, Valid, Reachable, Script, Rows, Members;
      HoldsItsConnection(state, r);
      Do(Local(r, Throw), r);
    }

    /** How a call must have ended. In a calm environment it returns exactly when its work does not throw and
        catches the failure of every query from the first one on that is not permitted. Then its changes are
        committed exactly when all its queries are permitted: all of them were made, or nothing is committed. */
    ghost predicate Ended(r: nat, kind: Kind, work: Work, ending: Ending, calm: bool)
      reads this
    {
      && In(r, kind, Finished(ending))
      && (ending == Returned ==> !work.throws)
      && (ending == Returned && CatchesNothing(work) ==> Committed(state, r, work))
      && (!state.requests[r].commitSent ==> !InLog(state.primary, r))
      && (calm ==> (ending == Returned <==> !work.throws && Survives(kind, work.tasks)))
      && (calm && ending == Returned ==>
            (Committed(state, r, work) <==> AllPermitted(kind, work.tasks))
            && (AllPermitted(kind, work.tasks) ==> AllDone(state.requests[r], work.tasks))
            && (!AllPermitted(kind, work.tasks) ==> !InLog(state.primary, r)))
    }

    /** From the end of the script on, the helpers are alike. */
    method Conclude(r: nat, kind: Kind, ok: bool, work: Work) returns (ending: Ending)
      requires Serving(r) && Transactional(kind) && In(r, kind, if ok then Working else RollingBack)
      requires Untouched(state.requests[r])
      modifies `state, `rest, `clock
      ensures Serving(r) && old(clock) + (if ending == Threw then 1 else 0) <= clock <= old(clock) + |work.tasks| + 2
      ensures In(r, kind, Finished(ending)) && state.requests[r].leases == old(state.requests[r].leases)
      ensures Ended(r, kind, work, ending,
                    Calm(env, old(clock), Decided(clock, ending)) && ok && old(Healthy(state, r)))
    {
      hide Serving, Valid, Reachable, InLog, Calm, AllPermitted, Healthy, CatchesNothing;
      var done := ok;
      ghost var start := clock;
      if done {
        done := Perform(r, kind, work);
        ghost var middle := clock;
        if done {
          Proceed(r, kind);
          done := SendCommit(r, kind);
        } else {
          Abandon(r, kind);
        }
        CalmParts(env, start, middle, clock);
      }
      ghost var finish := clock;
      if done {
        GiveBack(r, kind, Returned);
        ReturnedMeansCommitted(state, r);
        if !AllPermitted(kind, work.tasks) { ForbiddenAlters(kind, work.tasks); }
        ending := Returned;
      } else {
        SendRollback(r, kind);
        GiveBack(r, kind, Threw);
        ending := Threw;
      }
      assert Decided(clock, ending) == finish;
      AllOrNothing(state, r);
    }

    /** What the helpers ensure, seen from the state and the time a call started in: the state comes about by
        this call; it held a connection exactly when there was one to be had; it took no more time than it
        has statements; and it ended as it must, given what happened from connecting to its end. */
    ghost predicate Concluded(s0: State, from: nat, kind: Kind, work: Work, ending: Ending)
      reads this
    {
      var r := |s0.requests|;
      && CallOf(env, s0, kind, state)
      && In(r, kind, Finished(ending))
      && (state.requests[r].leases == 1 <==> Served(env, s0, kind, from))
      && clock <= from + |Script(kind)| + |work.tasks| + 3
      && Ended(r, kind, work, ending, Served(env, s0, kind, from) && Calm(env, from + 1, Decided(clock, ending)))
    }

    /** The end of a call that got no connection. */
    lemma NotServed(s0: State, from: nat, kind: Kind, work: Work)
      requires Serving(|s0.requests|) && origin == s0 && calling == kind
      requires Transactional(kind) && In(|s0.requests|, kind, Finished(Threw))
      requires state.requests[|s0.requests|].leases == 0 && !Served(env, s0, kind, from) && clock == from + 1
      ensures Concluded(s0, from, kind, work, Threw)
    {
      hide Reachable, Run, Served, Calm, InLog;
      AllOrNothing(state, |s0.requests|);
      NoLeaseNoCommit(state, |s0.requests|);
    }

    /** BEGIN, and the two settings that are always made. */
    method BeginContext(r: nat, kind: Kind, readOnly: bool, ctx: Context) returns (ok: bool)
      requires Serving(r) && Transactional(kind) && In(r, kind, Setup(0)) && Untouched(state.requests[r])
      requires |Script(kind)| >= 3
      requires Script(kind)[..3] == [Begin(readOnly), SetLocal(TenantId, ctx.tenantId), SetLocal(UserId, ctx.userId)]
      modifies `state, `rest, `clock
      ensures Serving(r) && old(clock) <= clock <= old(clock) + 3
      ensures In(r, kind, if !ok then RollingBack else At(kind, 3))
      ensures SameWork(state.requests[r], old(state.requests[r]))
      ensures Calm(env, old(clock), clock) && old(Healthy(state, r)) ==> ok && Healthy(state, r)
    {
      hide Serving, Valid, Reachable, Script, Healthy;
      ghost var fixed := Script(kind)[..3];
      assert Script(kind)[0] == fixed[0] && Script(kind)[1] == fixed[1] && Script(kind)[2] == fixed[2];
      ok := Statement(r, kind, 0, Begin(readOnly));
      if ok { ok := Statement(r, kind, 1, SetLocal(TenantId, ctx.tenantId)); }
      if ok { ok := Statement(r, kind, 2, SetLocal(UserId, ctx.userId)); }
    }

    /** BEGIN alone. */
    method BeginOnly(r: nat, kind: Kind) returns (ok: bool)
      requires Serving(r) && Transactional(kind) && In(r, kind, Setup(0))
      requires Script(kind) != [] && Script(kind)[0] == Begin(false)
      modifies `state, `rest, `clock
      ensures Serving(r) && old(clock) <= clock <= old(clock) + 1
      ensures In(r, kind, if !ok then RollingBack else At(kind, 1))
      ensures SameWork(state.requests[r], old(state.requests[r]))
      ensures Calm(env, old(clock), clock) && old(Healthy(state, r)) ==> ok && Healthy(state, r)
    {
      hide Serving, Valid, Reachable, Script, Healthy;
      ok := Statement(r, kind, 0, Begin(false));
    }

    /** Puts together what is known of the parts of a call that got a connection. */
    lemma Join(s0: State, from: nat, start: nat, middle: nat, kind: Kind, work: Work,
               ending: Ending, calm: bool)
      requires Serving(|s0.requests|) && origin == s0 && calling == kind
      requires start == from + 1 && start <= middle <= Decided(clock, ending) && (Calm(env, start, middle) ==> calm)
      requires clock <= from + |Script(kind)| + |work.tasks| + 3
      requires Served(env, s0, kind, from)
      requires In(|s0.requests|, kind, Finished(ending)) && state.requests[|s0.requests|].leases == 1
      requires Ended(|s0.requests|, kind, work, ending, Calm(env, middle, Decided(clock, ending)) && calm)
      ensures Concluded(s0, from, kind, work, ending)
    {
      hide Reachable, Run, Served, Calm, InLog, AllPermitted, CatchesNothing;
      CalmParts(env, start, middle, Decided(clock, ending));
    }

    method RunInTenantContext(ctx: Context, work: Work) returns (ending: Ending)
      requires Valid()
      modifies this
      ensures Valid() && Concluded(old(state), old(clock), Tenant(ctx), work, ending)
    {
      hide Serving, Valid, Reachable, Script, IfGiven, Calm, Ended, Served, Healthy, Concluded, Apply;
      hide CanConnect, Interfered;
      ghost var s0, from := state, clock;
      var kind := Tenant(ctx);
      var r := Arrive(kind);
      var ok := Connect(r, kind);
      ServedIs(env, s0, kind, old(clock));
      ghost var start := clock;
      CalmWithin(env);
      if !ok {
        NotServed(s0, from, kind, work);
        return Threw;
      }
      TenantScript(ctx);
      ok := BeginContext(r, kind, false, ctx);
      var n := 3;
      ok, n := StatementIfGiven(r, kind, n, RequestId, ctx.requestId, ok);
      ok, n := StatementIfGiven(r, kind, n, RequestIp, ctx.ipAddress, ok);
      ok, n := StatementIfGiven(r, kind, n, UserAgent, ctx.userAgent, ok);
      ghost var middle, calm := clock, ok && Healthy(state, r);
      ending := Conclude(r, kind, ok, work);
      Join(s0, from, start, middle, kind, work, ending, calm);
    }

    method RunAnonymous(work: Work) returns (ending: Ending)
      requires Valid()
      modifies this
      ensures Valid() && Concluded(old(state), old(clock), Anonymous, work, ending)
    {
      hide Serving, Valid, Reachable, Script, IfGiven, Calm, Ended, Served, Healthy, Concluded, Apply;
      hide CanConnect, Interfered;
      ghost var s0, from := state, clock;
      var kind := Anonymous;
      var r := Arrive(kind);
      var ok := Connect(r, kind);
      ServedIs(env, s0, kind, old(clock));
      ghost var start := clock;
      CalmWithin(env);
      if !ok {
        NotServed(s0, from, kind, work);
        return Threw;
      }
      AnonymousScript();
      ok := BeginOnly(r, kind);
      ghost var middle, calm := clock, ok && Healthy(state, r);
      ending := Conclude(r, kind, ok, work);
      Join(s0, from, start, middle, kind, work, ending, calm);
    }

    method RunReadOnly(ctx: Context, work: Work) returns (ending: Ending)
      requires Valid()
      modifies this
      ensures Valid() && Concluded(old(state), old(clock), ReadOnly(ctx), work, ending)
    {
      hide Serving, Valid, Reachable, Script, IfGiven, Calm, Ended, Served, Healthy, Concluded, Apply;
      hide CanConnect, Interfered;
      ghost var s0, from := state, clock;
      var kind := ReadOnly(ctx);
      var r := Arrive(kind);
      var ok := Connect(r, kind);
      ServedIs(env, s0, kind, old(clock));
      ghost var start := clock;
      CalmWithin(env);
      if !ok {
        NotServed(s0, from, kind, work);
        return Threw;
      }
      ReadOnlyScript(ctx);
      ok := BeginContext(r, kind, true, ctx);
      var n := 3;
      ok, n := StatementIfGiven(r, kind, n, RequestId, ctx.requestId, ok);
      ghost var middle, calm := clock, ok && Healthy(state, r);
      ending := Conclude(r, kind, ok, work);
      Join(s0, from, start, middle, kind, work, ending, calm);
    }

    method RunAsAdmin(actor: Actor, work: Work) returns (ending: Ending)
      requires Valid()
      modifies this
      ensures Valid() && Concluded(old(state), old(clock), Admin(actor), work, ending)
    {
      hide Serving, Valid, Reachable, Script, IfGiven, Calm, Ended, Served, Healthy, Concluded, Apply;
      hide CanConnect, Interfered;
      ghost var s0, from := state, clock;
      var kind := Admin(actor);
      var r := Arrive(kind);
      var ok := Connect(r, kind);
      ServedIs(env, s0, kind, old(clock));
      ghost var start := clock;
      CalmWithin(env);
      if !ok {
        NotServed(s0, from, kind, work);
        return Threw;
      }
      AdminScript(actor);
      ok := BeginOnly(r, kind);
      var n := 1;
      ok, n := StatementIfGiven(r, kind, n, UserId, actor.userId, ok);
      ok, n := StatementIfGiven(r, kind, n, RequestId, actor.requestId, ok);
      ok, n := StatementIfGiven(r, kind, n, RequestIp, actor.ipAddress, ok);
      ok, n := StatementIfGiven(r, kind, n, UserAgent, actor.userAgent, ok);
      ghost var middle, calm := clock, ok && Healthy(state, r);
      ending := Conclude(r, kind, ok, work);
      Join(s0, from, start, middle, kind, work, ending, calm);
    }

    /** Reachability probe: no catch block, so its failure reaches the caller. It returns only when it gets a
        connection and its query is answered, and then it does, unless a connection dies meanwhile. */
    method Ping() returns (ending: Ending)
      requires Valid()
      modifies this
      ensures Valid() && In(old(|state.requests|), PoolProtocol.Ping, Finished(ending))
      ensures CallOf(env, old(state), PoolProtocol.Ping, state) && clock <= old(clock) + 2
      ensures ending == Returned ==> Served(env, old(state), PoolProtocol.Ping, old(clock)) && env.answer(clock) == Good
      ensures Served(env, old(state), PoolProtocol.Ping, old(clock)) && NoDeaths(env.others(old(clock) + 1)) ==>
        clock == old(clock) + 2 && (ending == Returned <==> env.answer(clock) == Good)
    {
      ghost var s0 := state;
      hide Serving, Valid, Reachable, Served, Run, Apply, Interfered, CanConnect, Later;
      hide Members, Execute, Rows, NoDeaths;
      var kind := PoolProtocol.Ping;
      var r := Arrive(kind);
      var ok := Connect(r, kind);
      ServedIs(env, s0, kind, old(clock));
      if ok {
        ok := Statement(r, kind, 0, Probe);
        ending := if ok then Returned else Threw;
        GiveBack(r, kind, ending);
      } else {
        ending := Threw;
      }
      Continued();
    }

    /** The catch block turns a failed query into an unknown lag; connecting stands outside it. So it throws
        exactly when there is a replica and no connection to it is to be had, however its query goes. */
    method ReplicaLagSeconds() returns (ending: Ending)
      requires Valid()
      modifies this
      ensures Valid() && In(old(|state.requests|), LagProbe, Finished(ending))
      ensures CallOf(env, old(state), LagProbe, state)
      ensures ending == Threw <==> replicaConfigured && !Served(env, old(state), LagProbe, old(clock))
      ensures !replicaConfigured ==> state == Apply(old(state), PoolProtocol.Arrive(LagProbe)) && clock == old(clock)
      ensures state.requests[old(|state.requests|)].leases == 1 <==>
        replicaConfigured && Served(env, old(state), LagProbe, old(clock))
    {
      ghost var s0 := state;
      hide Serving, Reachable, Served, Run, Interfered, CanConnect, Later, Members, Execute, Rows;
      var without := !state.replicaConfigured;
      var r := Arrive(LagProbe);
      ending := Returned;
      if !without {
        var ok := Connect(r, LagProbe);
        ServedIs(env, s0, LagProbe, old(clock));
        if ok {
          ok := Statement(r, LagProbe, 0, Probe);
          GiveBack(r, LagProbe, Returned);
        } else {
          ending := Threw;
        }
      }
      Continued();
    }

    lemma Continued()
      requires Serving(|origin.requests|)
      ensures CallOf(env, origin, calling, state)
    {
      hide Reachable, Run;
    }
  }

  /** A request that nothing was done for yet. */
  predicate Untouched(q: Request) {
    q.writes == [] && q.observed == [] && !q.failed
  }

  /** Every query of the callback was made, in order. */
  predicate AllDone(q: Request, tasks: seq<Task>) {
    !q.failed && q.writes == Alterations(tasks) && |q.observed| == Looks(tasks)
  }

  /** All the changes of the callback, and they are committed. */
  ghost predicate Committed(s: State, r: nat, work: Work)
    requires r < |s.requests|
  {
    s.requests[r].writes == Alterations(work.tasks) && (Alterations(work.tasks) != [] ==> InLog(s.primary, r))
  }

  /** Where the optional statements of a tenant's script stand. */
  lemma TenantScript(c: Context)
    ensures var script, g1, g2, g3 := Script(Tenant(c)), IfGiven(RequestId, c.requestId),
                                      IfGiven(RequestIp, c.ipAddress), IfGiven(UserAgent, c.userAgent);
      && |script| == 3 + |g1| + |g2| + |g3|
      && script[..3] == [Begin(false), SetLocal(TenantId, c.tenantId), SetLocal(UserId, c.userId)]
      && script[3..3 + |g1|] == g1
      && script[3 + |g1|..3 + |g1| + |g2|] == g2
      && script[3 + |g1| + |g2|..3 + |g1| + |g2| + |g3|] == g3
  {
    hide IfGiven;
  }

  lemma ReadOnlyScript(c: Context)
    ensures var script, g1 := Script(ReadOnly(c)), IfGiven(RequestId, c.requestId);
      && |script| == 3 + |g1|
      && script[..3] == [Begin(true), SetLocal(TenantId, c.tenantId), SetLocal(UserId, c.userId)]
      && script[3..3 + |g1|] == g1
  {
    hide IfGiven;
  }

  lemma AdminScript(a: Actor)
    ensures var script, g1, g2 := Script(Admin(a)), IfGiven(UserId, a.userId), IfGiven(RequestId, a.requestId);
      var g3, g4 := IfGiven(RequestIp, a.ipAddress), IfGiven(UserAgent, a.userAgent);
      && |script| == 1 + |g1| + |g2| + |g3| + |g4|
      && script[0] == Begin(false)
      && script[1..1 + |g1|] == g1
      && script[1 + |g1|..1 + |g1| + |g2|] == g2
      && script[1 + |g1| + |g2|..1 + |g1| + |g2| + |g3|] == g3
      && script[1 + |g1| + |g2| + |g3|..1 + |g1| + |g2| + |g3| + |g4|] == g4
  {
    hide IfGiven;
  }

  lemma AnonymousScript()
    ensures Script(Anonymous) == [Begin(false)]
  {
  }

  /** Where a script stands before its statement n. */
  function At(kind: Kind, n: nat): Phase {
    if n < |Script(kind)| then Setup(n) else Working
  }

  predicate SameWork(p: Request, q: Request) {
    p.writes == q.writes && p.observed == q.observed && p.failed == q.failed && p.leases == q.leases
  }
}
