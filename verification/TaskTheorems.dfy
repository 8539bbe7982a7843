/** Repeated executions of an agent run: what is left of them, the retries they make and
    the idempotency keys of these retries. */
module TaskTheorems {
  import opened Wrappers
  import opened PolicyEngine
  import opened CaseStore
  import opened RecoveryProtocol
  import opened ProtocolTheorems
  import opened IdempotencyKeys
  import opened RetrySpacing
  import Agent = AgentGraph
  import AgentTheorems
  import AgentSafety

  // ----- One execution

  /** What one execution of a run leaves behind: an ended run is returned untouched,
      an attempt that raised inside the graph changes no case, and an applied result
      advances the stored counter by exactly the retries of that attempt. */
  lemma ExecutionAccounting(db: Db, r: nat, finalAttempt: bool, a: Attempt)
    requires Inv(db) && r < |db.runs|
    ensures forall q: nat :: q >= |db.runs| ==> ExecuteRun(db, q, finalAttempt, a) == (db, NotFound)
    ensures
      var (db', answer) := ExecuteRun(db, r, finalAttempt, a);
      var c := db.runs[r].caseId;
      if !db.runs[r].status.Running? then db' == db && answer == Ended(db.runs[r].status)
      else if answer.Reraised? then db' == db && !finalAttempt
      else
        && answer == Ended(db'.runs[r].status) && !db'.runs[r].status.Running?
        && (forall d :: 0 <= d < |db.cases| && d != c ==> db'.cases[d] == db.cases[d])
        && (RunOf(db, r, a).Raised? ==> db'.cases == db.cases)
        && (RunOf(db, r, a).Finished? ==>
              db'.cases[c].retryCount
              == db.cases[c].retryCount + AgentSafety.Count(RunOf(db, r, a).world.effects, AgentSafety.AnyRetry))
  {
    AppliedRetries(db.cases[db.runs[r].caseId], a);
  }

  lemma AppliedRetries(k: Case, a: Attempt)
    ensures
      var run := Agent.Run(a.policy, a.mode, a.env, StartState(k), map[]);
      run.Finished? ==>
        Applied(k, run.state).retryCount == k.retryCount + AgentSafety.Count(run.world.effects, AgentSafety.AnyRetry)
  {
    AgentTheorems.CountersAreExact(a.policy, a.mode, a.env, StartState(k), map[]);
  }

  // ----- A whole task

  lemma AttemptEndsOrReraises(db: Db, r: nat, finalAttempt: bool, a: Attempt)
    requires Inv(db) && r < |db.runs|
    ensures
      var (db', answer) := ExecuteRun(db, r, finalAttempt, a);
      if answer.Reraised? then db' == db && !finalAttempt else answer.Ended? && !db'.runs[r].status.Running?
  {
  }

  /** One turn of the task. */
  lemma TaskTurn(db: Db, r: nat, retries: nat, attempts: nat -> Attempt)
    requires Inv(db) && r < |db.runs| && retries <= 2
    ensures
      var (db', answer) := ExecuteRun(db, r, retries == 2, attempts(retries));
      if answer.Reraised? then
        && retries < 2 && db' == db
        && RunTask(db, r, retries, attempts) == RunTask(db, r, retries + 1, attempts)
      else RunTask(db, r, retries, attempts) == (db', Returned(answer)) && !db'.runs[r].status.Running?
  {
    AttemptEndsOrReraises(db, r, retries == 2, attempts(retries));
  }

  /** The attempt that ends the run: the first that does not raise, or the final one. */
  function LastAttempt(db: Db, r: nat, retries: nat, attempts: nat -> Attempt): (n: nat)
    requires RunsHaveCases(db) && retries <= 2
    ensures retries <= n <= 2
    decreases 2 - retries
  {
    if retries < 2 && ExecuteRun(db, r, false, attempts(retries)).1.Reraised? then
      LastAttempt(db, r, retries + 1, attempts)
    else retries
  }

  lemma {:induction false} EarlierAttemptsReraise(db: Db, r: nat, retries: nat, attempts: nat -> Attempt, i: nat)
    requires Inv(db) && r < |db.runs| && retries <= 2 && retries <= i < LastAttempt(db, r, retries, attempts)
    ensures ExecuteRun(db, r, false, attempts(i)) == (db, Reraised)
    decreases 2 - retries
  {
    if i == retries {
      AttemptEndsOrReraises(db, r, false, attempts(retries));
    } else {
      EarlierAttemptsReraise(db, r, retries + 1, attempts, i);
    }
  }

  /** A task always ends its run, and what it leaves is what a single attempt on the
      state at its start leaves. */
  lemma {:induction false} TaskIsOneAttempt(db: Db, r: nat, retries: nat, attempts: nat -> Attempt)
    requires Inv(db) && r < |db.runs| && retries <= 2
    ensures
      var n := LastAttempt(db, r, retries, attempts);
      var (db', answer) := ExecuteRun(db, r, n == 2, attempts(n));
      && RunTask(db, r, retries, attempts) == (db', Returned(answer)) && !db'.runs[r].status.Running?
    decreases 2 - retries
  {
    TaskTurn(db, r, retries, attempts);
    if LastAttempt(db, r, retries, attempts) != retries {
      TaskIsOneAttempt(db, r, retries + 1, attempts);
    }
  }

  // ----- Idempotency keys

  function EffectsOf(db: Db, r: nat, a: Attempt): seq<Agent.Effect>
    requires RunsHaveCases(db) && r < |db.runs|
  {
    RunOf(db, r, a).world.effects
  }

  function AttemptKeys(db: Db, r: nat, a: Attempt): seq<Key>
    requires RunsHaveCases(db) && r < |db.runs|
  {
    KeysOf(db.runs[r].caseId, EffectsOf(db, r, a))
  }

  function AttemptStrategies(db: Db, r: nat, a: Attempt): seq<Strategy>
    requires RunsHaveCases(db) && r < |db.runs|
  {
    RetryStrategies(EffectsOf(db, r, a))
  }

  /** The k-th retry of an attempt has the key of its case, of the strategy proposed for it
      and of the number retry_count + k; there are no more than the policy leaves. */
  lemma KeysOfAnAttempt(db: Db, r: nat, a: Attempt)
    requires Inv(db) && r < |db.runs|
    ensures
      var k := db.cases[db.runs[r].caseId];
      && Numbered(AttemptKeys(db, r, a), db.runs[r].caseId, AttemptStrategies(db, r, a), k.retryCount)
      && |AttemptKeys(db, r, a)| == AgentSafety.Count(EffectsOf(db, r, a), AgentSafety.AnyRetry)
      && |AttemptKeys(db, r, a)| <= Max(0, a.policy.maxRetries - k.retryCount)
  {
    var s0 := StartState(db.cases[db.runs[r].caseId]);
    AgentTheorems.RunInv(a.policy, a.mode, a.env, s0, map[]);
    KeysAreNumbered(a.policy, s0, db.runs[r].caseId, EffectsOf(db, r, a));
  }

  /** Two attempts at a run share a key exactly where both make a retry of the same number
      with the same strategy. */
  lemma SharedKeysIff(db: Db, r: nat, a: Attempt, b: Attempt, i: nat, j: nat)
    requires Inv(db) && r < |db.runs|
    requires i < |AttemptKeys(db, r, a)| && j < |AttemptKeys(db, r, b)|
    ensures |AttemptStrategies(db, r, a)| == |AttemptKeys(db, r, a)|
    ensures |AttemptStrategies(db, r, b)| == |AttemptKeys(db, r, b)|
    ensures
      AttemptKeys(db, r, a)[i] == AttemptKeys(db, r, b)[j]
      <==> i == j && AttemptStrategies(db, r, a)[i] == AttemptStrategies(db, r, b)[j]
  {
    KeysOfAnAttempt(db, r, a);
    KeysOfAnAttempt(db, r, b);
  }

  /** An attempt uses only keys of another one exactly when its retry strategies are the
      first ones of the other, position by position. */
  lemma RepeatedKeysIff(db: Db, r: nat, a: Attempt, b: Attempt)
    requires Inv(db) && r < |db.runs|
    ensures
      (forall k :: k in AttemptKeys(db, r, b) ==> k in AttemptKeys(db, r, a))
      <==> AttemptStrategies(db, r, b) <= AttemptStrategies(db, r, a)
  {
    KeysOfAnAttempt(db, r, a);
    KeysOfAnAttempt(db, r, b);
    NumberedKeysRepeatIff(
      db.runs[r].caseId, db.cases[db.runs[r].caseId].retryCount,
      AttemptKeys(db, r, a), AttemptStrategies(db, r, a), AttemptKeys(db, r, b), AttemptStrategies(db, r, b));
  }

  /** Each retry that both attempts make carries the same key in both. */
  predicate KeysReused(db: Db, r: nat, a: Attempt, b: Attempt)
    requires RunsHaveCases(db) && r < |db.runs|
  {
    forall i :: 0 <= i < |AttemptKeys(db, r, a)| && i < |AttemptKeys(db, r, b)| ==>
      AttemptKeys(db, r, a)[i] == AttemptKeys(db, r, b)[i]
  }

  function Proposing(p: Policy, mode: Agent.Mode, base16: string -> bool, strategy: Strategy): Attempt {
    Attempt(p, mode, RetryThenFault(strategy), base16)
  }

  /** An attempt that retries once with the strategy of its choice and then fails. */
  lemma FailedRetry(db: Db, r: nat, p: Policy, mode: Agent.Mode, base16: string -> bool, strategy: Strategy)
    requires Inv(db) && r < |db.runs| && IsRetryStrategy(strategy)
    requires AgentTheorems.RetryApprovable(p, StartState(db.cases[db.runs[r].caseId]))
    ensures
      var k := db.cases[db.runs[r].caseId];
      var a := Proposing(p, mode, base16, strategy);
      && RunOf(db, r, a).Raised? && AttemptKeys(db, r, a) == [Key(db.runs[r].caseId, strategy, k.retryCount + 1)]
      && (db.runs[r].status.Running? ==> ExecuteRun(db, r, false, a) == (db, Reraised))
  {
    RetryThenFaultRaises(p, mode, strategy, StartState(db.cases[db.runs[r].caseId]));
    KeysOfAnAttempt(db, r, Proposing(p, mode, base16, strategy));
  }

  lemma KeysDiffer(db: Db, r: nat, a: Attempt, b: Attempt)
    requires RunsHaveCases(db) && r < |db.runs|
    requires |AttemptKeys(db, r, a)| > 0 && |AttemptKeys(db, r, b)| > 0
    requires AttemptKeys(db, r, a)[0] != AttemptKeys(db, r, b)[0]
    ensures !KeysReused(db, r, a, b)
  {
  }

  /** Whatever the language model proposes, a retry repeated after a failed attempt reuses
      its key - exactly when the policy approves no retry of the case at all. */
  lemma KeyReuseHoldsIff(db: Db, r: nat, p: Policy, mode: Agent.Mode, base16: string -> bool)
    requires Inv(db) && r < |db.runs| && db.runs[r].status.Running?
    ensures
      (forall x: Agent.Environment, y: Agent.Environment ::
         ExecuteRun(db, r, false, Attempt(p, mode, x, base16)).1.Reraised? ==>
           KeysReused(db, r, Attempt(p, mode, x, base16), Attempt(p, mode, y, base16)))
      <==> !AgentTheorems.RetryApprovable(p, StartState(db.cases[db.runs[r].caseId]))
  {
    var s0 := StartState(db.cases[db.runs[r].caseId]);
    if AgentTheorems.RetryApprovable(p, s0) {
      FailedRetry(db, r, p, mode, base16, RetryNow);
      FailedRetry(db, r, p, mode, base16, ScheduleRetry);
      KeysDiffer(db, r, Proposing(p, mode, base16, RetryNow), Proposing(p, mode, base16, ScheduleRetry));
      var now, later := RetryThenFault(RetryNow), RetryThenFault(ScheduleRetry);
      assert !KeysReused(db, r, Attempt(p, mode, now, base16), Attempt(p, mode, later, base16));
    } else {
      forall x: Agent.Environment ensures AttemptKeys(db, r, Attempt(p, mode, x, base16)) == [] {
        KeysOfAnAttempt(db, r, Attempt(p, mode, x, base16));
        if |AttemptKeys(db, r, Attempt(p, mode, x, base16))| > 0 {
          RetriesNeedApproval(p, mode, x, s0, map[]);
        }
      }
    }
  }

  // ----- The retries of a whole task

  /** The keys of all provider retries of a task, those of rolled-back attempts included. */
  function TaskKeys(db: Db, r: nat, retries: nat, attempts: nat -> Attempt): seq<Key>
    requires RunsHaveCases(db) && r < |db.runs| && retries <= 2
    decreases 2 - retries
  {
    if !db.runs[r].status.Running? then []
    else
      var a := attempts(retries);
      AttemptKeys(db, r, a)
      + if retries < 2 && ExecuteRun(db, r, false, a).1.Reraised? then TaskKeys(db, r, retries + 1, attempts) else []
  }

  lemma TurnKeys(db: Db, r: nat, retries: nat, attempts: nat -> Attempt, left: nat)
    requires Inv(db) && r < |db.runs| && retries <= 2 && |AttemptKeys(db, r, attempts(retries))| <= left
    ensures |TaskKeys(db, r, retries, attempts)|
         <= left + if retries < 2 then |TaskKeys(db, r, retries + 1, attempts)| else 0
  {
  }

  lemma ThreeTurnsKeys(db: Db, r: nat, attempts: nat -> Attempt, left: nat)
    requires Inv(db) && r < |db.runs| && forall i: nat :: |AttemptKeys(db, r, attempts(i))| <= left
    ensures |TaskKeys(db, r, 0, attempts)| <= 3 * left
  {
    TurnKeys(db, r, 2, attempts, left);
    TurnKeys(db, r, 1, attempts, left);
    TurnKeys(db, r, 0, attempts, left);
  }

  /** A task makes at most three times the retries the policy leaves to a run, while the
      stored counter advances by those of one attempt at most. */
  lemma TaskRetriesAreBounded(db: Db, r: nat, attempts: nat -> Attempt, limit: int)
    requires Inv(db) && r < |db.runs| && forall i: nat :: attempts(i).policy.maxRetries <= limit
    ensures |TaskKeys(db, r, 0, attempts)| <= 3 * Max(0, limit - db.cases[db.runs[r].caseId].retryCount)
  {
    forall i: nat
      ensures |AttemptKeys(db, r, attempts(i))| <= Max(0, limit - db.cases[db.runs[r].caseId].retryCount)
    {
      KeysOfAnAttempt(db, r, attempts(i));
    }
    ThreeTurnsKeys(db, r, attempts, Max(0, limit - db.cases[db.runs[r].caseId].retryCount));
  }

  /** A task with one policy and provider for all attempts. */
  function TaskOf(p: Policy, mode: Agent.Mode, base16: string -> bool, envs: nat -> Agent.Environment): nat -> Attempt {
    (n: nat) => Attempt(p, mode, envs(n), base16)
  }

  /** The number of retries one run of the case behind `r` can make. */
  function MostRetriesOf(db: Db, r: nat, p: Policy): int
    requires RunsHaveCases(db) && r < |db.runs|
  {
    MostRetries(p, StartState(db.cases[db.runs[r].caseId]))
  }

  lemma AttemptRetriesAreBounded(db: Db, r: nat, a: Attempt)
    requires Inv(db) && r < |db.runs|
    ensures |AttemptKeys(db, r, a)| <= MostRetriesOf(db, r, a.policy)
  {
    KeysOfAnAttempt(db, r, a);
    RetriesAreBounded(a.policy, a.mode, a.env, StartState(db.cases[db.runs[r].caseId]), map[]);
  }

  /** An attempt that makes all the retries it can and then fails. */
  function Exhausting(db: Db, r: nat, p: Policy): Agent.Environment
    requires RunsHaveCases(db) && r < |db.runs|
  {
    FailedRetries(6 * Max(0, MostRetriesOf(db, r, p)) + 1)
  }

  lemma ExhaustingTask(db: Db, r: nat, p: Policy, mode: Agent.Mode, base16: string -> bool)
    requires Inv(db) && r < |db.runs| && db.runs[r].status.Running?
    requires AgentTheorems.RetryApprovable(p, StartState(db.cases[db.runs[r].caseId]))
    ensures |TaskKeys(db, r, 0, TaskOf(p, mode, base16, n => Exhausting(db, r, p)))| == 3 * MostRetriesOf(db, r, p)
  {
    var a := Attempt(p, mode, Exhausting(db, r, p), base16);
    var k := MostRetriesOf(db, r, p);
    FailedRetriesReachTheBound(p, mode, 6 * Max(0, k) + 1, StartState(db.cases[db.runs[r].caseId]), map[]);
    KeysOfAnAttempt(db, r, a);
    TaskKeysOfFailures(db, r, TaskOf(p, mode, base16, n => Exhausting(db, r, p)));
  }

  /** For every number: no task makes more retries than that, whatever is proposed and
      answered, exactly when three times the retries one run can make do not exceed it. */
  lemma TaskRetryBoundIsExact(db: Db, r: nat, p: Policy, mode: Agent.Mode, base16: string -> bool, k: nat)
    requires Inv(db) && r < |db.runs| && db.runs[r].status.Running?
    ensures
      (forall envs: nat -> Agent.Environment :: |TaskKeys(db, r, 0, TaskOf(p, mode, base16, envs))| <= k)
      <==> 3 * MostRetriesOf(db, r, p) <= k
  {
    AttemptRetriesAreBounded(db, r, Attempt(p, mode, FailedRetries(0), base16));
    if 3 * MostRetriesOf(db, r, p) <= k {
      forall envs: nat -> Agent.Environment ensures |TaskKeys(db, r, 0, TaskOf(p, mode, base16, envs))| <= k {
        forall i: nat
          ensures |AttemptKeys(db, r, TaskOf(p, mode, base16, envs)(i))| <= MostRetriesOf(db, r, p)
        {
          AttemptRetriesAreBounded(db, r, TaskOf(p, mode, base16, envs)(i));
        }
        ThreeTurnsKeys(db, r, TaskOf(p, mode, base16, envs), MostRetriesOf(db, r, p));
      }
    } else {
      ExhaustingTask(db, r, p, mode, base16);
    }
  }

  /** With the default policy a single task can make nine retries of a fresh case. */
  lemma DefaultTaskRetriesNineTimes(mode: Agent.Mode, base16: string -> bool, event: FailureEvent, score: real)
    requires 0 < event.amount <= 5000000 && !event.reason.UnknownFailure?
    ensures
      var db := OneRun(event, score);
      && RunsHaveCases(db) && |db.runs| == 1
      && |TaskKeys(db, 0, 0, TaskOf(DEFAULT_POLICY, mode, base16, n => Exhausting(db, 0, DEFAULT_POLICY)))| == 9
  {
    OneRunIsValid(event, score);
    DefaultPolicyApproves(event, score);
    ExhaustingTask(OneRun(event, score), 0, DEFAULT_POLICY, mode, base16);
  }

  function ChangingItsMind(p: Policy, mode: Agent.Mode, base16: string -> bool): nat -> Attempt {
    n => Proposing(p, mode, base16, if n == 0 then RetryNow else ScheduleRetry)
  }

  /** For every approvable case of a running run: a task that calls the provider three times
      for the same retry, under two different keys. */
  lemma TaskUsesTwoKeys(db: Db, r: nat, p: Policy, mode: Agent.Mode, base16: string -> bool)
    requires Inv(db) && r < |db.runs| && db.runs[r].status.Running?
    requires AgentTheorems.RetryApprovable(p, StartState(db.cases[db.runs[r].caseId]))
    ensures
      var c := db.runs[r].caseId;
      var now, later := Key(c, RetryNow, db.cases[c].retryCount + 1), Key(c, ScheduleRetry, db.cases[c].retryCount + 1);
      TaskKeys(db, r, 0, ChangingItsMind(p, mode, base16)) == [now, later, later] && now != later
  {
    FailedRetry(db, r, p, mode, base16, RetryNow);
    FailedRetry(db, r, p, mode, base16, ScheduleRetry);
    TaskKeysOfFailures(db, r, ChangingItsMind(p, mode, base16));
  }

  lemma TaskKeysOfFailures(db: Db, r: nat, attempts: nat -> Attempt)
    requires Inv(db) && r < |db.runs| && db.runs[r].status.Running?
    requires ExecuteRun(db, r, false, attempts(0)).1.Reraised? && ExecuteRun(db, r, false, attempts(1)).1.Reraised?
    ensures TaskKeys(db, r, 0, attempts)
         == AttemptKeys(db, r, attempts(0)) + (AttemptKeys(db, r, attempts(1)) + AttemptKeys(db, r, attempts(2)))
  {
    assert TaskKeys(db, r, 2, attempts) == AttemptKeys(db, r, attempts(2));
    assert TaskKeys(db, r, 1, attempts) == AttemptKeys(db, r, attempts(1)) + TaskKeys(db, r, 2, attempts);
  }

  /** With the default policy, a fresh case of 100 paise and its first run. */
  lemma DefaultTaskUsesTwoKeys(mode: Agent.Mode, base16: string -> bool)
    ensures
      var db := OneRun(FailureEvent("event-1", 100, "INR", GatewayTemporary), 0.5);
      && RunsHaveCases(db) && |db.runs| == 1
      && TaskKeys(db, 0, 0, ChangingItsMind(DEFAULT_POLICY, mode, base16))
         == [Key(0, RetryNow, 1), Key(0, ScheduleRetry, 1), Key(0, ScheduleRetry, 1)]
  {
    var event := FailureEvent("event-1", 100, "INR", GatewayTemporary);
    OneRunIsValid(event, 0.5);
    DefaultPolicyApproves(event, 0.5);
    TaskUsesTwoKeys(OneRun(event, 0.5), 0, DEFAULT_POLICY, mode, base16);
  }
}
