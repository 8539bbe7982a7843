/** How often a task can charge a case: the status fetches of its attempts, those rolled back
    included, that a provider answered with SUCCESS. */
module ChargeTheorems {
  import opened Wrappers
  import opened PolicyEngine
  import opened AgentGraph
  import opened AgentSafety
  import opened AgentScripts
  import opened IdempotencyKeys
  import Store = CaseStore
  import RecoveryProtocol
  import ProtocolTheorems
  import TaskTheorems
  import Runs = AgentTheorems

  // ----- One fetch a retry

  /** Every retry is fetched at most once, and the last one not before its verification. */
  predicate FetchedOnce(next: Option<Node>, s: AgentState, e: seq<Effect>) {
    var pending := (next == Some(Observation) || next == Some(Verification)) && PaysNow(s);
    Count(e, AnyFetch) + (if pending then 1 else 0) <= Count(e, AnyRetry)
  }

  lemma QuietFetchesNothing(p: Policy, mode: Mode, n: Node, s: AgentState, w: World, input: Input)
    requires FetchedOnce(Some(n), s, w.effects) && Quiet(n)
    ensures var (s', w') := Visit(p, mode, n, s, w, input); FetchedOnce(Route(n, s'), s', w'.effects)
  {
    QuietVisit(p, mode, n, s, w, input);
  }

  lemma CheckedFetchesNothing(p: Policy, s: AgentState, w: World, s': AgentState, w': World)
    requires Checked(p, s, w, s', w')
    ensures Count(w'.effects, AnyFetch) == Count(w.effects, AnyFetch)
    ensures Count(w'.effects, AnyRetry) == Count(w.effects, AnyRetry)
  {
    if s.strategy.Some? {
      CountSnoc(w.effects, w'.effects[|w.effects|]);
    }
  }

  lemma CheckFetchesNothing(p: Policy, mode: Mode, s: AgentState, w: World, input: Input)
    requires FetchedOnce(Some(PolicyCheck), s, w.effects)
    ensures
      var (s', w') := Visit(p, mode, PolicyCheck, s, w, input);
      FetchedOnce(Route(PolicyCheck, s'), s', w'.effects)
  {
    PolicyChecks(p, s, w);
    CheckedFetchesNothing(p, s, w, PolicyNode(p, s, w).0, PolicyNode(p, s, w).1);
  }

  lemma BlockedFetchesNothing(mode: Mode, s: AgentState, w: World, input: Input)
    requires s.policyResult.None? || !s.policyResult.value.decision.Approved?
    ensures var (s', w') := ActionNode(mode, s, w, input); !PaysNow(s') && w' == w
  {
  }

  /** An approved action without a strategy is recorded as an escalation. */
  lemma AimlessActionIsRecorded(mode: Mode, s: AgentState, w: World, input: Input)
    requires s.policyResult.Some? && s.policyResult.value.decision.Approved? && s.strategy.None?
    ensures
      var (s', w') := ActionNode(mode, s, w, input);
      !PaysNow(s') && w'.effects == w.effects + [ActionRecorded(EscalateToHuman)]
  {
  }

  lemma ActionFetchesNothing(p: Policy, mode: Mode, s: AgentState, w: World, input: Input)
    requires FetchedOnce(Some(ActionExecution), s, w.effects)
    ensures
      var (s', w') := Visit(p, mode, ActionExecution, s, w, input);
      FetchedOnce(Some(Observation), s', w'.effects)
  {
    if s.policyResult.None? || !s.policyResult.value.decision.Approved? {
      BlockedFetchesNothing(mode, s, w, input);
    } else if s.strategy.None? {
      AimlessActionIsRecorded(mode, s, w, input);
      CountSnoc(w.effects, ActionRecorded(EscalateToHuman));
    } else {
      ActionActs(mode, s, w, input);
      RetriesArePaymentRetries(mode, s, w, input);
      CountSnoc(w.effects, ActionEffect(s));
    }
  }

  lemma VerificationFetchesOnce(p: Policy, mode: Mode, s: AgentState, w: World, input: Input)
    requires FetchedOnce(Some(Verification), s, w.effects)
    ensures
      var (s', w') := Visit(p, mode, Verification, s, w, input);
      FetchedOnce(Route(Verification, s'), s', w'.effects)
  {
    VerificationVerifies(mode, s, w, input);
    var w' := Visit(p, mode, Verification, s, w, input).1;
    if w'.effects != w.effects {
      CountSnoc(w.effects, w'.effects[|w.effects|]);
    }
  }

  lemma VisitFetchesOnce(p: Policy, mode: Mode, n: Node, s: AgentState, w: World, input: Input)
    requires FetchedOnce(Some(n), s, w.effects)
    ensures var (s', w') := Visit(p, mode, n, s, w, input); FetchedOnce(Route(n, s'), s', w'.effects)
  {
    match n
    case PolicyCheck => CheckFetchesNothing(p, mode, s, w, input);
    case ActionExecution => ActionFetchesNothing(p, mode, s, w, input);
    case Verification => VerificationFetchesOnce(p, mode, s, w, input);
    case _ => QuietFetchesNothing(p, mode, n, s, w, input);
  }

  lemma {:induction false} RunFetchesOnce(p: Policy, mode: Mode, env: Environment, n: Node, s: AgentState, w: World)
    requires FetchedOnce(Some(n), s, w.effects) && WellPlaced(n, s)
    ensures
      var e := RunFrom(p, mode, env, n, s, w).world.effects;
      Count(e, AnyFetch) <= Count(e, AnyRetry)
    decreases VisitsLeft(n, s)
  {
    var input := env(|s.trace|);
    if !input.fault.FaultBefore? {
      var (s', w') := Visit(p, mode, n, s, w, input);
      VisitFetchesOnce(p, mode, n, s, w, input);
      VisitDecreases(p, mode, n, s, w, input);
      if Route(n, s').Some? && !input.fault.FaultAfter? {
        RunFetchesOnce(p, mode, env, Route(n, s').value, s', w');
      }
    }
  }

  /** In every run, one that raises included: no more status fetches than retries, at most one
      of them successful, and none unless the policy approves a retry of the case. */
  lemma OneChargeARun(p: Policy, mode: Mode, env: Environment, s0: AgentState, payments: map<string, Payment>)
    requires Initial(s0)
    ensures
      var e := Runs.EffectsOf(Run(p, mode, env, s0, payments));
      && Count(e, AnyFetch) <= Count(e, AnyRetry) && Count(e, AnyCapture) <= 1
      && (Count(e, AnyCapture) == 1 ==> Runs.RetryApprovable(p, s0))
  {
    var e := Runs.EffectsOf(Run(p, mode, env, s0, payments));
    Runs.RunInv(p, mode, env, s0, payments);
    OneCapture(e);
    RunFetchesOnce(p, mode, env, RiskDetection, s0, World(payments, []));
    CountIncluded(e, AnyCapture, AnyFetch);
    if Count(e, AnyRetry) > 0 {
      RetriesNeedApproval(p, mode, env, s0, payments);
    }
  }

  // ----- All attempts of a task

  /** The successful status fetches of one attempt. */
  function AttemptCharges(db: Store.Db, r: nat, a: Store.Attempt): nat
    requires Store.RunsHaveCases(db) && r < |db.runs|
  {
    Count(TaskTheorems.EffectsOf(db, r, a), AnyCapture)
  }

  lemma AttemptChargesOnce(db: Store.Db, r: nat, a: Store.Attempt)
    requires Store.RunsHaveCases(db) && r < |db.runs|
    ensures
      && AttemptCharges(db, r, a) <= 1
      && (AttemptCharges(db, r, a) == 1 ==>
            Runs.RetryApprovable(a.policy, Store.StartState(db.cases[db.runs[r].caseId])))
  {
    OneChargeARun(a.policy, a.mode, a.env, Store.StartState(db.cases[db.runs[r].caseId]), map[]);
  }

  /** The charges of a task from attempt `retries` on, those of rolled-back attempts included. */
  function Charges(db: Store.Db, r: nat, retries: nat, attempts: nat -> Store.Attempt): nat
    requires Store.RunsHaveCases(db) && r < |db.runs| && retries <= 2
    decreases 2 - retries
  {
    if !db.runs[r].status.Running? then 0
    else
      var a := attempts(retries);
      AttemptCharges(db, r, a)
      + if retries < 2 && Store.ExecuteRun(db, r, false, a).1.Reraised? then Charges(db, r, retries + 1, attempts)
        else 0
  }

  lemma TurnCharges(db: Store.Db, r: nat, retries: nat, attempts: nat -> Store.Attempt)
    requires Store.RunsHaveCases(db) && r < |db.runs| && retries <= 2 && db.runs[r].status.Running?
    ensures
      var goesOn := TaskTheorems.LastAttempt(db, r, retries, attempts) > retries;
      && (goesOn ==> retries < 2)
      && Charges(db, r, retries, attempts)
         == AttemptCharges(db, r, attempts(retries)) + if goesOn then Charges(db, r, retries + 1, attempts) else 0
  {
  }

  /** A task charges its case at most once for each of its three attempts. */
  lemma {:induction false} ChargesAreBounded(db: Store.Db, r: nat, retries: nat, attempts: nat -> Store.Attempt)
    requires Store.RunsHaveCases(db) && r < |db.runs| && retries <= 2
    ensures Charges(db, r, retries, attempts) <= 3 - retries
    decreases 2 - retries
  {
    if db.runs[r].status.Running? {
      TurnCharges(db, r, retries, attempts);
      AttemptChargesOnce(db, r, attempts(retries));
      if TaskTheorems.LastAttempt(db, r, retries, attempts) > retries {
        ChargesAreBounded(db, r, retries + 1, attempts);
      }
    }
  }

  /** The policy of no attempt approves a retry of the case. */
  ghost predicate RetryRefused(db: Store.Db, r: nat, attempts: nat -> Store.Attempt)
    requires Store.RunsHaveCases(db) && r < |db.runs|
  {
    forall i: nat :: !Runs.RetryApprovable(attempts(i).policy, Store.StartState(db.cases[db.runs[r].caseId]))
  }

  lemma RefusedIsUncharged(db: Store.Db, r: nat, attempts: nat -> Store.Attempt, i: nat)
    requires Store.RunsHaveCases(db) && r < |db.runs| && RetryRefused(db, r, attempts)
    ensures AttemptCharges(db, r, attempts(i)) == 0
  {
    AttemptChargesOnce(db, r, attempts(i));
  }

  lemma {:induction false} NoChargeWhenRefused(db: Store.Db, r: nat, retries: nat, attempts: nat -> Store.Attempt)
    requires Store.RunsHaveCases(db) && r < |db.runs| && retries <= 2 && RetryRefused(db, r, attempts)
    ensures Charges(db, r, retries, attempts) == 0
    decreases 2 - retries
  {
    if db.runs[r].status.Running? {
      TurnCharges(db, r, retries, attempts);
      RefusedIsUncharged(db, r, attempts, retries);
      if TaskTheorems.LastAttempt(db, r, retries, attempts) > retries {
        NoChargeWhenRefused(db, r, retries + 1, attempts);
      }
    }
  }

  /** The attempts before the last one are those that were rolled back. */
  ghost predicate RolledBackUncharged(db: Store.Db, r: nat, retries: nat, attempts: nat -> Store.Attempt)
    requires Store.RunsHaveCases(db) && r < |db.runs| && retries <= 2
  {
    forall i: nat :: retries <= i < TaskTheorems.LastAttempt(db, r, retries, attempts) ==>
      AttemptCharges(db, r, attempts(i)) == 0
  }

  lemma NextAttempts(db: Store.Db, r: nat, retries: nat, attempts: nat -> Store.Attempt)
    requires Store.RunsHaveCases(db) && r < |db.runs| && retries <= 2
    requires RolledBackUncharged(db, r, retries, attempts)
    requires TaskTheorems.LastAttempt(db, r, retries, attempts) > retries
    ensures retries < 2 && RolledBackUncharged(db, r, retries + 1, attempts)
    ensures AttemptCharges(db, r, attempts(retries)) == 0
  {
  }

  /** A task whose rolled-back attempts charged nothing charges its case at most once. */
  lemma {:induction false} OneChargeUnlessRolledBack(
      db: Store.Db, r: nat, retries: nat, attempts: nat -> Store.Attempt)
    requires Store.RunsHaveCases(db) && r < |db.runs| && retries <= 2
    requires RolledBackUncharged(db, r, retries, attempts)
    ensures Charges(db, r, retries, attempts) <= 1
    decreases 2 - retries
  {
    if db.runs[r].status.Running? {
      TurnCharges(db, r, retries, attempts);
      AttemptChargesOnce(db, r, attempts(retries));
      if TaskTheorems.LastAttempt(db, r, retries, attempts) > retries {
        NextAttempts(db, r, retries, attempts);
        OneChargeUnlessRolledBack(db, r, retries + 1, attempts);
      }
    }
  }

  // ----- Three charges

  /** One charged retry, and the run fails once its success has been fetched. */
  function ChargeThenFault(): Environment {
    n => Input(if n == 7 then FaultAfter else NoFault, 1.0, RetryNow, "000000000000", true, "payment",
               Payment("payment", Success, 0))
  }

  lemma ChargeIsFetched(p: Policy, mode: Mode, env: Environment, s: AgentState, w: World)
    requires PaysNow(s) && env(|s.trace|).fault.FaultAfter? && env(|s.trace|).fetched.status.Success?
    requires mode.Simulator? ==>
      s.execution.value.transactionId in w.payments && w.payments[s.execution.value.transactionId].status.Success?
    requires s.execution.value.transactionId != ""
    ensures
      var r := RunFrom(p, mode, env, Verification, s, w);
      r.Raised? && Count(r.world.effects, AnyCapture) >= 1
  {
    var id := s.execution.value.transactionId;
    var payment := GetPayment(mode, w, id, env(|s.trace|));
    CountSnoc(w.effects, Fetched(id, payment.status, payment.amount));
  }

  lemma ChargeCarriedOut(p: Policy, mode: Mode, env: Environment, s: AgentState, w: World)
    requires HasApproval(s) && IsRetryStrategy(s.strategy.value) && NoFaultUntil(env, |s.trace| + 2)
    requires env(|s.trace|).charged && env(|s.trace|).retryId != ""
    requires env(|s.trace| + 2).fault.FaultAfter? && env(|s.trace| + 2).fetched.status.Success?
    ensures
      var r := RunFrom(p, mode, env, ActionExecution, s, w);
      r.Raised? && Count(r.world.effects, AnyCapture) >= 1
  {
    var s', w' := CarryOut(p, mode, env, s, w);
    ChargeIsFetched(p, mode, env, s', w');
  }

  lemma ChargeThenFaultRaises(p: Policy, mode: Mode, s0: AgentState)
    requires Initial(s0) && Runs.RetryApprovable(p, s0)
    ensures
      var r := Run(p, mode, ChargeThenFault(), s0, map[]);
      r.Raised? && Count(r.world.effects, AnyCapture) == 1
  {
    var env := ChargeThenFault();
    BothRetriesPass(p, s0, RetryNow);
    Preamble(p, mode, env, s0, World(map[], []));
    var s, w, x := ProposeRetry(p, mode, env, RetryNow, s0);
    ChargeCarriedOut(p, mode, env, s, w);
    OneChargeARun(p, mode, env, s0, map[]);
  }

  /** Every attempt charges the case, and none but the last one ends the run. */
  lemma ThreeCharges(db: Store.Db, r: nat, attempts: nat -> Store.Attempt)
    requires Store.RunsHaveCases(db) && r < |db.runs| && db.runs[r].status.Running?
    requires forall i: nat ::
      && Store.ExecuteRun(db, r, false, attempts(i)).1.Reraised?
      && AttemptCharges(db, r, attempts(i)) == 1
    ensures Charges(db, r, 0, attempts) == 3 && TaskTheorems.LastAttempt(db, r, 0, attempts) == 2
  {
    TurnCharges(db, r, 0, attempts);
    TurnCharges(db, r, 1, attempts);
    TurnCharges(db, r, 2, attempts);
    assert TaskTheorems.LastAttempt(db, r, 1, attempts) == 2;
    assert TaskTheorems.LastAttempt(db, r, 0, attempts) == 2;
  }

  lemma FaultyChargesReachTheBound(db: Store.Db, r: nat, p: Policy, mode: Mode, base16: string -> bool)
    requires Store.RunsHaveCases(db) && r < |db.runs| && db.runs[r].status.Running?
    requires Runs.RetryApprovable(p, Store.StartState(db.cases[db.runs[r].caseId]))
    ensures Charges(db, r, 0, TaskTheorems.TaskOf(p, mode, base16, n => ChargeThenFault())) == 3
  {
    ChargeThenFaultRaises(p, mode, Store.StartState(db.cases[db.runs[r].caseId]));
    ThreeCharges(db, r, TaskTheorems.TaskOf(p, mode, base16, n => ChargeThenFault()));
  }

  /** For every number: no task charges the case more often than that, whatever is proposed
      and answered, exactly when the policy approves no retry or the number is at least 3. */
  lemma ChargeBoundIsExact(db: Store.Db, r: nat, p: Policy, mode: Mode, base16: string -> bool, k: nat)
    requires Store.RunsHaveCases(db) && r < |db.runs| && db.runs[r].status.Running?
    ensures
      (forall envs: nat -> Environment :: Charges(db, r, 0, TaskTheorems.TaskOf(p, mode, base16, envs)) <= k)
      <==> k >= 3 || !Runs.RetryApprovable(p, Store.StartState(db.cases[db.runs[r].caseId]))
  {
    if k < 3 && Runs.RetryApprovable(p, Store.StartState(db.cases[db.runs[r].caseId])) {
      FaultyChargesReachTheBound(db, r, p, mode, base16);
    } else {
      forall envs: nat -> Environment ensures Charges(db, r, 0, TaskTheorems.TaskOf(p, mode, base16, envs)) <= k {
        var attempts := TaskTheorems.TaskOf(p, mode, base16, envs);
        ChargesAreBounded(db, r, 0, attempts);
        if k < 3 {
          assert RetryRefused(db, r, attempts);
          NoChargeWhenRefused(db, r, 0, attempts);
        }
      }
    }
  }

  // ----- Without any fault

  lemma LastIsCounted(e: seq<Effect>, k: Kind)
    requires e != [] && IsKind(k, e[|e| - 1])
    ensures Count(e, k) >= 1
  {
  }

  lemma ChargedAttemptIsRolledBack(db: Store.Db, r: nat, p: Policy, base16: string -> bool)
    requires RecoveryProtocol.Inv(db) && r < |db.runs| && db.runs[r].status.Running?
    requires Runs.RetryApprovable(p, Store.StartState(db.cases[db.runs[r].caseId]))
    ensures
      var a := ProtocolTheorems.ChargedAttempt(p, base16);
      && Store.ExecuteRun(db, r, false, a).1.Reraised?
      && AttemptCharges(db, r, a) == 1
  {
    var s0 := Store.StartState(db.cases[db.runs[r].caseId]);
    var a := ProtocolTheorems.ChargedAttempt(p, base16);
    BothRetriesPass(p, s0, RetryNow);
    Runs.ChargedRetryRecovers(p, s0, map[]);
    Runs.RecoveredIffCaptured(p, Simulator, a.env, s0, map[]);
    LastIsCounted(TaskTheorems.EffectsOf(db, r, a), AnyCapture);
    AttemptChargesOnce(db, r, a);
    ProtocolTheorems.SimulatedRecoveryNeverCompletes(db, r, false, a);
  }

  /** With the simulator no fault is needed: a task whose every attempt is charged charges the
      case three times, and what it leaves is one recovery of the amount at risk and a run in
      ERROR. */
  lemma SimulatedTaskChargesThrice(db: Store.Db, r: nat, p: Policy, base16: string -> bool)
    requires RecoveryProtocol.Inv(db) && r < |db.runs| && db.runs[r].status.Running?
    requires Runs.RetryApprovable(p, Store.StartState(db.cases[db.runs[r].caseId]))
    ensures
      var attempts := (n: nat) => ProtocolTheorems.ChargedAttempt(p, base16);
      var c := db.runs[r].caseId;
      var db' := Store.RunTask(db, r, 0, attempts).0;
      && Charges(db, r, 0, attempts) == 3
      && db'.runs[r].status.Error? && db'.cases[c].recovered
      && db'.cases[c].amountRecovered == db.cases[c].amountAtRisk
  {
    var attempts := (n: nat) => ProtocolTheorems.ChargedAttempt(p, base16);
    var s0 := Store.StartState(db.cases[db.runs[r].caseId]);
    ChargedAttemptIsRolledBack(db, r, p, base16);
    ThreeCharges(db, r, attempts);
    TaskTheorems.TaskIsOneAttempt(db, r, 0, attempts);
    BothRetriesPass(p, s0, RetryNow);
    Runs.ChargedRetryRecovers(p, s0, map[]);
    ProtocolTheorems.SimulatedRecoveryNeverCompletes(db, r, true, attempts(2));
  }
}
