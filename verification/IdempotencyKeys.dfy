/** The idempotency keys of payment retries (agents/nodes/deterministic_nodes.py:166). */
module IdempotencyKeys {
  import opened Wrappers
  import opened PolicyEngine
  import opened AgentGraph
  import opened AgentSafety
  import opened AgentScripts
  import opened AgentTheorems

  /** `{case_id}-{strategy}-{number}`: case ids are of fixed length and strategies have no
      hyphen, so the parts can be read back. */
  datatype Key = Key(caseId: nat, strategy: Strategy, number: int)

  function KeysOf(c: nat, e: seq<Effect>): seq<Key> {
    if e == [] then []
    else
      var x := e[|e| - 1];
      KeysOf(c, e[..|e| - 1]) + if x.RetryCalled? then [Key(c, x.strategy, x.number)] else []
  }

  /** The strategies of the retries, in order. */
  function RetryStrategies(e: seq<Effect>): seq<Strategy> {
    if e == [] then []
    else
      var x := e[|e| - 1];
      RetryStrategies(e[..|e| - 1]) + if x.RetryCalled? then [x.strategy] else []
  }

  predicate Numbered(keys: seq<Key>, c: nat, strategies: seq<Strategy>, r0: int) {
    && |keys| == |strategies|
    && forall k :: 0 <= k < |keys| ==> keys[k] == Key(c, strategies[k], r0 + k + 1)
  }

  lemma GatedPrefix(p: Policy, s0: AgentState, e: seq<Effect>, n: nat)
    requires Gated(p, s0, e) && n <= |e|
    ensures Gated(p, s0, e[..n])
  {
    forall i | 0 <= i < n && IsAction(e[..n][i]) ensures Licensed(p, s0, e[..n], i) {
      assert Licensed(p, s0, e, i) && e[..n][..i] == e[..i];
    }
  }

  lemma {:induction false} KeysAreNumbered(p: Policy, s0: AgentState, c: nat, e: seq<Effect>)
    requires Gated(p, s0, e)
    ensures Numbered(KeysOf(c, e), c, RetryStrategies(e), s0.retryCount) && |KeysOf(c, e)| == Count(e, AnyRetry)
  {
    if e != [] {
      var n := |e| - 1;
      GatedPrefix(p, s0, e, n);
      KeysAreNumbered(p, s0, c, e[..n]);
      if e[n].RetryCalled? {
        assert Licensed(p, s0, e, n);
      }
    }
  }

  lemma NumberedKeyIsFound(
      c: nat, r0: int, ka: seq<Key>, sa: seq<Strategy>, kb: seq<Key>, sb: seq<Strategy>, j: nat)
    requires Numbered(ka, c, sa, r0) && Numbered(kb, c, sb, r0) && j < |kb| && kb[j] in ka
    ensures j < |sa| && sb[j] == sa[j]
  {
    var i :| 0 <= i < |ka| && ka[i] == kb[j];
  }

  lemma NumberedKeysRepeat(c: nat, r0: int, ka: seq<Key>, sa: seq<Strategy>, kb: seq<Key>, sb: seq<Strategy>)
    requires Numbered(ka, c, sa, r0) && Numbered(kb, c, sb, r0)
    requires forall k :: k in kb ==> k in ka
    ensures sb <= sa
  {
    if |sb| > 0 {
      NumberedKeyIsFound(c, r0, ka, sa, kb, sb, |sb| - 1);
    }
    forall j | 0 <= j < |sb| ensures sb[j] == sa[j] {
      NumberedKeyIsFound(c, r0, ka, sa, kb, sb, j);
    }
  }

  lemma NumberedKeysRepeatIff(c: nat, r0: int, ka: seq<Key>, sa: seq<Strategy>, kb: seq<Key>, sb: seq<Strategy>)
    requires Numbered(ka, c, sa, r0) && Numbered(kb, c, sb, r0)
    ensures (forall k :: k in kb ==> k in ka) <==> sb <= sa
  {
    if forall k :: k in kb ==> k in ka {
      NumberedKeysRepeat(c, r0, ka, sa, kb, sb);
    }
    if sb <= sa {
      forall k | k in kb ensures k in ka {
        var j :| 0 <= j < |kb| && kb[j] == k;
        assert ka[j] == k;
      }
    }
  }

  // ----- When there are keys at all

  lemma RetriesNeedApproval(p: Policy, mode: Mode, env: Environment, s0: AgentState, payments: map<string, Payment>)
    requires Initial(s0) && Count(EffectsOf(Run(p, mode, env, s0, payments)), AnyRetry) > 0
    ensures RetryApprovable(p, s0)
  {
    var e := EffectsOf(Run(p, mode, env, s0, payments));
    if s0.facts.alreadyPaid || s0.recovered {
      SettledCasesAreLeftAlone(p, mode, env, s0, payments);
    }
    var i := CountedSomewhere(e, AnyRetry);
    ActionMeetsTheRules(p, mode, env, s0, payments, i);
  }

  /** One retry with `strategy`, and the fetch of its status fails. */
  function RetryThenFault(strategy: Strategy): Environment {
    n => Input(if n == 7 then FaultBefore else NoFault, 1.0, strategy, "000000000000", false, "payment",
               Payment("", Pending, 0))
  }

  lemma BothRetriesPass(p: Policy, s0: AgentState, strategy: Strategy)
    requires RetryApprovable(p, s0) && IsRetryStrategy(strategy)
    ensures Authorize(p, ContextOf(Diagnosed(s0, 1.0), strategy)).decision.Approved?
    ensures !s0.recovered && s0.facts.amount > 0
  {
  }

  lemma OneRetry(strategy: Strategy, e: seq<Effect>, number: int, x: Effect)
    requires e == [x, RetryCalled(strategy, number)] && !x.RetryCalled?
    ensures RetryStrategies(e) == [strategy]
  {
    assert e[..1] == [x] && [x][..0] == [] && RetryStrategies([x]) == [];
  }

  lemma {:induction false} ProposeRetry(p: Policy, mode: Mode, env: Environment, strategy: Strategy, s0: AgentState)
    returns (s: AgentState, w: World, x: Effect)
    requires Initial(s0) && RetryApprovable(p, s0) && IsRetryStrategy(strategy)
    requires NoFaultUntil(env, 7) && env(3).strategy == strategy
    ensures HasApproval(s) && s.strategy == Some(strategy) && |s.trace| == 5 && w.effects == [x] && x.Decided?
    ensures RunFrom(p, mode, env, Strategise, Diagnosed(s0, 1.0), World(map[], []))
         == RunFrom(p, mode, env, ActionExecution, s, w)
  {
    BothRetriesPass(p, s0, strategy);
    s, w := Propose(p, mode, env, Diagnosed(s0, 1.0), World(map[], []));
    x := w.effects[0];
  }

  lemma OneFaultyRetry(p: Policy, mode: Mode, env: Environment, strategy: Strategy, s0: AgentState)
    requires Initial(s0) && RetryApprovable(p, s0) && IsRetryStrategy(strategy)
    requires NoFaultUntil(env, 7) && env(7).fault.FaultBefore? && env(3).strategy == strategy
    ensures
      var r := RunFrom(p, mode, env, Strategise, Diagnosed(s0, 1.0), World(map[], []));
      r.Raised? && RetryStrategies(r.world.effects) == [strategy]
  {
    var s, w, x := ProposeRetry(p, mode, env, strategy, s0);
    var w' := RetryUnverified(p, mode, env, s, w);
    RetryEffect(s);
    OneRetry(strategy, [x] + [RetryCalled(strategy, s.retryCount + 1)], s.retryCount + 1, x);
  }

  /** Any approvable retry, of either kind, can be the last thing a failed run does. */
  lemma RetryThenFaultRaises(p: Policy, mode: Mode, strategy: Strategy, s0: AgentState)
    requires Initial(s0) && RetryApprovable(p, s0) && IsRetryStrategy(strategy)
    ensures
      var r := Run(p, mode, RetryThenFault(strategy), s0, map[]);
      r.Raised? && RetryStrategies(r.world.effects) == [strategy]
  {
    BothRetriesPass(p, s0, strategy);
    Preamble(p, mode, RetryThenFault(strategy), s0, World(map[], []));
    OneFaultyRetry(p, mode, RetryThenFault(strategy), strategy, s0);
  }
}
