/** The simulated payment provider with its mutable result table
    (backend/app/providers/simulator_provider.py). */
module SimulatorProvider {
  import opened AgentGraph

  class SimulatorPaymentProvider {
    var paymentResults: map<string, Payment>

    constructor ()
      ensures paymentResults == map[]
    {
      paymentResults := map[];
    }

    /** Stores the result it returns, as `CallRetry` does for a simulated run. */
    method RetryPayment(amount: int, input: Input) returns (result: Payment)
      modifies this
      ensures result.amount == amount && (result.status.Success? <==> input.charged)
      ensures forall e ::
        (result.id, World(paymentResults, e)) == CallRetry(Simulator, World(old(paymentResults), e), amount, input)
    {
      result := Payment("TXN-" + input.token, if input.charged then Success else Failed, amount);
      paymentResults := paymentResults[result.id := result];
    }

    /** The simulator does not wait. */
    method ScheduleRetry(amount: int, delayHours: int, input: Input) returns (result: Payment)
      modifies this
      ensures result.amount == amount && (result.status.Success? <==> input.charged)
      ensures forall e ::
        (result.id, World(paymentResults, e)) == CallRetry(Simulator, World(old(paymentResults), e), amount, input)
    {
      result := RetryPayment(amount, input);
    }

    method FetchPayment(id: string, input: Input) returns (result: Payment)
      ensures forall e :: result == GetPayment(Simulator, World(paymentResults, e), id, input)
    {
      if id in paymentResults {
        return paymentResults[id];
      }
      return Payment(id, Pending, 0);
    }
  }

  lemma UnknownPaymentIsPending(w: World, id: string, input: Input)
    requires id !in w.payments
    ensures GetPayment(Simulator, w, id, input) == Payment(id, Pending, 0)
  {
  }

  /** Read your writes: the status fetched after a retry is the one it returned, and
      other payments keep theirs. */
  lemma FetchReturnsWhatTheRetryStored(w: World, amount: int, input: Input, later: Input, id: string)
    ensures
      var (stored, w') := CallRetry(Simulator, w, amount, input);
      GetPayment(Simulator, w', id, later)
      == if id == stored then Payment(stored, if input.charged then Success else Failed, amount)
         else GetPayment(Simulator, w, id, later)
  {
  }
}
