/** `SchedulingBudget` (vllm/core/scheduler.py:33-90). */
module Budget {
  class SchedulingBudget {
    const tokenBudget: int
    const maxNumSeqs: int
    var requestIdsNumBatchedTokens: set<int>
    var requestIdsNumCurrSeqs: set<int>
    var numBatchedTokens: int
    var numCurrSeqs: int

    constructor (tokenBudget: int, maxNumSeqs: int)
      ensures this.tokenBudget == tokenBudget && this.maxNumSeqs == maxNumSeqs
      ensures requestIdsNumBatchedTokens == {} && requestIdsNumCurrSeqs == {}
      ensures numBatchedTokens == 0 && numCurrSeqs == 0
    {
      this.tokenBudget, this.maxNumSeqs := tokenBudget, maxNumSeqs;
      requestIdsNumBatchedTokens, requestIdsNumCurrSeqs := {}, {};
      numBatchedTokens, numCurrSeqs := 0, 0;
    }

    /** `can_schedule` (50-54). */
    predicate CanSchedule(numNewTokens: int, numNewSeqs: int)
      reads this
    {
      numBatchedTokens + numNewTokens <= tokenBudget && numCurrSeqs + numNewSeqs <= maxNumSeqs
    }

    /** `remaining_token_budget` (56-57). */
    function RemainingTokenBudget(): int
      reads this
    {
      tokenBudget - numBatchedTokens
    }

    method AddNumBatchedTokens(requestId: int, amount: int)
      modifies this`requestIdsNumBatchedTokens, this`numBatchedTokens
      ensures requestIdsNumBatchedTokens == old(requestIdsNumBatchedTokens) + {requestId}
      ensures numBatchedTokens ==
              old(numBatchedTokens) + if requestId in old(requestIdsNumBatchedTokens) then 0 else amount
    {
      if requestId !in requestIdsNumBatchedTokens {
        requestIdsNumBatchedTokens := requestIdsNumBatchedTokens + {requestId};
        numBatchedTokens := numBatchedTokens + amount;
      }
    }

    method SubtractNumBatchedTokens(requestId: int, amount: int)
      modifies this`requestIdsNumBatchedTokens, this`numBatchedTokens
      ensures requestIdsNumBatchedTokens == old(requestIdsNumBatchedTokens) - {requestId}
      ensures numBatchedTokens ==
              old(numBatchedTokens) - if requestId in old(requestIdsNumBatchedTokens) then amount else 0
    {
      if requestId in requestIdsNumBatchedTokens {
        requestIdsNumBatchedTokens := requestIdsNumBatchedTokens - {requestId};
        numBatchedTokens := numBatchedTokens - amount;
      }
    }

    method AddNumSeqs(requestId: int, amount: int)
      modifies this`requestIdsNumCurrSeqs, this`numCurrSeqs
      ensures requestIdsNumCurrSeqs == old(requestIdsNumCurrSeqs) + {requestId}
      ensures numCurrSeqs == old(numCurrSeqs) + if requestId in old(requestIdsNumCurrSeqs) then 0 else amount
    {
      if requestId !in requestIdsNumCurrSeqs {
        requestIdsNumCurrSeqs := requestIdsNumCurrSeqs + {requestId};
        numCurrSeqs := numCurrSeqs + amount;
      }
    }

    method SubtractNumSeqs(requestId: int, amount: int)
      modifies this`requestIdsNumCurrSeqs, this`numCurrSeqs
      ensures requestIdsNumCurrSeqs == old(requestIdsNumCurrSeqs) - {requestId}
      ensures numCurrSeqs == old(numCurrSeqs) - if requestId in old(requestIdsNumCurrSeqs) then amount else 0
    {
      if requestId in requestIdsNumCurrSeqs {
        requestIdsNumCurrSeqs := requestIdsNumCurrSeqs - {requestId};
        numCurrSeqs := numCurrSeqs - amount;
      }
    }
  }
}
