/** The sequential model-fallback invoker: every candidate model is tried once,
    in list order, until one of them answers. The generation call itself is a
    network call into the provider's SDK, so it is a parameter here: a total
    function from a model identifier to what the attempt produced. */
module Fallback {
  import opened Wrappers

  /** What one generation attempt against one candidate produced: a response,
      an `Exception` (which the loop catches), or a `BaseException` outside
      `Exception`, such as `KeyboardInterrupt` (which nothing here catches). */
  datatype Outcome<+R, +E> = Ok(response: R) | Err(error: E) | Fatal(error: E)

  /** Why the whole operation failed: either the error of an attempt is
      re-raised, or there was no candidate at all (Python's
      `generate_with_fallback` then raises its still-unset `last_error`,
      which is a different failure). */
  datatype Failure<+E> = Raised(error: E) | NoCandidates

  /** A response, a failure after the candidates ran out, or an uncaught
      exception that ended the loop early. */
  datatype Result<+R, +E> = Success(response: R) | Failed(failure: Failure<E>) | Escaped(error: E)

  /** The result of a run together with the candidates attempted, in order. */
  datatype Run<+M, +R, +E> = Run(result: Result<R, E>, trace: seq<M>)

  /** Candidate `k` is the first whose attempt is not a caught failure: the
      loop stops there. */
  ghost predicate StopsAt<M, R, E>(models: seq<M>, call: M -> Outcome<R, E>, k: int)
  {
    && 0 <= k < |models|
    && !call(models[k]).Err?
    && forall j :: 0 <= j < k ==> call(models[j]).Err?
  }

  /** Candidate `k` is the first whose attempt succeeds, all before it failing. */
  ghost predicate FirstSuccessAt<M, R, E>(models: seq<M>, call: M -> Outcome<R, E>, k: int)
  {
    StopsAt(models, call, k) && call(models[k]).Ok?
  }

  /** Candidate `k` raises an uncaught exception, all before it failing. */
  ghost predicate FirstFatalAt<M, R, E>(models: seq<M>, call: M -> Outcome<R, E>, k: int)
  {
    StopsAt(models, call, k) && call(models[k]).Fatal?
  }

  /** Every candidate's attempt fails with a caught exception. */
  ghost predicate AllFail<M, R, E>(models: seq<M>, call: M -> Outcome<R, E>)
  {
    forall j :: 0 <= j < |models| ==> call(models[j]).Err?
  }

  /** The loop over the candidates not yet tried, carrying the error of the
      previous attempt (`None` before the first attempt). */
  function Loop<M, R, E>(remaining: seq<M>, call: M -> Outcome<R, E>, lastError: Option<E>): (r: Run<M, R, E>)
    ensures r.trace <= remaining
    ensures !r.result.Failed? ==> |r.trace| > 0
    ensures r.result == Failed(NoCandidates) <==> remaining == [] && lastError == None
    decreases |remaining|
  {
    if |remaining| == 0 then
      match lastError
      case None => Run(Failed(NoCandidates), [])
      case Some(e) => Run(Failed(Raised(e)), [])
    else
      match call(remaining[0])
      case Ok(response) => Run(Success(response), [remaining[0]])
      case Fatal(e) => Run(Escaped(e), [remaining[0]])
      case Err(e) =>
        var rest := Loop(remaining[1..], call, Some(e));
        Run(rest.result, [remaining[0]] + rest.trace)
  }

  /** Tries `models` in order and returns the first success, or the last error. */
  function GenerateWithFallback<M, R, E>(models: seq<M>, call: M -> Outcome<R, E>): (r: Run<M, R, E>)
    ensures r.trace <= models
    ensures r.result == Failed(NoCandidates) <==> models == []
    ensures models == [] ==> r.trace == []
  {
    Loop(models, call, None)
  }

  /** Python's `generate_with_fallback` as written: a `for` over the list with
      a variable holding the last error. */
  method GenerateWithFallbackLoop<M, R, E>(models: seq<M>, call: M -> Outcome<R, E>)
    returns (result: Result<R, E>, trace: seq<M>)
    ensures trace <= models
    ensures result.Success? ==>
              FirstSuccessAt(models, call, |trace| - 1)
              && call(models[|trace| - 1]) == Ok(result.response)
    ensures result.Escaped? ==>
              FirstFatalAt(models, call, |trace| - 1)
              && call(models[|trace| - 1]) == Fatal(result.error)
    ensures result.Failed? ==> trace == models && AllFail(models, call)
    ensures models == [] ==> result == Failed(NoCandidates)
    ensures models != [] && result.Failed? ==>
              result == Failed(Raised(call(models[|models| - 1]).error))
    ensures Run(result, trace) == GenerateWithFallback(models, call)
  {
    var lastError: Option<E> := None;
    trace := [];
    var i := 0;
    while i < |models|
      invariant 0 <= i <= |models|
      invariant trace == models[..i]
      invariant forall j :: 0 <= j < i ==> call(models[j]).Err?
      invariant i == 0 ==> lastError == None
      invariant i > 0 ==> lastError == Some(call(models[i - 1]).error)
    {
      var model := models[i];
      trace := trace + [model];
      match call(model) {
        case Ok(response) =>
          result := Success(response);
          LoopStopsAt(models, call, None, i);
          return;
        case Fatal(e) =>
          result := Escaped(e);
          LoopStopsAt(models, call, None, i);
          return;
        case Err(e) =>
          lastError := Some(e);
      }
      i := i + 1;
    }
    match lastError
    case None =>
      result := Failed(NoCandidates);
    case Some(e) =>
      result := Failed(Raised(e));
      AllFailRaisesLast(models, call);
  }

  /** If the first candidate answers, its response is returned and nothing
      after it is attempted. */
  lemma FirstCandidateSucceeds<M, R, E>(models: seq<M>, call: M -> Outcome<R, E>)
    requires |models| > 0 && call(models[0]).Ok?
    ensures GenerateWithFallback(models, call) == Run(Success(call(models[0]).response), [models[0]])
  {
  }

  /** If candidates before `k` fail and candidate `k` answers, the run returns
      `k`'s response having attempted exactly `models[..k+1]`, in order. */
  lemma SucceedsAtFirstSuccess<M, R, E>(models: seq<M>, call: M -> Outcome<R, E>, k: int)
    requires FirstSuccessAt(models, call, k)
    ensures GenerateWithFallback(models, call) == Run(Success(call(models[k]).response), models[..k + 1])
  {
    LoopStopsAt(models, call, None, k);
  }

  /** An uncaught exception from candidate `k` leaves the loop at once: it
      propagates, and later candidates are not attempted. */
  lemma EscapesAtFirstFatal<M, R, E>(models: seq<M>, call: M -> Outcome<R, E>, k: int)
    requires FirstFatalAt(models, call, k)
    ensures GenerateWithFallback(models, call) == Run(Escaped(call(models[k]).error), models[..k + 1])
  {
    LoopStopsAt(models, call, None, k);
  }

  lemma {:induction false} LoopStopsAt<M, R, E>(remaining: seq<M>, call: M -> Outcome<R, E>, lastError: Option<E>, k: int)
    requires StopsAt(remaining, call, k)
    ensures call(remaining[k]).Ok? ==>
              Loop(remaining, call, lastError) == Run(Success(call(remaining[k]).response), remaining[..k + 1])
    ensures call(remaining[k]).Fatal? ==>
              Loop(remaining, call, lastError) == Run(Escaped(call(remaining[k]).error), remaining[..k + 1])
    decreases k
  {
    if k > 0 {
      var e := call(remaining[0]).error;
      var rest := remaining[1..];
      assert StopsAt(rest, call, k - 1) by {
        assert rest[k - 1] == remaining[k];
        forall j | 0 <= j < k - 1 ensures call(rest[j]).Err? {
          assert rest[j] == remaining[j + 1];
        }
      }
      LoopStopsAt(rest, call, Some(e), k - 1);
      assert [remaining[0]] + rest[..k] == remaining[..k + 1];
    }
  }

  /** If every candidate fails, the run fails with the error of the LAST
      candidate (not the first, not an aggregate) after attempting them all. */
  lemma AllFailRaisesLast<M, R, E>(models: seq<M>, call: M -> Outcome<R, E>)
    requires |models| > 0 && AllFail(models, call)
    ensures GenerateWithFallback(models, call) ==
              Run(Failed(Raised(call(models[|models| - 1]).error)), models)
  {
    LoopAllFail(models, call, None);
  }

  lemma {:induction false} LoopAllFail<M, R, E>(remaining: seq<M>, call: M -> Outcome<R, E>, lastError: Option<E>)
    requires |remaining| > 0 && AllFail(remaining, call)
    ensures Loop(remaining, call, lastError) ==
              Run(Failed(Raised(call(remaining[|remaining| - 1]).error)), remaining)
    decreases |remaining|
  {
    var e := call(remaining[0]).error;
    var rest := remaining[1..];
    if |rest| > 0 {
      assert AllFail(rest, call) by {
        forall j | 0 <= j < |rest| ensures call(rest[j]).Err? {
          assert rest[j] == remaining[j + 1];
        }
      }
      LoopAllFail(rest, call, Some(e));
      assert [remaining[0]] + rest == remaining;
    }
  }

  /** Every run is explained by the candidates: a success is the response of
      the first answering candidate, which ends the trace; an escaped
      exception comes from the first candidate raising one, which also ends
      the trace; a failure means all candidates failed, were all attempted,
      and the last one's error is raised. */
  lemma RunExplained<M, R, E>(models: seq<M>, call: M -> Outcome<R, E>)
    ensures var r := GenerateWithFallback(models, call);
            r.result.Success? ==>
              && FirstSuccessAt(models, call, |r.trace| - 1)
              && call(models[|r.trace| - 1]) == Ok(r.result.response)
    ensures var r := GenerateWithFallback(models, call);
            r.result.Escaped? ==>
              && FirstFatalAt(models, call, |r.trace| - 1)
              && call(models[|r.trace| - 1]) == Fatal(r.result.error)
    ensures var r := GenerateWithFallback(models, call);
            r.result.Failed? ==> r.trace == models && AllFail(models, call)
    ensures var r := GenerateWithFallback(models, call);
            r.result.Failed? && models != [] ==>
              r.result.failure == Raised(call(models[|models| - 1]).error)
  {
    LoopExplained(models, call, None);
  }

  lemma {:induction false} LoopExplained<M, R, E>(remaining: seq<M>, call: M -> Outcome<R, E>, lastError: Option<E>)
    ensures var r := Loop(remaining, call, lastError);
            r.result.Success? ==>
              && FirstSuccessAt(remaining, call, |r.trace| - 1)
              && call(remaining[|r.trace| - 1]) == Ok(r.result.response)
    ensures var r := Loop(remaining, call, lastError);
            r.result.Escaped? ==>
              && FirstFatalAt(remaining, call, |r.trace| - 1)
              && call(remaining[|r.trace| - 1]) == Fatal(r.result.error)
    ensures var r := Loop(remaining, call, lastError);
            r.result.Failed? ==> r.trace == remaining && AllFail(remaining, call)
    ensures var r := Loop(remaining, call, lastError);
            r.result.Failed? && remaining != [] ==>
              r.result.failure == Raised(call(remaining[|remaining| - 1]).error)
    decreases |remaining|
  {
    if |remaining| > 0 && call(remaining[0]).Err? {
      var e := call(remaining[0]).error;
      var tail := remaining[1..];
      var rest := Loop(tail, call, Some(e));
      LoopExplained(tail, call, Some(e));
      var r := Loop(remaining, call, lastError);
      assert r.trace == [remaining[0]] + rest.trace;
      if !rest.result.Failed? {
        var k := |rest.trace| - 1;
        assert remaining[k + 1] == tail[k];
        forall j | 0 <= j < k + 1 ensures call(remaining[j]).Err? {
          if j > 0 {
            assert remaining[j] == tail[j - 1];
          }
        }
      } else {
        assert r.trace == remaining;
        forall j | 0 <= j < |remaining| ensures call(remaining[j]).Err? {
          if j > 0 {
            assert remaining[j] == tail[j - 1];
          }
        }
        if tail != [] {
          assert remaining[|remaining| - 1] == tail[|tail| - 1];
        }
      }
    }
  }

  /** The run succeeds exactly when some candidate answers before any
      uncaught exception; when no candidate raises one, exactly when some
      candidate answers at all. */
  lemma SucceedsIffSomeCandidateSucceeds<M, R, E>(models: seq<M>, call: M -> Outcome<R, E>)
    ensures GenerateWithFallback(models, call).result.Success? <==>
              exists k :: FirstSuccessAt(models, call, k)
    ensures (forall j :: 0 <= j < |models| ==> !call(models[j]).Fatal?) ==>
              (GenerateWithFallback(models, call).result.Success? <==>
                 exists j :: 0 <= j < |models| && call(models[j]).Ok?)
  {
    RunExplained(models, call);
    var r := GenerateWithFallback(models, call);
    if r.result.Success? {
      assert FirstSuccessAt(models, call, |r.trace| - 1);
      assert call(models[|r.trace| - 1]).Ok?;
    }
    forall k | FirstSuccessAt(models, call, k) ensures r.result.Success? {
      SucceedsAtFirstSuccess(models, call, k);
    }
  }

  /** Candidates after the one that answered are never consulted: any other
      call function that agrees on the attempted candidates gives the same run. */
  lemma OnlyAttemptedCandidatesMatter<M, R, E>(models: seq<M>, call: M -> Outcome<R, E>, call': M -> Outcome<R, E>)
    requires forall m :: m in GenerateWithFallback(models, call).trace ==> call(m) == call'(m)
    ensures GenerateWithFallback(models, call') == GenerateWithFallback(models, call)
  {
    LoopOnlyAttemptedMatter(models, call, call', None);
  }

  lemma {:induction false} LoopOnlyAttemptedMatter<M, R, E>(remaining: seq<M>, call: M -> Outcome<R, E>, call': M -> Outcome<R, E>, lastError: Option<E>)
    requires forall m :: m in Loop(remaining, call, lastError).trace ==> call(m) == call'(m)
    ensures Loop(remaining, call', lastError) == Loop(remaining, call, lastError)
    decreases |remaining|
  {
    if |remaining| > 0 {
      var r := Loop(remaining, call, lastError);
      assert remaining[0] in r.trace;
      match call(remaining[0])
      case Ok(_) =>
      case Fatal(_) =>
      case Err(e) =>
        var rest := Loop(remaining[1..], call, Some(e));
        assert r.trace == [remaining[0]] + rest.trace;
        forall m | m in rest.trace ensures call(m) == call'(m) {
          assert m in r.trace;
        }
        LoopOnlyAttemptedMatter(remaining[1..], call, call', Some(e));
    }
  }
}
