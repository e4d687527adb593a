/**
 * The client hook that watches one generation: an initial fetch of the row,
 * then every realtime update of it. Each time a row arrives it is stored,
 * and a terminal status fires the caller's `onComplete` or `onError`
 * callback (either of which may be absent).
 */
module GenerationStatus {
  import opened Common
  import opened GenerationData

  const GenerationFailed := "Generation failed"

  /** A callback invocation the hook makes. */
  datatype Notice = Completed(row: Generation) | Errored(message: string)

  /** What a freshly arrived row asks the hook to report: completed and
      partial rows complete, a failed row reports its error message or a
      default, and a pending or processing row reports nothing. */
  function Classify(row: Generation): (n: Option<Notice>)
    ensures n == Some(Notice.Completed(row)) <==> row.status == GenStatus.Completed || row.status == Partial
    ensures n.Some? && n.value.Errored? <==> row.status == GenStatus.Failed
    ensures n.Some? && n.value.Errored? ==> n.value.message == OrElse(row.errorMessage, GenerationFailed)
    ensures n.Some? && n.value.Errored? ==> n.value.message != ""
  {
    match row.status
    case Completed => Some(Notice.Completed(row))
    case Partial => Some(Notice.Completed(row))
    case Failed => Some(Errored(OrElse(row.errorMessage, GenerationFailed)))
    case _ => None
  }

  /** A callback fires exactly for the statuses the workflow callback
      leaves a generation in. */
  lemma ClassifyIffTerminal(row: Generation)
    ensures Classify(row).Some? <==> IsTerminal(row.status)
  {
  }

  /** The invocations that actually happen, given which callbacks the
      caller supplied (`onCompleteRef.current?.(…)`). */
  function Delivered(n: Option<Notice>, hasOnComplete: bool, hasOnError: bool): (calls: seq<Notice>)
    ensures |calls| <= 1
    ensures calls != [] <==> n.Some? && (if n.value.Completed? then hasOnComplete else hasOnError)
    ensures calls != [] ==> calls == [n.value]
  {
    if n.None? then []
    else if n.value.Completed? then (if hasOnComplete then [n.value] else [])
    else if hasOnError then [n.value] else []
  }

  class Watcher {
    const hasOnComplete: bool
    const hasOnError: bool
    /** The last row received, or null before the first one. */
    var generation: Option<Generation>
    var isLoading: bool
    /** The callback invocations made so far, in order. */
    var calls: seq<Notice>

    constructor (hasOnComplete: bool, hasOnError: bool)
      ensures this.hasOnComplete == hasOnComplete && this.hasOnError == hasOnError
      ensures generation.None? && isLoading && calls == []
    {
      this.hasOnComplete := hasOnComplete;
      this.hasOnError := hasOnError;
      generation := None;
      isLoading := true;
      calls := [];
    }

    /** The initial `.single()` fetch completes with a row or an error message. */
    method OnFetch(fetched: Result<Generation, string>)
      modifies this`generation, this`isLoading, this`calls
      ensures !isLoading
      ensures fetched.Err? ==>
                && generation == old(generation)
                && calls == old(calls) + Delivered(Some(Errored(fetched.error)), hasOnComplete, hasOnError)
      ensures fetched.Ok? ==>
                && generation == Some(fetched.value)
                && calls == old(calls) + Delivered(Classify(fetched.value), hasOnComplete, hasOnError)
    {
      if fetched.Err? {
        if hasOnError {
          calls := calls + [Errored(fetched.error)];
        }
        isLoading := false;
        return;
      }
      generation := Some(fetched.value);
      Report(fetched.value);
      isLoading := false;
    }

    /** A realtime UPDATE of the watched row. */
    method OnUpdate(updated: Generation)
      modifies this`generation, this`calls
      ensures generation == Some(updated)
      ensures calls == old(calls) + Delivered(Classify(updated), hasOnComplete, hasOnError)
    {
      generation := Some(updated);
      Report(updated);
    }

    /** The status check both handlers share. */
    method Report(row: Generation)
      modifies this`calls
      ensures calls == old(calls) + Delivered(Classify(row), hasOnComplete, hasOnError)
    {
      if row.status == GenStatus.Completed || row.status == Partial {
        if hasOnComplete {
          calls := calls + [Notice.Completed(row)];
        }
      } else if row.status == GenStatus.Failed {
        if hasOnError {
          calls := calls + [Errored(OrElse(row.errorMessage, GenerationFailed))];
        }
      }
    }
  }
}
