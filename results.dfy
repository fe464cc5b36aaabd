/** Outcomes shared by the whole model: optional values, results, and the
    ways a call into the logging facade can abort instead of returning. */
module Results {

  datatype Option<+T> = None | Some(value: T)

  datatype Result<+T, +E> = Success(value: T) | Failure(error: E)

  /** How an operation stops without returning normally. */
  datatype Abort =
    | Panic(reason: string)        // panic("...") with a fixed message
    | OpenFailed(path: string)     // panic(err) after the log file could not be opened
    | KeyNotAString(index: nat)    // keyValue[index].(string) failed in a key/value log call
    | TagNotAString(key: string)   // v.(string) failed for a tag-classified event key
    | Exit(message: string)        // log.Fatal: message written, process exits
}

/** Helpers over results shared by the sink and key/value collection loops. */
module ResultSeqs {
  import opened Results

  /** `acc` followed by the successful tail `r`, or the failure of `r`. */
  function PrependAll<T, E>(acc: seq<T>, r: Result<seq<T>, E>): (p: Result<seq<T>, E>)
    ensures p.Success? <==> r.Success?
    ensures p.Success? ==> |p.value| == |acc| + |r.value| && p.value[..|acc|] == acc && p.value[|acc|..] == r.value
    ensures p.Failure? ==> p.error == r.error
  {
    match r
    case Success(rest) => Success(acc + rest)
    case Failure(e) => Failure(e)
  }

  /** Prepending in two steps is prepending the concatenation. */
  lemma PrependAllTwice<T, E>(a: seq<T>, b: seq<T>, r: Result<seq<T>, E>)
    ensures PrependAll(a, PrependAll(b, r)) == PrependAll(a + b, r)
  {
    if r.Success? {
      assert a + (b + r.value) == (a + b) + r.value;
    }
  }
}
