/** How an emission error is classified before the contingency decision. */
module EmissionErrors {
  import opened Text

  /** What `errors.Is` and `errors.As` can find along the wrapping chain. */
  datatype Cause = Canceled | DeadlineExceeded | Eof | UnexpectedEof | NetworkError | PreparationError

  datatype GoError = GoError(causes: set<Cause>, message: string)

  const MARKERS := ["connection refused", "connection reset", "network is unreachable",
                    "no such host", "i/o timeout", "tls handshake timeout"]

  /** `isSIATConnectivityError`. */
  predicate IsConnectivity(e: GoError) {
    if Canceled in e.causes || PreparationError in e.causes then false
    else if DeadlineExceeded in e.causes || Eof in e.causes || UnexpectedEof in e.causes then true
    else if NetworkError in e.causes then true
    else exists i | 0 <= i < |MARKERS| :: Contains(ToLower(e.message), MARKERS[i])
  }

  /** `emissionPreparationError`: same message, one more cause. */
  function AsPreparation(e: GoError): GoError {
    e.(causes := e.causes + {PreparationError})
  }

  /** The wrapper type is private to the use case: no adapter can return it. */
  function FromAdapter(e: GoError): GoError {
    e.(causes := e.causes - {PreparationError})
  }

  /** The exact condition: no cancellation and no preparation failure, and one of the four causes or one of
      the six texts, in any letter case. */
  lemma OutageIff(e: GoError)
    ensures var text := ToLower(e.message);
            IsConnectivity(e) <==>
            && Canceled !in e.causes && PreparationError !in e.causes
            && (|| DeadlineExceeded in e.causes || Eof in e.causes || UnexpectedEof in e.causes
                || NetworkError in e.causes
                || Contains(text, "connection refused") || Contains(text, "connection reset")
                || Contains(text, "network is unreachable") || Contains(text, "no such host")
                || Contains(text, "i/o timeout") || Contains(text, "tls handshake timeout"))
  {
    hide Contains;
    assert MARKERS[0] == "connection refused" && MARKERS[1] == "connection reset";
    assert MARKERS[2] == "network is unreachable" && MARKERS[3] == "no such host";
    assert MARKERS[4] == "i/o timeout" && MARKERS[5] == "tls handshake timeout" && |MARKERS| == 6;
  }

  lemma {:induction false} ContainsInside(before: string, s: string, after: string, part: string)
    requires Contains(s, part)
    ensures Contains(before + s + after, part)
    decreases |before| + |s|
  {
    var whole := before + s + after;
    if before != [] {
      ContainsInside(before[1..], s, after, part);
      assert whole[1..] == before[1..] + s + after;
    } else if part <= s {
      assert part <= whole;
    } else {
      ContainsInside([], s[1..], after, part);
      assert whole[1..] == [] + s[1..] + after;
    }
  }

  lemma LowerInside(before: string, s: string, after: string)
    ensures ToLower(before + s + after) == ToLower(before) + ToLower(s) + ToLower(after)
  {
  }

  /** Wrapping a connectivity error, with text around it and causes of its own, does not hide it; only a
      cancellation or a preparation failure does. */
  lemma WrappingKeepsOutage(e: GoError, before: string, after: string, causes: set<Cause>)
    requires IsConnectivity(e)
    ensures IsConnectivity(GoError(e.causes + causes, before + e.message + after)) <==>
              Canceled !in causes && PreparationError !in causes
  {
    var wrapped := GoError(e.causes + causes, before + e.message + after);
    if i :| 0 <= i < |MARKERS| && Contains(ToLower(e.message), MARKERS[i]) {
      LowerInside(before, e.message, after);
      ContainsInside(ToLower(before), ToLower(e.message), ToLower(after), MARKERS[i]);
      assert Contains(ToLower(wrapped.message), MARKERS[i]);
    }
  }
}
