/** `find_best_match`: the fuzzy match of the user's question against the known topics.
    The similarity scoring of `difflib.get_close_matches` (with n=1 and cutoff 0.6) is an
    oracle: a function from the question and the candidates to the list of close matches. */
module Matching {
  import opened Wrappers

  /** The library call `get_close_matches(question, candidates, n=1, cutoff=0.6)`. */
  type CloseMatches = (string, seq<string>) -> seq<string>

  /** What the library guarantees and the chat loop relies on: every close match it
      reports is one of the candidates it was given. */
  ghost predicate SoundMatcher(closeMatches: CloseMatches)
  {
    forall question, candidates, m :: m in closeMatches(question, candidates) ==> m in candidates
  }

  /** `matches[0] if matches else None`. */
  function FindBestMatch(question: string, candidates: seq<string>, closeMatches: CloseMatches)
    : (r: Option<string>)
    ensures r.None? <==> closeMatches(question, candidates) == []
    ensures r.Some? ==> r.value == closeMatches(question, candidates)[0]
    ensures SoundMatcher(closeMatches) && r.Some? ==> r.value in candidates
  {
    var matches := closeMatches(question, candidates);
    if matches != [] then
      assert matches[0] in matches;
      Some(matches[0])
    else
      None
  }
}
