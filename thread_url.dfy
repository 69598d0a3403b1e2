/**
 * The thread-id extraction both content-side files perform:
 * `location.pathname.match(/\/t\/(\d+)/)`, whose first group is the thread id.
 * A regular-expression search reports the leftmost position where the whole
 * pattern matches, and `\d+` there is greedy.
 */
module ThreadUrl {
  import opened Wrappers
  import opened Text

  /** The pattern `/t/\d+` matches at position `i`: "/t/" followed by at least one digit. */
  predicate MatchesAt(path: string, i: int) {
    0 <= i && i + 4 <= |path| && path[i..i + 3] == "/t/" && IsDigit(path[i + 3])
  }

  /** Position `i` is the leftmost match. */
  predicate IsLeftmostMatch(path: string, i: int) {
    MatchesAt(path, i) && forall j :: 0 <= j < i ==> !MatchesAt(path, j)
  }

  /** The search, trying start positions from `from` onwards. */
  function SearchFrom(path: string, from: nat): Option<string>
    decreases |path| - from
  {
    if from + 4 > |path| then None
    else if MatchesAt(path, from) then Some(DigitPrefix(path[from + 3..]))
    else SearchFrom(path, from + 1)
  }

  /**
   * The capture group of the leftmost match, or null (None) when the pattern
   * does not occur. A thread id is a non-empty run of ASCII digits.
   */
  function ThreadIdFromPath(path: string): (r: Option<string>)
    ensures r.Some? ==> r.value != [] && AllDigits(r.value)
  {
    SearchFromFacts(path, 0);
    SearchFrom(path, 0)
  }

  lemma {:induction false} SearchFromFacts(path: string, from: nat)
    ensures SearchFrom(path, from).Some? ==> SearchFrom(path, from).value != [] && AllDigits(SearchFrom(path, from).value)
    decreases |path| - from
  {
    if from + 4 <= |path| && !MatchesAt(path, from) {
      SearchFromFacts(path, from + 1);
    }
  }

  /** The search from `from` fails exactly when no match starts at or after `from`. */
  lemma {:induction false} SearchFromNone(path: string, from: nat)
    ensures SearchFrom(path, from).None? <==> forall j :: from <= j ==> !MatchesAt(path, j)
    decreases |path| - from
  {
    if from + 4 > |path| {
      assert forall j :: from <= j ==> !MatchesAt(path, j);
    } else if !MatchesAt(path, from) {
      SearchFromNone(path, from + 1);
    }
  }

  /** When `i` is the first match at or after `from`, the search reports the digits after it. */
  lemma {:induction false} SearchFromFinds(path: string, from: nat, i: int)
    requires from <= i && MatchesAt(path, i)
    requires forall j :: from <= j < i ==> !MatchesAt(path, j)
    ensures SearchFrom(path, from) == Some(DigitPrefix(path[i + 3..]))
    decreases |path| - from
  {
    if from < i {
      assert !MatchesAt(path, from);
      SearchFromFinds(path, from + 1, i);
    }
  }

  /**
   * The id is found exactly when the pattern occurs, and it is then the maximal
   * digit run that follows the leftmost "/t/" having a digit after it.
   */
  lemma ThreadIdIsLeftmostDigitRun(path: string)
    ensures ThreadIdFromPath(path).None? <==> forall i :: !MatchesAt(path, i)
    ensures forall i :: IsLeftmostMatch(path, i) ==> ThreadIdFromPath(path) == Some(DigitPrefix(path[i + 3..]))
  {
    SearchFromNone(path, 0);
    forall i | IsLeftmostMatch(path, i)
      ensures ThreadIdFromPath(path) == Some(DigitPrefix(path[i + 3..]))
    {
      SearchFromFinds(path, 0, i);
    }
  }
}
