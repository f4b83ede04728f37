/**
 * A reference definition of "the first condition that holds wins": the shape of the
 * hook's `if / else if / else` chains for the draw reason and the display message.
 */
module Priority {

  /** A guarded alternative: `value` is chosen if `fires` holds and no earlier rule fired. */
  datatype Rule<T> = Rule(fires: bool, value: T)

  /** The value of the first rule that fires, or `fallback` when none does. */
  function FirstApplicable<T>(rules: seq<Rule<T>>, fallback: T): T
  {
    if rules == [] then fallback
    else if rules[0].fires then rules[0].value
    else FirstApplicable(rules[1..], fallback)
  }

  /** The rule chosen is the least-indexed one that fires. */
  lemma {:induction false} FirstApplicableAt<T>(rules: seq<Rule<T>>, fallback: T, i: nat)
    requires i < |rules| && rules[i].fires
    requires forall j :: 0 <= j < i ==> !rules[j].fires
    ensures FirstApplicable(rules, fallback) == rules[i].value
  {
    if i > 0 {
      assert !rules[0].fires;
      forall j | 0 <= j < i - 1
        ensures !rules[1..][j].fires
      {
        assert rules[1..][j] == rules[j + 1];
      }
      FirstApplicableAt(rules[1..], fallback, i - 1);
    }
  }

  /** When no rule fires the fallback is chosen. */
  lemma {:induction false} FirstApplicableNone<T>(rules: seq<Rule<T>>, fallback: T)
    requires forall j :: 0 <= j < |rules| ==> !rules[j].fires
    ensures FirstApplicable(rules, fallback) == fallback
  {
    if rules != [] {
      assert !rules[0].fires;
      forall j | 0 <= j < |rules| - 1
        ensures !rules[1..][j].fires
      {
        assert rules[1..][j] == rules[j + 1];
      }
      FirstApplicableNone(rules[1..], fallback);
    }
  }
}
