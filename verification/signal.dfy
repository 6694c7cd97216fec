/**
 * The order decision of `executeOrder`: four independent `if`s over the last
 * two trend entries, each comparing with `===` against a boolean literal.
 * Reading an array outside its bounds gives `undefined`, which equals
 * neither literal, so with fewer than two entries no branch fires. The trades
 * a branch triggers are not modelled; the decision is returned instead.
 */
module Signal {

  datatype Option<T> = None | Some(value: T)

  datatype Decision = Buy | Sell | WaitForUptrend | WaitForDowntrend

  /** Reading index `k` of a JavaScript array: `undefined` (None) outside the array. */
  function Entry(inTrend: seq<bool>, k: int): Option<bool> {
    if 0 <= k < |inTrend| then Some(inTrend[k]) else None
  }

  /** The guard of the branch of `executeOrder` that leads to `d`. */
  predicate Fires(d: Decision, inTrend: seq<bool>) {
    var previous, current := Entry(inTrend, |inTrend| - 2), Entry(inTrend, |inTrend| - 1);
    match d
    case Buy => previous == Some(false) && current == Some(true)
    case Sell => previous == Some(true) && current == Some(false)
    case WaitForUptrend => previous == Some(false) && current == Some(false)
    case WaitForDowntrend => previous == Some(true) && current == Some(true)
  }

  /** The (previous, current) trend pair each decision answers to. */
  function Transition(d: Decision): (bool, bool) {
    match d
    case Buy => (false, true)
    case Sell => (true, false)
    case WaitForUptrend => (false, false)
    case WaitForDowntrend => (true, true)
  }

  /**
   * The decision taken on a trend series: exactly one branch fires when there
   * are two entries or more, and none otherwise.
   */
  function Decide(inTrend: seq<bool>): (r: Option<Decision>)
    ensures r.Some? <==> |inTrend| >= 2
    ensures forall d :: Fires(d, inTrend) <==> r == Some(d)
  {
    if |inTrend| < 2 then None
    else
      var previous, current := inTrend[|inTrend| - 2], inTrend[|inTrend| - 1];
      if current then Some(if previous then WaitForDowntrend else Buy)
      else Some(if previous then Sell else WaitForUptrend)
  }

  /**
   * The decision depends only on the last two entries, and `Transition` is its
   * inverse: the decision is `d` exactly when the last two entries are `Transition(d)`.
   */
  lemma DecisionFromLastTwo(inTrend: seq<bool>, d: Decision)
    requires |inTrend| >= 2
    ensures Decide(inTrend) == Some(d) <==> Transition(d) == (inTrend[|inTrend| - 2], inTrend[|inTrend| - 1])
  {
  }

  /** Two series that end in the same two entries get the same decision. */
  lemma SameEndingSameDecision(s: seq<bool>, t: seq<bool>)
    requires |s| >= 2 && |t| >= 2
    requires s[|s| - 2] == t[|t| - 2] && s[|s| - 1] == t[|t| - 1]
    ensures Decide(s) == Decide(t)
  {
  }
}
