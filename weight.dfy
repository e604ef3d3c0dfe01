/** The weight page: the current weight, its history, the text field, and the
    goal-progress bar and remaining-to-goal figure derived from the current weight. */
module Weight {
  import opened Wrappers

  /** One point of the trend chart. */
  datatype Entry = Entry(day: string, weight: real)

  const StartWeight: real := 72.0
  const GoalWeight: real := 65.0
  const InitialWeight: real := 69.2
  const Today: string := "Today"

  /** The week of sample points the page starts with; the last one is the initial current weight. */
  const MockHistory: seq<Entry> := [
    Entry("Mon", 70.5), Entry("Tue", 70.2), Entry("Wed", 69.8), Entry("Thu", 69.9),
    Entry("Fri", 69.5), Entry("Sat", 69.4), Entry("Sun", 69.2)
  ]

  // ---------------------------------------------------------------------------
  // Derived figures

  /** The share of the way from the start weight to the goal covered so far, in percent (unclamped). */
  function Progress(current: real): real {
    (StartWeight - current) / (StartWeight - GoalWeight) * 100.0
  }

  /** The weight at which the bar would show `p` percent: the inverse of `Progress`. */
  function WeightAtProgress(p: real): real {
    StartWeight - p / 100.0 * (StartWeight - GoalWeight)
  }

  lemma ProgressRoundTrip(current: real, p: real)
    ensures WeightAtProgress(Progress(current)) == current
    ensures Progress(WeightAtProgress(p)) == p
  {
  }

  /** Progress is 0 at the start weight, 100 at the goal, 50 half way, and falls as the weight rises. */
  lemma ProgressLandmarks(c1: real, c2: real)
    ensures Progress(StartWeight) == 0.0 && Progress(GoalWeight) == 100.0 && Progress(68.5) == 50.0
    ensures c1 < c2 <==> Progress(c1) > Progress(c2)
  {
  }

  /** `Math.min(100, Math.max(0, progress))`: the bar width in percent. */
  function ProgressWidth(current: real): (w: real)
    ensures 0.0 <= w <= 100.0
    ensures 0.0 <= Progress(current) <= 100.0 ==> w == Progress(current)
    ensures w == 0.0 <==> current >= StartWeight
    ensures w == 100.0 <==> current <= GoalWeight
  {
    var p := Progress(current);
    var lower := if 0.0 > p then 0.0 else p;
    if 100.0 < lower then 100.0 else lower
  }

  /** A lighter weight never shows a shorter bar. */
  lemma ProgressWidthMonotone(c1: real, c2: real)
    requires c1 <= c2
    ensures ProgressWidth(c1) >= ProgressWidth(c2)
  {
  }

  /** `currentWeight - goalWeight`: signed, so below the goal it is negative. */
  function Remaining(current: real): (d: real)
    ensures d < 0.0 <==> current < GoalWeight
    ensures d == 0.0 <==> Progress(current) == 100.0
    ensures d == (100.0 - Progress(current)) / 100.0 * (StartWeight - GoalWeight)
  {
    current - GoalWeight
  }

  // ---------------------------------------------------------------------------
  // The page state

  class WeightPage {
    var currentWeight: real
    var inputWeight: string
    var history: seq<Entry>

    /** The current weight is the last point of the chart. */
    ghost predicate Valid()
      reads this
    {
      |history| > 0 && history[|history| - 1].weight == currentWeight
    }

    constructor ()
      ensures Valid()
      ensures currentWeight == InitialWeight && inputWeight == "" && history == MockHistory
    {
      currentWeight := InitialWeight;
      inputWeight := "";
      history := MockHistory;
    }

    /** The input field. */
    method EditInput(text: string)
      modifies this
      ensures inputWeight == text
      ensures currentWeight == old(currentWeight) && history == old(history)
    {
      inputWeight := text;
    }

    /** The add button: reject empty text or text `parseFloat` makes `NaN` of
        (`None`), otherwise record the parsed weight and clear the field. */
    method AddWeight(parseFloat: string -> Option<real>)
      modifies this
      ensures old(inputWeight) == "" || parseFloat(old(inputWeight)).None? ==>
        currentWeight == old(currentWeight) && history == old(history) && inputWeight == old(inputWeight)
      ensures old(inputWeight) != "" && parseFloat(old(inputWeight)).Some? ==>
        var w := parseFloat(old(inputWeight)).value;
        currentWeight == w && history == old(history) + [Entry(Today, w)] && inputWeight == "" && Valid()
      ensures old(Valid()) ==> Valid()
    {
      if inputWeight == "" {
        return;
      }
      var parsed := parseFloat(inputWeight);
      if parsed.None? {
        return;
      }
      currentWeight := parsed.value;
      history := history + [Entry(Today, parsed.value)];
      inputWeight := "";
    }

    /** The bar width shown for the current weight. */
    function Width(): (w: real)
      reads this
      ensures 0.0 <= w <= 100.0
    {
      ProgressWidth(currentWeight)
    }
  }

  /** Typing text that does not parse and pressing add leaves the chart and the current weight as they were. */
  method SubmitUnparsable(text: string, parseFloat: string -> Option<real>) returns (shown: real, chart: seq<Entry>)
    requires parseFloat(text).None?
    ensures shown == InitialWeight && chart == MockHistory
  {
    var page := new WeightPage();
    page.EditInput(text);
    page.AddWeight(parseFloat);
    shown, chart := page.currentWeight, page.history;
  }

  /** The page opens at 40 percent of the way from 72 kg to 65 kg, 4.2 kg above the goal. */
  lemma InitialFigures()
    ensures Progress(InitialWeight) == 40.0 && ProgressWidth(InitialWeight) == 40.0
    ensures Remaining(InitialWeight) == 4.2
    ensures MockHistory[|MockHistory| - 1].weight == InitialWeight
  {
  }
}
