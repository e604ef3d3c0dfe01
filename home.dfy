/** The home page's daily summary: today's calorie intake and burn for the
    signed-in user, summed over the rows the store returns for the current
    local day. */
module Home {
  import opened Wrappers

  /** A `diet_logs` row: owner, `recorded_at` in milliseconds since the epoch, and `calories` (possibly null). */
  datatype DietRow = DietRow(userId: string, recordedAt: int, calories: Option<int>)

  /** A `fitness_logs` row, with `calories_burned` (possibly null). */
  datatype FitnessRow = FitnessRow(userId: string, recordedAt: int, caloriesBurned: Option<int>)

  /** What `getUser` produced: no user, a user id, or an exception. */
  datatype UserLookup = NoUser | SignedIn(id: string) | Threw

  datatype Summary = Summary(intake: int, burned: int)

  const InitialSummary: Summary := Summary(0, 0)

  const DayMs: int := 86_400_000

  // ---------------------------------------------------------------------------
  // The reductions

  /** `item.field || 0`: a missing or null value counts as zero. */
  function ValueOrZero(v: Option<int>): int
  {
    v.GetOr(0)
  }

  /** `rows.reduce((sum, item) => sum + (field(item) || 0), acc)`: a left fold, in the order the rows came. */
  function Reduce<R>(rows: seq<R>, field: R -> Option<int>, acc: int): int
    decreases |rows|
  {
    if rows == [] then acc else Reduce(rows[1..], field, acc + ValueOrZero(field(rows[0])))
  }

  /** The reference sum of a column, missing values as zero. */
  function Sum<R>(rows: seq<R>, field: R -> Option<int>): int
    decreases |rows|
  {
    if rows == [] then 0 else ValueOrZero(field(rows[0])) + Sum(rows[1..], field)
  }

  /** The fold started at `acc` adds the column's sum to `acc`. */
  lemma {:induction false} ReduceIsSum<R>(rows: seq<R>, field: R -> Option<int>, acc: int)
    ensures Reduce(rows, field, acc) == acc + Sum(rows, field)
    decreases |rows|
  {
    if rows != [] {
      ReduceIsSum(rows[1..], field, acc + ValueOrZero(field(rows[0])));
    }
  }

  /** The sum over a concatenation is the sum of the sums. */
  lemma {:induction false} SumConcat<R>(a: seq<R>, b: seq<R>, field: R -> Option<int>)
    ensures Sum(a + b, field) == Sum(a, field) + Sum(b, field)
    decreases |a|
  {
    if a == [] {
      assert a + b == b;
    } else {
      assert (a + b)[1..] == a[1..] + b;
      SumConcat(a[1..], b, field);
    }
  }

  /** A column with no negative value sums to a non-negative total. */
  lemma {:induction false} SumNonNegative<R>(rows: seq<R>, field: R -> Option<int>)
    requires forall r :: r in rows ==> ValueOrZero(field(r)) >= 0
    ensures Sum(rows, field) >= 0
    decreases |rows|
  {
    if rows != [] {
      assert rows[0] in rows;
      SumNonNegative(rows[1..], field);
    }
  }

  /** Taking one row out of the middle takes its value out of the sum. */
  lemma SumWithout<R>(b: seq<R>, j: nat, field: R -> Option<int>)
    requires j < |b|
    ensures Sum(b, field) == ValueOrZero(field(b[j])) + Sum(b[..j] + b[j + 1..], field)
  {
    assert b == (b[..j] + [b[j]]) + b[j + 1..];
    SumConcat(b[..j] + [b[j]], b[j + 1..], field);
    SumConcat(b[..j], [b[j]], field);
    SumConcat(b[..j], b[j + 1..], field);
  }

  /** Dropping the first row of `a` and a matching row of `b` keeps the two multisets equal. */
  lemma PermutationTails<R>(a: seq<R>, b: seq<R>, j: nat)
    requires multiset(a) == multiset(b) && a != [] && j < |b| && b[j] == a[0]
    ensures multiset(a[1..]) == multiset(b[..j] + b[j + 1..])
  {
    assert a == [a[0]] + a[1..];
    assert b == b[..j] + [b[j]] + b[j + 1..];
    assert multiset(a[1..]) == multiset(a) - multiset{a[0]};
    assert multiset(b[..j] + b[j + 1..]) == multiset(b) - multiset{b[j]};
  }

  /** The sum does not depend on the order of the rows. */
  lemma {:induction false} SumPermutation<R>(a: seq<R>, b: seq<R>, field: R -> Option<int>)
    requires multiset(a) == multiset(b)
    ensures Sum(a, field) == Sum(b, field)
    decreases |a|
  {
    if a == [] {
      assert |b| == |multiset(b)| == 0;
    } else {
      assert a[0] in multiset(b);
      var j :| 0 <= j < |b| && b[j] == a[0];
      PermutationTails(a, b, j);
      SumPermutation(a[1..], b[..j] + b[j + 1..], field);
      SumWithout(b, j, field);
    }
  }

  function Calories(r: DietRow): Option<int> { r.calories }

  function CaloriesBurned(r: FitnessRow): Option<int> { r.caloriesBurned }

  /** `dietData?.reduce(...) || 0`: the intake total, zero when the store returned no data. */
  function TotalIntake(data: Option<seq<DietRow>>): (n: int)
    ensures data.None? ==> n == 0
    ensures data.Some? ==> n == Sum(data.value, Calories)
  {
    if data.None? then 0
    else
      ReduceIsSum(data.value, Calories, 0);
      Reduce(data.value, Calories, 0)
  }

  /** The same reduction over `calories_burned`. */
  function TotalBurned(data: Option<seq<FitnessRow>>): (n: int)
    ensures data.None? ==> n == 0
    ensures data.Some? ==> n == Sum(data.value, CaloriesBurned)
  {
    if data.None? then 0
    else
      ReduceIsSum(data.value, CaloriesBurned, 0);
      Reduce(data.value, CaloriesBurned, 0)
  }

  // ---------------------------------------------------------------------------
  // Today's window

  /** `new Date()` with `setHours(0, 0, 0, 0)`: midnight of the local day containing `now`,
      for a local clock `offsetMs` ahead of UTC. */
  function StartOfLocalDay(now: int, offsetMs: int): int {
    now - (now + offsetMs) % DayMs
  }

  /** Midnight is at or before `now`, less than a day before it, and on a local day boundary. */
  lemma StartOfLocalDayBounds(now: int, offsetMs: int)
    ensures StartOfLocalDay(now, offsetMs) <= now < StartOfLocalDay(now, offsetMs) + DayMs
    ensures (StartOfLocalDay(now, offsetMs) + offsetMs) % DayMs == 0
  {
  }

  /** Those two facts pin midnight down: no other instant has both. */
  lemma StartOfLocalDayUnique(now: int, offsetMs: int, s: int)
    requires s <= now < s + DayMs && (s + offsetMs) % DayMs == 0
    ensures s == StartOfLocalDay(now, offsetMs)
  {
    var k := (s + offsetMs) / DayMs;
    assert s + offsetMs == k * DayMs;
    assert now + offsetMs == k * DayMs + (now - s);
    assert (now + offsetMs) % DayMs == now - s;
  }

  function DietOwner(r: DietRow): string { r.userId }
  function DietTime(r: DietRow): int { r.recordedAt }
  function FitnessOwner(r: FitnessRow): string { r.userId }
  function FitnessTime(r: FitnessRow): int { r.recordedAt }

  /** Both queries: `.eq('user_id', uid).gte('recorded_at', start)` over a table, keeping the table's order. */
  function TodayRows<R(!new)>(table: seq<R>, owner: R -> string, at: R -> int, uid: string, start: int): (r: seq<R>)
    ensures forall x :: x in r <==> x in table && owner(x) == uid && at(x) >= start
    decreases |table|
  {
    if table == [] then []
    else
      var rest := TodayRows(table[1..], owner, at, uid, start);
      if owner(table[0]) == uid && at(table[0]) >= start then [table[0]] + rest else rest
  }

  /** One row's share of the user's total for the day starting at `start`. */
  function Share<R>(x: R, owner: R -> string, at: R -> int, field: R -> Option<int>, uid: string, start: int): int {
    if owner(x) == uid && at(x) >= start then ValueOrZero(field(x)) else 0
  }

  /** Adding a row to the table changes the day's total by exactly that row's share:
      nothing for another user's row or one recorded before midnight. */
  lemma {:induction false} TodayRowsAppend<R(!new)>(table: seq<R>, x: R, owner: R -> string, at: R -> int,
                                              field: R -> Option<int>, uid: string, start: int)
    ensures Sum(TodayRows(table + [x], owner, at, uid, start), field)
         == Sum(TodayRows(table, owner, at, uid, start), field) + Share(x, owner, at, field, uid, start)
    decreases |table|
  {
    if table == [] {
      assert table + [x] == [x];
    } else {
      assert (table + [x])[1..] == table[1..] + [x];
      TodayRowsAppend(table[1..], x, owner, at, field, uid, start);
    }
  }

  // ---------------------------------------------------------------------------
  // fetchSummary

  /** The summary after `fetchSummary`: unchanged without a user or after an exception,
      otherwise the two totals over the rows of the current local day. `dietTable` and
      `fitnessTable` are the tables as the store sees them, `None` when a query returns no data. */
  function Summarize(previous: Summary, who: UserLookup, now: int, offsetMs: int,
                     dietTable: Option<seq<DietRow>>, fitnessTable: Option<seq<FitnessRow>>): (r: Summary)
    ensures !who.SignedIn? ==> r == previous
    ensures who.SignedIn? && dietTable.None? ==> r.intake == 0
    ensures who.SignedIn? && fitnessTable.None? ==> r.burned == 0
  {
    match who
    case SignedIn(uid) =>
      var start := StartOfLocalDay(now, offsetMs);
      var dietData := if dietTable.Some? then Some(TodayRows(dietTable.value, DietOwner, DietTime, uid, start)) else None;
      var fitnessData := if fitnessTable.Some? then Some(TodayRows(fitnessTable.value, FitnessOwner, FitnessTime, uid, start)) else None;
      Summary(TotalIntake(dietData), TotalBurned(fitnessData))
    case _ => previous
  }

  /** With a user, the intake is the sum over exactly that user's rows recorded since local midnight. */
  lemma SummarizeCountsToday(previous: Summary, uid: string, now: int, offsetMs: int,
                             diet: seq<DietRow>, fitness: seq<FitnessRow>)
    ensures var r := Summarize(previous, SignedIn(uid), now, offsetMs, Some(diet), Some(fitness));
      var start := StartOfLocalDay(now, offsetMs);
      r.intake == Sum(TodayRows(diet, DietOwner, DietTime, uid, start), Calories) &&
      r.burned == Sum(TodayRows(fitness, FitnessOwner, FitnessTime, uid, start), CaloriesBurned) &&
      (forall x :: x in TodayRows(diet, DietOwner, DietTime, uid, start) ==> x.userId == uid && start <= x.recordedAt) &&
      (forall x :: x in TodayRows(fitness, FitnessOwner, FitnessTime, uid, start) ==> x.userId == uid && start <= x.recordedAt)
  {
  }

  class HomePage {
    var summary: Summary

    constructor ()
      ensures summary == InitialSummary
    {
      summary := InitialSummary;
    }

    /** The page's effect: look up the user, run both queries, and set the summary once at the end. */
    method FetchSummary(who: UserLookup, now: int, offsetMs: int,
                        dietTable: Option<seq<DietRow>>, fitnessTable: Option<seq<FitnessRow>>)
      modifies this
      ensures summary == Summarize(old(summary), who, now, offsetMs, dietTable, fitnessTable)
      ensures !who.SignedIn? ==> summary == old(summary)
    {
      summary := Summarize(summary, who, now, offsetMs, dietTable, fitnessTable);
    }
  }

  /** A page with no user keeps showing zero intake and zero burn. */
  method NoUserKeepsZero(now: int, offsetMs: int,
                          dietTable: Option<seq<DietRow>>, fitnessTable: Option<seq<FitnessRow>>)
    returns (shown: Summary)
    ensures shown == InitialSummary
  {
    var page := new HomePage();
    page.FetchSummary(NoUser, now, offsetMs, dietTable, fitnessTable);
    shown := page.summary;
  }
}
