/** The fitness log page: a list of exercise entries with a guarded add and a
    delete by id, the draft the form edits, and a stopwatch shown as `mm:ss`. */
module Fitness {
  import opened Wrappers

  /** One logged exercise. `duration` and `calories` hold what `parseInt`
      returned for the draft's text; `None` is the `NaN` the page stores unchecked. */
  datatype Exercise = Exercise(id: int, kind: string, duration: Option<int>, calories: Option<int>, date: string)

  /** The manual-entry form: the selected type and the two number fields as text. */
  datatype Draft = Draft(kind: string, duration: string, calories: string)

  const Running: string := "跑步"
  const Strength: string := "力量训练"
  /** The values of the type selector, in the order it lists them. */
  const Kinds: seq<string> := [Running, Strength, "瑜伽", "HIIT", "游泳"]
  const Today: string := "Today"
  const EmptyDraft: Draft := Draft(Running, "", "")

  /** The two entries the page starts with. */
  const MockExercises: seq<Exercise> := [
    Exercise(1, Running, Some(30), Some(300), Today),
    Exercise(2, Strength, Some(45), Some(220), Today)
  ]

  // ---------------------------------------------------------------------------
  // The list operations

  /** The entry that a successful add appends. */
  function NewEntry(id: int, draft: Draft, parseInt: string -> Option<int>): Exercise
  {
    Exercise(id, draft.kind, parseInt(draft.duration), parseInt(draft.calories), Today)
  }

  /** The add guard: both number fields must be non-empty text. */
  predicate CanAdd(draft: Draft) {
    draft.duration != "" && draft.calories != ""
  }

  /** `list.filter(e => e.id !== id)`. */
  function WithoutId(list: seq<Exercise>, id: int): (r: seq<Exercise>)
    ensures |r| <= |list|
    ensures forall e :: e in r <==> e in list && e.id != id
  {
    if list == [] then []
    else if list[0].id == id then WithoutId(list[1..], id)
    else [list[0]] + WithoutId(list[1..], id)
  }

  /** `sub` is `s` with some entries dropped and the rest in their order. */
  ghost predicate SubsequenceOf<T>(sub: seq<T>, s: seq<T>)
    decreases |s|
  {
    if sub == [] then true
    else if s == [] then false
    else if sub[0] == s[0] then SubsequenceOf(sub[1..], s[1..])
    else SubsequenceOf(sub, s[1..])
  }

  /** The number of entries of `list` that carry `id`. */
  function CountId(list: seq<Exercise>, id: int): nat {
    if list == [] then 0 else (if list[0].id == id then 1 else 0) + CountId(list[1..], id)
  }

  /** Delete keeps the surviving entries in their order. */
  lemma {:induction false} WithoutIdKeepsOrder(list: seq<Exercise>, id: int)
    ensures SubsequenceOf(WithoutId(list, id), list)
  {
    if list != [] {
      WithoutIdKeepsOrder(list[1..], id);
      if list[0].id != id {
        var rest := WithoutId(list[1..], id);
        assert ([list[0]] + rest)[1..] == rest;
      } else {
        SubsequenceDropHead(WithoutId(list[1..], id), list);
      }
    }
  }

  lemma {:induction false} SubsequenceDropHead<T>(sub: seq<T>, s: seq<T>)
    requires s != [] && SubsequenceOf(sub, s[1..])
    ensures SubsequenceOf(sub, s)
    decreases |s|, 0
  {
    if sub != [] && sub[0] == s[0] {
      // `sub` matched inside s[1..], so its tail matches inside s[2..] or later
      SubsequenceTail(sub, s[1..]);
    }
  }

  lemma {:induction false} SubsequenceTail<T>(sub: seq<T>, s: seq<T>)
    requires sub != [] && SubsequenceOf(sub, s)
    ensures SubsequenceOf(sub[1..], s)
    decreases |s|, 1
  {
    if sub[0] != s[0] {
      SubsequenceTail(sub, s[1..]);
    }
    SubsequenceDropHead(sub[1..], s);
  }

  /** Delete drops exactly the entries carrying `id`, every copy of every other entry stays. */
  lemma {:induction false} WithoutIdCounts(list: seq<Exercise>, id: int)
    ensures |WithoutId(list, id)| == |list| - CountId(list, id)
    ensures forall e :: multiset(WithoutId(list, id))[e] == if e.id == id then 0 else multiset(list)[e]
  {
    if list != [] {
      WithoutIdCounts(list[1..], id);
      assert list == [list[0]] + list[1..];
    }
  }

  /** Deleting an id that no entry carries leaves the list as it was. */
  lemma {:induction false} WithoutAbsentId(list: seq<Exercise>, id: int)
    requires forall e :: e in list ==> e.id != id
    ensures WithoutId(list, id) == list
  {
    if list != [] {
      WithoutAbsentId(list[1..], id);
      assert list == [list[0]] + list[1..];
    }
  }

  /** Deleting twice is deleting once. */
  lemma WithoutIdIdempotent(list: seq<Exercise>, id: int)
    ensures WithoutId(WithoutId(list, id), id) == WithoutId(list, id)
  {
    WithoutAbsentId(WithoutId(list, id), id);
  }

  /** Delete works entry by entry, so it distributes over concatenation. */
  lemma {:induction false} WithoutIdConcat(a: seq<Exercise>, b: seq<Exercise>, id: int)
    ensures WithoutId(a + b, id) == WithoutId(a, id) + WithoutId(b, id)
  {
    if a == [] {
      assert a + b == b;
    } else {
      assert (a + b)[1..] == a[1..] + b;
      WithoutIdConcat(a[1..], b, id);
    }
  }

  /** Deleting the id of a freshly appended entry whose id was not in use undoes the add. */
  lemma DeleteUndoesAdd(list: seq<Exercise>, e: Exercise)
    requires forall x :: x in list ==> x.id != e.id
    ensures WithoutId(list + [e], e.id) == list
  {
    WithoutIdConcat(list, [e], e.id);
    WithoutAbsentId(list, e.id);
    assert WithoutId([e], e.id) == [];
  }

  // ---------------------------------------------------------------------------
  // Decimal text: `Number.prototype.toString` on a non-negative integer and `padStart`

  predicate IsDigit(c: char) { '0' <= c <= '9' }

  predicate IsDigits(s: string) { forall i :: 0 <= i < |s| ==> IsDigit(s[i]) }

  function DigitChar(d: nat): (c: char)
    requires d < 10
    ensures IsDigit(c) && c as int - '0' as int == d
  {
    ('0' as int + d) as char
  }

  /** `n.toString()` for `n` below 10^21: the shortest decimal digits of `n`. */
  function NatToString(n: nat): string
    decreases n
  {
    if n < 10 then [DigitChar(n)] else NatToString(n / 10) + [DigitChar(n % 10)]
  }

  /** The number a string of decimal digits denotes (leading zeros allowed). */
  function DigitsValue(s: string): nat
    requires IsDigits(s)
    decreases |s|
  {
    if s == [] then 0 else DigitsValue(s[..|s| - 1]) * 10 + (s[|s| - 1] as int - '0' as int)
  }

  /** `toString` writes digits that read back as `n`, with no superfluous leading zero. */
  lemma {:induction false} NatToStringValue(n: nat)
    ensures |NatToString(n)| >= 1 && IsDigits(NatToString(n))
    ensures DigitsValue(NatToString(n)) == n
    ensures |NatToString(n)| > 1 ==> NatToString(n)[0] != '0'
    ensures n < 10 <==> |NatToString(n)| == 1
    ensures 10 <= n < 100 <==> |NatToString(n)| == 2
    decreases n
  {
    if n >= 10 {
      NatToStringValue(n / 10);
      var s := NatToString(n);
      assert s[..|s| - 1] == NatToString(n / 10);
    }
  }

  /** `n` copies of `c`. */
  function Fill(c: char, n: nat): (r: string)
    ensures |r| == n && forall i :: 0 <= i < n ==> r[i] == c
  {
    if n == 0 then [] else [c] + Fill(c, n - 1)
  }

  /** `s.padStart(width, pad)` for a one-character pad. */
  function PadStart(s: string, width: nat, pad: char): (r: string)
    ensures |r| == if |s| >= width then |s| else width
    ensures r[|r| - |s|..] == s
    ensures forall i :: 0 <= i < |r| - |s| ==> r[i] == pad
  {
    if |s| >= width then s else Fill(pad, width - |s|) + s
  }

  /** A leading zero does not change the value of a digit string. */
  lemma {:induction false} LeadingZeroValue(s: string)
    requires IsDigits(s)
    ensures IsDigits("0" + s) && DigitsValue("0" + s) == DigitsValue(s)
    decreases |s|
  {
    if s != [] {
      LeadingZeroValue(s[..|s| - 1]);
      assert ("0" + s)[..|s|] == "0" + s[..|s| - 1];
    }
  }

  /** Any number of leading zeros does not change the value of a digit string. */
  lemma {:induction false} LeadingZerosValue(k: nat, s: string)
    requires IsDigits(s)
    ensures IsDigits(Fill('0', k) + s) && DigitsValue(Fill('0', k) + s) == DigitsValue(s)
    decreases k
  {
    if k > 0 {
      LeadingZerosValue(k - 1, s);
      LeadingZeroValue(Fill('0', k - 1) + s);
      assert Fill('0', k) + s == "0" + (Fill('0', k - 1) + s);
    } else {
      assert Fill('0', k) + s == s;
    }
  }

  /** Zero padding keeps a digit string's value. */
  lemma PadZerosValue(s: string, width: nat)
    requires IsDigits(s)
    ensures IsDigits(PadStart(s, width, '0')) && DigitsValue(PadStart(s, width, '0')) == DigitsValue(s)
  {
    if |s| < width {
      LeadingZerosValue(width - |s|, s);
    }
  }

  // ---------------------------------------------------------------------------
  // The stopwatch display

  /** The `mm:ss` text shown for `t` elapsed seconds. */
  function FormatTimer(t: nat): string {
    PadStart(NatToString(t / 60), 2, '0') + ":" + PadStart(NatToString(t % 60), 2, '0')
  }

  /** The display has a minutes field of digits, a colon, and a seconds field of exactly two digits. */
  predicate IsClockText(s: string) {
    |s| >= 5 && s[|s| - 3] == ':' && IsDigits(s[..|s| - 3]) && IsDigits(s[|s| - 2..])
  }

  function ClockMinutes(s: string): nat requires IsClockText(s) { DigitsValue(s[..|s| - 3]) }

  function ClockSeconds(s: string): nat requires IsClockText(s) { DigitsValue(s[|s| - 2..]) }

  /** The elapsed seconds a clock display reads as. */
  function ReadClock(s: string): nat requires IsClockText(s) { ClockMinutes(s) * 60 + ClockSeconds(s) }

  /** One field of the display: `n` written in at least two digits. */
  lemma {:induction false} PaddedField(n: nat)
    ensures IsDigits(PadStart(NatToString(n), 2, '0'))
    ensures DigitsValue(PadStart(NatToString(n), 2, '0')) == n
    ensures |PadStart(NatToString(n), 2, '0')| >= 2
    ensures n < 100 ==> |PadStart(NatToString(n), 2, '0')| == 2
  {
    NatToStringValue(n);
    PadZerosValue(NatToString(n), 2);
  }

  /** Joining two fields with a colon gives clock text that reads back field by field. */
  lemma JoinedClock(m: string, s: string)
    requires IsDigits(m) && |m| >= 2 && IsDigits(s) && |s| == 2
    ensures IsClockText(m + ":" + s)
    ensures ClockMinutes(m + ":" + s) == DigitsValue(m) && ClockSeconds(m + ":" + s) == DigitsValue(s)
  {
    var r := m + ":" + s;
    assert r[..|r| - 3] == m;
    assert r[|r| - 2..] == s;
  }

  /** Clock text joined from a minutes field worth `a` and a seconds field worth `b` reads back as `a * 60 + b`. */
  lemma ClockReads(r: string, m: string, s: string, a: nat, b: nat)
    requires r == m + ":" + s
    requires IsDigits(m) && |m| >= 2 && DigitsValue(m) == a
    requires IsDigits(s) && |s| == 2 && DigitsValue(s) == b
    ensures IsClockText(r) && ClockMinutes(r) == a && ClockSeconds(r) == b
    ensures ReadClock(r) == a * 60 + b && |r| == |m| + 3
  {
    JoinedClock(m, s);
  }

  /** The display of `t` shows `t / 60` minutes and `t % 60` seconds in two digits, and it reads back as `t`. */
  lemma TimerDisplay(t: nat)
    ensures IsClockText(FormatTimer(t))
    ensures ClockMinutes(FormatTimer(t)) == t / 60
    ensures ClockSeconds(FormatTimer(t)) == t % 60 < 60
    ensures ReadClock(FormatTimer(t)) == t
    ensures t < 6000 ==> |FormatTimer(t)| == 5
  {
    var m := PadStart(NatToString(t / 60), 2, '0');
    var s := PadStart(NatToString(t % 60), 2, '0');
    PaddedField(t / 60);
    PaddedField(t % 60);
    ClockReads(FormatTimer(t), m, s, t / 60, t % 60);
  }

  /** The list heading: the number in it is the current number of entries. */
  function CountHeading(n: nat): string {
    "今日运动 (" + NatToString(n) + ")"
  }

  lemma CountHeadingShowsCount(n: nat)
    ensures var h := CountHeading(n);
      |h| >= 8 && h[..6] == "今日运动 (" && h[|h| - 1] == ')' &&
      IsDigits(h[6..|h| - 1]) && DigitsValue(h[6..|h| - 1]) == n
  {
    NatToStringValue(n);
    var h := CountHeading(n);
    assert h[6..|h| - 1] == NatToString(n);
  }

  // ---------------------------------------------------------------------------
  // The page state

  class FitnessPage {
    var exercises: seq<Exercise>
    var draft: Draft
    var isTimerRunning: bool
    var timer: nat

    /** The page invariant: every entry was logged today with one of the selector's types, and the
        draft's type is one of them. The constructor establishes it, every handler keeps it, and
        `AddExercise` states its consequence for the list outright. */
    ghost predicate Valid()
      reads this
    {
      draft.kind in Kinds && forall e :: e in exercises ==> e.kind in Kinds && e.date == Today
    }

    constructor ()
      ensures Valid()
      ensures exercises == MockExercises && draft == EmptyDraft
      ensures !isTimerRunning && timer == 0
    {
      exercises := MockExercises;
      draft := EmptyDraft;
      isTimerRunning := false;
      timer := 0;
    }

    /** The list heading as rendered: the number in it reads back as the number of entries. */
    function Heading(): (h: string)
      reads this
      ensures |h| >= 8 && h[..6] == "今日运动 (" && h[|h| - 1] == ')'
      ensures IsDigits(h[6..|h| - 1]) && DigitsValue(h[6..|h| - 1]) == |exercises|
    {
      CountHeadingShowsCount(|exercises|);
      CountHeading(|exercises|)
    }

    /** The add button: with both number fields filled, append the new entry
        (its id is the clock reading the page uses) and reset the draft. */
    method AddExercise(id: int, parseInt: string -> Option<int>)
      requires Valid()
      modifies this
      ensures Valid()
      ensures forall e :: e in exercises ==> e.kind in Kinds && e.date == Today
      ensures !CanAdd(old(draft)) ==> exercises == old(exercises) && draft == old(draft)
      ensures CanAdd(old(draft)) ==>
        exercises == old(exercises) + [NewEntry(id, old(draft), parseInt)] && draft == EmptyDraft
      ensures CanAdd(old(draft)) ==>
        var e := exercises[|old(exercises)|];
        |exercises| == |old(exercises)| + 1 &&
        e.id == id && e.kind == old(draft).kind && e.date == Today &&
        e.duration == parseInt(old(draft).duration) && e.calories == parseInt(old(draft).calories)
      ensures isTimerRunning == old(isTimerRunning) && timer == old(timer)
    {
      if draft.duration == "" || draft.calories == "" {
        return;
      }
      exercises := exercises + [NewEntry(id, draft, parseInt)];
      draft := EmptyDraft;
    }

    /** The trash button of the entry carrying `id`. */
    method Delete(id: int)
      requires Valid()
      modifies this
      ensures Valid()
      ensures exercises == WithoutId(old(exercises), id)
      ensures draft == old(draft) && isTimerRunning == old(isTimerRunning) && timer == old(timer)
    {
      exercises := WithoutId(exercises, id);
    }

    /** The type selector. */
    method SelectKind(kind: string)
      requires Valid() && kind in Kinds
      modifies this
      ensures Valid()
      ensures draft == old(draft).(kind := kind)
      ensures exercises == old(exercises) && isTimerRunning == old(isTimerRunning) && timer == old(timer)
    {
      draft := draft.(kind := kind);
    }

    /** The duration field. */
    method EditDuration(text: string)
      requires Valid()
      modifies this
      ensures Valid()
      ensures draft == old(draft).(duration := text)
      ensures exercises == old(exercises) && isTimerRunning == old(isTimerRunning) && timer == old(timer)
    {
      draft := draft.(duration := text);
    }

    /** The calories field. */
    method EditCalories(text: string)
      requires Valid()
      modifies this
      ensures Valid()
      ensures draft == old(draft).(calories := text)
      ensures exercises == old(exercises) && isTimerRunning == old(isTimerRunning) && timer == old(timer)
    {
      draft := draft.(calories := text);
    }

    /** The play/pause button flips the running flag and leaves the seconds alone. */
    method TogglePlay()
      modifies this
      ensures isTimerRunning == !old(isTimerRunning) && timer == old(timer)
      ensures exercises == old(exercises) && draft == old(draft)
    {
      isTimerRunning := !isTimerRunning;
    }

    /** The stop button halts and zeroes the stopwatch. */
    method Reset()
      modifies this
      ensures !isTimerRunning && timer == 0
      ensures exercises == old(exercises) && draft == old(draft)
    {
      isTimerRunning := false;
      timer := 0;
    }
  }

  /** Filling in the form, adding with an id not in use and deleting that id again gives back the starting list. */
  method AddThenDelete(id: int, duration: string, calories: string, parseInt: string -> Option<int>)
    returns (before: seq<Exercise>, added: seq<Exercise>, after: seq<Exercise>)
    requires id != 1 && id != 2 && duration != "" && calories != ""
    ensures |added| == |before| + 1 && added[|before|].id == id && added[|before|].date == Today
    ensures after == before == MockExercises
  {
    var page := new FitnessPage();
    page.EditDuration(duration);
    page.EditCalories(calories);
    before := page.exercises;
    page.AddExercise(id, parseInt);
    added := page.exercises;
    DeleteUndoesAdd(before, NewEntry(id, Draft(Running, duration, calories), parseInt));
    page.Delete(id);
    after := page.exercises;
  }
}
