/** Job-card predicates shared by the dashboard and the department history:
    status tests, the department filter, the submission date and its calendar
    windows, and the rounded percentage. */
module JobCards {
  import opened JsValues
  import opened Lists

  /** `card.status === status` */
  predicate HasStatus(card: Record, status: string)
  {
    Get(card, "status") == Str(status)
  }

  predicate IsPending(card: Record)   { HasStatus(card, "pending") }
  predicate IsAssigned(card: Record)  { HasStatus(card, "assigned") }
  predicate IsApproved(card: Record)  { HasStatus(card, "approved") }
  predicate IsProcessed(card: Record) { HasStatus(card, "processed") }

  /** "closed" and "completed" both mean finished work. */
  predicate IsClosed(card: Record)
  {
    HasStatus(card, "closed") || HasStatus(card, "completed")
  }

  /** What the department views count as completed: approved, closed or completed. */
  predicate IsDone(card: Record)
  {
    IsApproved(card) || IsClosed(card)
  }

  /** `cards.filter(card => card.department === dept)`: the cards of `dept`,
      each as often as it occurs, in list order (the last card comes last
      when it belongs to `dept`). */
  function OfDepartment(cards: seq<Record>, dept: Value): (r: seq<Record>)
    ensures |r| <= |cards|
    ensures forall c :: c in r <==> c in cards && Get(c, "department") == dept
    ensures forall c :: multiset(r)[c] == if Get(c, "department") == dept then multiset(cards)[c] else 0
    ensures forall i :: 0 <= i < |r| ==> Get(r[i], "department") == dept
    ensures cards == [] ==> r == []
  {
    Filter(cards, c => Get(c, "department") == dept)
  }

  /** The department filter works card by card in list order: a card appended
      to the list is appended to the result exactly when it is of `dept`. */
  lemma OfDepartmentSnoc(cards: seq<Record>, card: Record, dept: Value)
    ensures OfDepartment(cards + [card], dept)
            == OfDepartment(cards, dept) + if Get(card, "department") == dept then [card] else []
  {
    FilterSnoc(cards + [card], c => Get(c, "department") == dept);
    assert (cards + [card])[..|cards|] == cards;
  }

  /** A card carries the given id (`req.id === id`). */
  predicate HasId(card: Record, id: Value)
  {
    Get(card, "id") == id
  }

  /** `list.filter(req => req.id !== id)`: every entry with the id is dropped,
      every other entry is kept as often as it occurs. */
  function WithoutId(list: seq<Record>, id: Value): (r: seq<Record>)
    ensures forall c :: multiset(r)[c] == if HasId(c, id) then 0 else multiset(list)[c]
    ensures forall i :: 0 <= i < |r| ==> !HasId(r[i], id)
    ensures |r| + Count(list, c => HasId(c, id)) == |list|
    ensures list == [] ==> r == []
  {
    CountComplement(list, c => HasId(c, id), c => !HasId(c, id));
    Filter(list, c => !HasId(c, id))
  }

  /** Removal works entry by entry in list order: an appended entry stays,
      last, exactly when it does not carry the id. */
  lemma WithoutIdSnoc(list: seq<Record>, card: Record, id: Value)
    ensures WithoutId(list + [card], id) == WithoutId(list, id) + if HasId(card, id) then [] else [card]
  {
    FilterSnoc(list + [card], c => !HasId(c, id));
    assert (list + [card])[..|list|] == list;
  }

  /** Removing an id that no entry carries leaves the list unchanged. */
  lemma WithoutAbsentId(list: seq<Record>, id: Value)
    requires forall i :: 0 <= i < |list| ==> !HasId(list[i], id)
    ensures WithoutId(list, id) == list
  {
    FilterKeepsAll(list, c => !HasId(c, id));
  }

  // ---------------------------------------------------------------- dates

  const MsPerDay: int := 86_400_000

  /** `new Date(card.dateSubmitted || card.date)` */
  function SubmitMoment(card: Record, cal: Calendar): (m: Option<Moment>)
    ensures Truthy(Get(card, "dateSubmitted")) ==> m == DateOf(Get(card, "dateSubmitted"), cal)
    ensures !Truthy(Get(card, "dateSubmitted")) ==> m == DateOf(Get(card, "date"), cal)
  {
    DateOf(Or(Get(card, "dateSubmitted"), Get(card, "date")), cal)
  }

  /** `startOfWeek.setDate(now.getDate() - now.getDay())`: the same time of day,
      `getDay()` days earlier (so on the Sunday that starts the week). */
  function WeekStart(now: Moment): int
  {
    now.epochMs - now.weekday * MsPerDay
  }

  /** `submitted >= startOfWeek && submitted <= now`; an Invalid Date is in no window. */
  predicate InWeekOf(m: Option<Moment>, now: Moment)
  {
    m.Some? && WeekStart(now) <= m.value.epochMs <= now.epochMs
  }

  predicate SameYear(m: Option<Moment>, now: Moment)
  {
    m.Some? && m.value.year == now.year
  }

  predicate SameMonth(m: Option<Moment>, now: Moment)
  {
    m.Some? && m.value.month == now.month && m.value.year == now.year
  }

  predicate SameDay(m: Option<Moment>, now: Moment)
  {
    SameMonth(m, now) && m.value.day == now.day
  }

  /** Cards whose submission date lies in the current week window
      `[now - getDay() days, now]`. */
  function SubmittedThisWeek(cards: seq<Record>, now: Moment, cal: Calendar): (n: nat)
    ensures n <= |cards|
    ensures cards == [] ==> n == 0
  {
    Count(cards, c => InWeekOf(SubmitMoment(c, cal), now))
  }

  /** An appended card adds 1 to the week count exactly when its submission
      date is in the window. */
  lemma WeekCountSnoc(cards: seq<Record>, card: Record, now: Moment, cal: Calendar)
    ensures SubmittedThisWeek(cards + [card], now, cal)
            == SubmittedThisWeek(cards, now, cal) + if InWeekOf(SubmitMoment(card, cal), now) then 1 else 0
  {
    CountSnoc(cards + [card], c => InWeekOf(SubmitMoment(c, cal), now));
    assert (cards + [card])[..|cards|] == cards;
  }

  /** Cards submitted in the month and year of `now`. */
  function SubmittedThisMonth(cards: seq<Record>, now: Moment, cal: Calendar): (n: nat)
    ensures n <= |cards|
    ensures cards == [] ==> n == 0
  {
    Count(cards, c => SameMonth(SubmitMoment(c, cal), now))
  }

  /** An appended card adds 1 to the month count exactly when it was submitted
      in the month and year of `now`. */
  lemma MonthCountSnoc(cards: seq<Record>, card: Record, now: Moment, cal: Calendar)
    ensures SubmittedThisMonth(cards + [card], now, cal)
            == SubmittedThisMonth(cards, now, cal) + if SameMonth(SubmitMoment(card, cal), now) then 1 else 0
  {
    CountSnoc(cards + [card], c => SameMonth(SubmitMoment(c, cal), now));
    assert (cards + [card])[..|cards|] == cards;
  }

  /** Cards submitted in the year of `now`. */
  function SubmittedThisYear(cards: seq<Record>, now: Moment, cal: Calendar): (n: nat)
    ensures n <= |cards|
    ensures cards == [] ==> n == 0
  {
    Count(cards, c => SameYear(SubmitMoment(c, cal), now))
  }

  /** An appended card adds 1 to the year count exactly when it was submitted
      in the year of `now`. */
  lemma YearCountSnoc(cards: seq<Record>, card: Record, now: Moment, cal: Calendar)
    ensures SubmittedThisYear(cards + [card], now, cal)
            == SubmittedThisYear(cards, now, cal) + if SameYear(SubmitMoment(card, cal), now) then 1 else 0
  {
    CountSnoc(cards + [card], c => SameYear(SubmitMoment(c, cal), now));
    assert (cards + [card])[..|cards|] == cards;
  }

  /** Every card of this month is a card of this year. */
  lemma MonthWithinYear(cards: seq<Record>, now: Moment, cal: Calendar)
    ensures SubmittedThisMonth(cards, now, cal) <= SubmittedThisYear(cards, now, cal)
  {
    CountMonotone(cards, c => SameMonth(SubmitMoment(c, cal), now), c => SameYear(SubmitMoment(c, cal), now));
  }

  /** The week window starts at the current time of day, not at midnight: on a
      Sunday it is the single instant `now`, so a card submitted earlier that
      Sunday is not in "this week". */
  lemma WeekWindowOnSunday(card: Record, now: Moment, cal: Calendar)
    requires now.weekday == 0
    ensures InWeekOf(SubmitMoment(card, cal), now) <==>
              SubmitMoment(card, cal).Some? && SubmitMoment(card, cal).value.epochMs == now.epochMs
  {
  }

  // ---------------------------------------------------------------- percentages

  /** `Math.round((part / whole) * 100)` in exact arithmetic: the integer
      nearest to 100·part/whole, halves rounded up. */
  function RoundPercent(part: nat, whole: nat): (r: int)
    requires whole > 0
    ensures 2 * whole * r <= 200 * part + whole < 2 * whole * r + 2 * whole
    ensures r >= 0
    ensures part <= whole ==> r <= 100
    ensures part == 0 ==> r == 0
    ensures part == whole ==> r == 100
  {
    RoundingFacts(part, whole);
    (200 * part + whole) / (2 * whole)
  }

  lemma RoundingFacts(part: nat, whole: nat)
    requires whole > 0
    ensures var r := (200 * part + whole) / (2 * whole);
      && 2 * whole * r <= 200 * part + whole < 2 * whole * r + 2 * whole
      && r >= 0
      && (part <= whole ==> r <= 100)
      && (part == 0 ==> r == 0)
      && (part == whole ==> r == 100)
  {
    var r := (200 * part + whole) / (2 * whole);
    DivBounds(200 * part + whole, 2 * whole);
    if part <= whole && r > 100 {
      MulMonotone(2 * whole, 101, r);
    }
    if part == whole && r < 100 {
      MulMonotone(2 * whole, r + 1, 100);
    }
    if part == 0 && r > 0 {
      MulMonotone(2 * whole, 1, r);
    }
  }

  lemma DivBounds(a: int, b: int)
    requires a >= 0 && b > 0
    ensures b * (a / b) <= a < b * (a / b) + b
    ensures a / b >= 0
  {
  }

  lemma MulMonotone(k: nat, x: int, y: int)
    requires x <= y
    ensures k * x <= k * y
  {
  }
}
