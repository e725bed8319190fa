/** The statistics the dashboard derives from the fetched job cards, one
    function per figure, for the three role views (user, department head,
    accounts). Every figure is a fold over the same list of cards. */
module Dashboard {
  import opened JsValues
  import opened Lists
  import opened JobCards

  // ------------------------------------------------------------ user view

  /** `inProcessJobs`, which the department-head view also shows as `pendingApprovals`. */
  function PendingCount(cards: seq<Record>): nat { Count(cards, IsPending) }

  /** `assignedJobs` */
  function AssignedCount(cards: seq<Record>): nat { Count(cards, IsAssigned) }

  /** `closedJobs`: status "closed" or "completed". */
  function ClosedCount(cards: seq<Record>): nat { Count(cards, IsClosed) }

  /** The three status cards count disjoint sets of cards, so together they
      never exceed `totalJobs`. */
  lemma {:induction false} StatusCountsWithinTotal(cards: seq<Record>)
    ensures PendingCount(cards) + AssignedCount(cards) + ClosedCount(cards) <= |cards|
  {
    var pendingOrAssigned := (c: Record) => IsPending(c) || IsAssigned(c);
    var any := (c: Record) => pendingOrAssigned(c) || IsClosed(c);
    CountDisjointUnion(cards, IsPending, IsAssigned, pendingOrAssigned);
    CountDisjointUnion(cards, pendingOrAssigned, IsClosed, any);
  }

  /** "Success Rate": `Math.round((assignedJobs / totalJobs) * 100)`. The source
      does not guard the division, so an empty list gives NaN, modelled as `None`. */
  function SuccessRate(cards: seq<Record>): (r: Option<int>)
    ensures r.None? <==> cards == []
    ensures r.Some? ==> 0 <= r.value <= 100
    ensures r.Some? && AssignedCount(cards) == 0 ==> r.value == 0
    ensures r.Some? ==> r.value == RoundPercent(AssignedCount(cards), |cards|)
  {
    if |cards| == 0 then None
    else
      StatusCountsWithinTotal(cards);
      Some(RoundPercent(AssignedCount(cards), |cards|))
  }

  // ------------------------------------------------------------ department-head view

  /** The `department` field of every card, in list order. */
  function Departments(cards: seq<Record>): (ds: seq<Value>)
    ensures |ds| == |cards|
    ensures forall i :: 0 <= i < |cards| ==> ds[i] == Get(cards[i], "department")
  {
    seq(|cards|, i requires 0 <= i < |cards| => Get(cards[i], "department"))
  }

  /** `allDepartments`: `Array.from(new Set(cards.map(c => c.department))).filter(Boolean)`.
      Each truthy department that occurs appears once, and nothing else does. */
  function AllDepartments(cards: seq<Record>): (r: seq<Value>)
    ensures NoDuplicates(r)
    ensures forall v :: v in r <==> Truthy(v) && exists i :: 0 <= i < |cards| && Get(cards[i], "department") == v
  {
    var distinct := Distinct(Departments(cards));
    FilterNoDuplicates(distinct, Truthy);
    Filter(distinct, Truthy)
  }

  /** Whether a pending card passes the department selector; "all" passes everything. */
  predicate PassesSelector(card: Record, selector: Value)
  {
    IsPending(card) && (selector == Str("all") || Get(card, "department") == selector)
  }

  /** `pendingRequests`, the table under the department selector: every pending
      card that passes the selector, as often as it occurs, in list order. */
  function PendingRequests(cards: seq<Record>, selector: Value): (r: seq<Record>)
    ensures |r| <= PendingCount(cards)
    ensures forall i :: 0 <= i < |r| ==> IsPending(r[i])
    ensures selector != Str("all") ==> forall i :: 0 <= i < |r| ==> Get(r[i], "department") == selector
    ensures forall c :: c in r <==> c in cards && PassesSelector(c, selector)
    ensures forall c :: multiset(r)[c] == if PassesSelector(c, selector) then multiset(cards)[c] else 0
    ensures cards == [] ==> r == []
  {
    CountMonotone(cards, c => PassesSelector(c, selector), IsPending);
    Filter(cards, c => PassesSelector(c, selector))
  }

  /** The table is built card by card in list order: an appended card is
      appended to it exactly when it is pending and passes the selector. */
  lemma PendingRequestsSnoc(cards: seq<Record>, card: Record, selector: Value)
    ensures PendingRequests(cards + [card], selector)
            == PendingRequests(cards, selector) + if PassesSelector(card, selector) then [card] else []
  {
    FilterSnoc(cards + [card], c => PassesSelector(c, selector));
    assert (cards + [card])[..|cards|] == cards;
  }

  /** With the selector on "all" the table lists exactly the pending cards, in order. */
  lemma PendingRequestsAll(cards: seq<Record>)
    ensures PendingRequests(cards, Str("all")) == Filter(cards, IsPending)
  {
    FilterAgree(cards, c => PassesSelector(c, Str("all")), IsPending);
  }

  /** A card approved on `today`'s calendar day: status "approved", a truthy
      `dateApproved`, and the same year, month and day of month. */
  predicate ApprovedOn(card: Record, today: Moment, cal: Calendar)
  {
    IsApproved(card) && Truthy(Get(card, "dateApproved"))
    && SameDay(DateOf(Get(card, "dateApproved"), cal), today)
  }

  /** `approvedToday`: the cards approved on today's date, counted card by card;
      at most the number of approved cards. */
  function ApprovedToday(cards: seq<Record>, today: Moment, cal: Calendar): (n: nat)
    ensures n <= Count(cards, IsApproved)
    ensures cards == [] ==> n == 0
  {
    CountMonotone(cards, c => ApprovedOn(c, today, cal), IsApproved);
    Count(cards, c => ApprovedOn(c, today, cal))
  }

  /** An appended card adds 1 to `approvedToday` exactly when it was approved today. */
  lemma ApprovedTodaySnoc(cards: seq<Record>, card: Record, today: Moment, cal: Calendar)
    ensures ApprovedToday(cards + [card], today, cal)
            == ApprovedToday(cards, today, cal) + if ApprovedOn(card, today, cal) then 1 else 0
  {
    CountSnoc(cards + [card], c => ApprovedOn(c, today, cal));
    assert (cards + [card])[..|cards|] == cards;
  }

  /** The cards of the signed-in user's department (`deptCards`). */
  function DeptCards(cards: seq<Record>, user: Record): seq<Record>
  {
    OfDepartment(cards, Get(user, "department"))
  }

  /** `thisWeek`: cards of the user's department submitted in the current week window. */
  function DeptThisWeek(cards: seq<Record>, user: Record, now: Moment, cal: Calendar): (n: nat)
    ensures n <= |DeptCards(cards, user)|
    ensures cards == [] ==> n == 0
  {
    SubmittedThisWeek(DeptCards(cards, user), now, cal)
  }

  /** Counted over the whole list, card by card: an appended card adds 1 exactly
      when it is of the user's department and submitted in the week window. */
  lemma DeptThisWeekSnoc(cards: seq<Record>, card: Record, user: Record, now: Moment, cal: Calendar)
    ensures DeptThisWeek(cards + [card], user, now, cal)
            == DeptThisWeek(cards, user, now, cal)
               + if Get(card, "department") == Get(user, "department") && InWeekOf(SubmitMoment(card, cal), now)
                 then 1 else 0
  {
    var a := DeptCards(cards, user);
    OfDepartmentSnoc(cards, card, Get(user, "department"));
    if Get(card, "department") == Get(user, "department") {
      WeekCountSnoc(a, card, now, cal);
    } else {
      assert DeptCards(cards + [card], user) == a;
    }
  }

  /** `progress`: the rounded share of the department's cards that are approved,
      closed or completed; 0 when the department has no cards. */
  function Progress(cards: seq<Record>, user: Record): (r: int)
    ensures 0 <= r <= 100
    ensures DeptCards(cards, user) == [] ==> r == 0
    ensures DeptCards(cards, user) != [] ==>
              r == RoundPercent(Count(DeptCards(cards, user), IsDone), |DeptCards(cards, user)|)
  {
    var dept := DeptCards(cards, user);
    if |dept| > 0 then RoundPercent(Count(dept, IsDone), |dept|) else 0
  }

  // ------------------------------------------------------------ accounts view

  /** `pendingDisbursements`: cards with status "approved". */
  function PendingDisbursements(cards: seq<Record>): nat { Count(cards, IsApproved) }

  /** `processedCount`: cards with status "processed". */
  function ProcessedCount(cards: seq<Record>): nat { Count(cards, IsProcessed) }

  /** A card processed on `today`'s calendar day. */
  predicate ProcessedOn(card: Record, today: Moment, cal: Calendar)
  {
    IsProcessed(card) && Truthy(Get(card, "dateProcessed"))
    && SameDay(DateOf(Get(card, "dateProcessed"), cal), today)
  }

  /** `processedToday`: the cards processed on today's date, counted card by
      card; at most the number of processed cards. */
  function ProcessedToday(cards: seq<Record>, today: Moment, cal: Calendar): (n: nat)
    ensures n <= ProcessedCount(cards)
    ensures cards == [] ==> n == 0
  {
    CountMonotone(cards, c => ProcessedOn(c, today, cal), IsProcessed);
    Count(cards, c => ProcessedOn(c, today, cal))
  }

  /** An appended card adds 1 to `processedToday` exactly when it was processed today. */
  lemma ProcessedTodaySnoc(cards: seq<Record>, card: Record, today: Moment, cal: Calendar)
    ensures ProcessedToday(cards + [card], today, cal)
            == ProcessedToday(cards, today, cal) + if ProcessedOn(card, today, cal) then 1 else 0
  {
    CountSnoc(cards + [card], c => ProcessedOn(c, today, cal));
    assert (cards + [card])[..|cards|] == cards;
  }

  /** The amount one card contributes to `totalAmount`: a numeric `amount`, else a
      numeric `hrs`, else an `hrs` string that `Number` reads, else nothing. */
  function AmountOf(card: Record): (a: int)
    ensures var amount, hrs := Get(card, "amount"), Get(card, "hrs");
      if amount.Num? then a == amount.n
      else if hrs.Num? then a == hrs.n
      else if hrs.Str? && NumberOf(hrs.s).Some? then a == NumberOf(hrs.s).value
      else a == 0
  {
    match Get(card, "amount")
    case Num(n) => n
    case _ =>
      match Get(card, "hrs")
      case Num(h) => h
      case Str(s) => (match NumberOf(s) case Some(k) => k case None => 0)
      case _ => 0
  }

  /** `totalAmount`: the amounts summed left to right, from 0. */
  function TotalAmount(cards: seq<Record>): int
  {
    if cards == [] then 0 else TotalAmount(cards[..|cards| - 1]) + AmountOf(cards[|cards| - 1])
  }

  /** The total of two lists laid end to end is the sum of their totals. */
  lemma {:induction false} TotalAmountAppend(a: seq<Record>, b: seq<Record>)
    ensures TotalAmount(a + b) == TotalAmount(a) + TotalAmount(b)
  {
    if b == [] {
      assert a + b == a;
    } else {
      assert (a + b)[..|a + b| - 1] == a + b[..|b| - 1];
      TotalAmountAppend(a, b[..|b| - 1]);
    }
  }

  /** A card with no numeric `amount`, no numeric `hrs` and no numeric-string
      `hrs` leaves the total unchanged, wherever it stands in the list. */
  lemma UnpricedCardAddsNothing(a: seq<Record>, card: Record, b: seq<Record>)
    requires !Get(card, "amount").Num? && !Get(card, "hrs").Num?
    requires Get(card, "hrs").Str? ==> NumberOf(Get(card, "hrs").s).None?
    ensures TotalAmount(a + [card] + b) == TotalAmount(a + b)
  {
    TotalAmountAppend(a + [card], b);
    TotalAmountAppend(a, b);
    assert (a + [card])[..|a + [card]| - 1] == a;
  }

  /** `completionRate`: processed / (processed + pendingDisbursements), rounded;
      0 when both counts are 0. */
  function CompletionRate(cards: seq<Record>): (r: int)
    ensures 0 <= r <= 100
    ensures ProcessedCount(cards) + PendingDisbursements(cards) == 0 ==> r == 0
    ensures ProcessedCount(cards) > 0 && PendingDisbursements(cards) == 0 ==> r == 100
    ensures ProcessedCount(cards) == 0 ==> r == 0
    ensures ProcessedCount(cards) + PendingDisbursements(cards) > 0 ==>
              r == RoundPercent(ProcessedCount(cards), ProcessedCount(cards) + PendingDisbursements(cards))
  {
    var processed := ProcessedCount(cards);
    var approved := PendingDisbursements(cards);
    if processed + approved > 0 then RoundPercent(processed, processed + approved) else 0
  }
}
