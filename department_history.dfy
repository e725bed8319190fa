/** The department history page: the fetched cards of the signed-in user's
    department and the counts shown above the list. The status and date-range
    selectors on the page hold state but are never applied to the list. */
module DepartmentHistory {
  import opened JsValues
  import opened Lists
  import opened JobCards

  /** What the page keeps after its fetch: the cards whose department is the
      user's, each as often as fetched. */
  function StoredCards(fetched: seq<Record>, user: Record): (r: seq<Record>)
    ensures forall c :: c in r <==> c in fetched && Get(c, "department") == Get(user, "department")
    ensures forall c :: multiset(r)[c] ==
              if Get(c, "department") == Get(user, "department") then multiset(fetched)[c] else 0
    ensures fetched == [] ==> r == []
  {
    OfDepartment(fetched, Get(user, "department"))
  }

  /** The stored list keeps fetch order: a card appended to the fetched list is
      appended to the stored list exactly when it is of the user's department. */
  lemma StoredCardsSnoc(fetched: seq<Record>, card: Record, user: Record)
    ensures StoredCards(fetched + [card], user)
            == StoredCards(fetched, user) + if Get(card, "department") == Get(user, "department") then [card] else []
  {
    OfDepartmentSnoc(fetched, card, Get(user, "department"));
  }

  datatype Stats = Stats(
    total: nat,
    completed: nat,
    pending: nat,
    thisWeek: nat,
    thisMonth: nat,
    thisYear: nat)

  /** The six counts over the stored cards: the approved, completed or closed
      cards, the pending cards, and the cards submitted this week, month and
      year. `now` is the clock reading the page takes for every card. */
  function HistoryStats(jobCards: seq<Record>, now: Moment, cal: Calendar): (s: Stats)
    ensures s.total == |jobCards|
    ensures s.completed == Count(jobCards, IsDone) && s.pending == Count(jobCards, IsPending)
    ensures s.thisWeek == SubmittedThisWeek(jobCards, now, cal)
    ensures s.thisMonth == SubmittedThisMonth(jobCards, now, cal)
    ensures s.thisYear == SubmittedThisYear(jobCards, now, cal)
    ensures s.completed + s.pending <= s.total
    ensures s.thisWeek <= s.total
    ensures s.thisMonth <= s.thisYear <= s.total
  {
    var doneOrPending := (c: Record) => IsDone(c) || IsPending(c);
    CountDisjointUnion(jobCards, IsDone, IsPending, doneOrPending);
    MonthWithinYear(jobCards, now, cal);
    Stats(
      |jobCards|,
      Count(jobCards, IsDone),
      Count(jobCards, IsPending),
      SubmittedThisWeek(jobCards, now, cal),
      SubmittedThisMonth(jobCards, now, cal),
      SubmittedThisYear(jobCards, now, cal))
  }

  /** The selectors of the page: a status value and a start/end date pair. */
  datatype Selectors = Selectors(statusFilter: Value, startDate: Option<Moment>, endDate: Option<Moment>)

  datatype View = View(rows: seq<Record>, stats: Stats)

  /** What the page shows: the stored cards as rows, and their counts. */
  function Render(fetched: seq<Record>, user: Record, selectors: Selectors, now: Moment, cal: Calendar): (v: View)
    ensures v.rows == StoredCards(fetched, user)
    ensures v.stats == HistoryStats(StoredCards(fetched, user), now, cal)
  {
    var cards := StoredCards(fetched, user);
    View(cards, HistoryStats(cards, now, cal))
  }

  /** Changing the status or date-range selectors changes nothing on the page. */
  lemma SelectorsIgnored(fetched: seq<Record>, user: Record, s1: Selectors, s2: Selectors, now: Moment, cal: Calendar)
    ensures Render(fetched, user, s1, now, cal) == Render(fetched, user, s2, now, cal)
  {
  }
}
