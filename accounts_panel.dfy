/** The accounts panel: three lists (approved cards awaiting disbursement,
    disbursed cards, rejected cards), a details dialog with a "receipt
    submitted" checkbox and a "process funds" action, and the report filters.

    As for the approval queue, each handler is specified by a function on the
    panel state and the class `AccountsScreen` is proved to follow it. The
    server's answers (to the three list fetches and to a process-funds call)
    are inputs of the handlers. */
module AccountsPanel {
  import opened JsValues
  import opened Lists
  import opened JobCards
  import opened Notifications

  // ------------------------------------------------------------ report filters

  /** `reportFilters`; dates are time values in milliseconds. */
  datatype ReportFilters = ReportFilters(
    startDate: Option<int>,
    endDate: Option<int>,
    departments: seq<string>,
    includeRejected: bool,
    searchTerm: string)

  /** The initial filters: no dates, no departments, rejected excluded, no search. */
  function InitialFilters(): ReportFilters
  {
    ReportFilters(None, None, [], false, "")
  }

  /** One `handleFilterChange(field, value)` call: the field and its new value. */
  datatype FilterUpdate =
    | SetStartDate(start: Option<int>)
    | SetEndDate(end: Option<int>)
    | SetDepartments(departments: seq<string>)
    | SetIncludeRejected(included: bool)
    | SetSearchTerm(term: string)

  /** `{ ...reportFilters, [field]: value }`: the named field takes the value,
      every other field keeps its own. */
  function ApplyFilter(f: ReportFilters, u: FilterUpdate): (g: ReportFilters)
    ensures u.SetStartDate? ==> g == f.(startDate := u.start)
    ensures u.SetEndDate? ==> g == f.(endDate := u.end)
    ensures u.SetDepartments? ==> g == f.(departments := u.departments)
    ensures u.SetIncludeRejected? ==> g == f.(includeRejected := u.included)
    ensures u.SetSearchTerm? ==> g == f.(searchTerm := u.term)
  {
    match u
    case SetStartDate(d) => f.(startDate := d)
    case SetEndDate(d) => f.(endDate := d)
    case SetDepartments(ds) => f.(departments := ds)
    case SetIncludeRejected(b) => f.(includeRejected := b)
    case SetSearchTerm(t) => f.(searchTerm := t)
  }

  /** Applying the same filter change twice is applying it once. */
  lemma ApplyFilterIdempotent(f: ReportFilters, u: FilterUpdate)
    ensures ApplyFilter(ApplyFilter(f, u), u) == ApplyFilter(f, u)
  {
  }

  /** The department chip's click: a selected department is removed (every copy
      of it), an unselected one is appended. */
  function ToggleDepartment(ds: seq<string>, dept: string): (r: seq<string>)
    ensures dept in r <==> dept !in ds
    ensures forall d :: d != dept ==> (d in r <==> d in ds)
    ensures dept !in ds ==> r == ds + [dept]
  {
    if dept in ds then Filter(ds, d => d != dept) else ds + [dept]
  }

  /** Clicking a chip twice gives back the same set of selected departments, and
      the very same list when the department was not selected. */
  lemma ToggleTwice(ds: seq<string>, dept: string)
    ensures forall d :: d in ToggleDepartment(ToggleDepartment(ds, dept), dept) <==> d in ds
    ensures dept !in ds ==> ToggleDepartment(ToggleDepartment(ds, dept), dept) == ds
  {
    if dept !in ds {
      FilterKeepsAll(ds, d => d != dept);
      assert Filter(ds + [dept], d => d != dept) == ds by {
        var xs := ds + [dept];
        FilterSnoc(xs, d => d != dept);
        assert xs[..|xs| - 1] == ds;
      }
    }
  }

  // ------------------------------------------------------------ process funds

  /** A processed card leaves the pending list and heads the disbursed list.
      When its id occurred exactly once among the pending cards, no card is
      gained or lost across the two lists. */
  lemma MoveKeepsTotal(pending: seq<Record>, disbursed: seq<Record>, updated: Record)
    requires Count(pending, c => HasId(c, Get(updated, "id"))) == 1
    ensures |WithoutId(pending, Get(updated, "id"))| + |[updated] + disbursed| == |pending| + |disbursed|
  {
  }

  /** The request `POST /api/accounts/process/:id` with body `{ receiptSubmitted }`. */
  datatype ProcessCall = ProcessCall(id: Value, receiptSubmitted: Value)

  /** The server's answer to a process-funds call: the updated record, or a
      failure with its message, if any. */
  datatype ProcessReply = Processed(updated: Record) | ProcessFailed(serverMessage: Option<string>)

  /** The answer to the three list fetches: all three lists, or a failure. */
  datatype FetchReply = Fetched(pending: seq<Record>, disbursed: seq<Record>, rejected: seq<Record>) | FetchFailed

  /** The sample lists shown when the server cannot be reached. */
  datatype Fallback = Fallback(approved: seq<Record>, disbursed: seq<Record>, rejected: seq<Record>)

  // ------------------------------------------------------------ panel state

  datatype PanelState = PanelState(
    tabValue: int,
    loading: bool,
    pendingRequests: seq<Record>,
    disbursedRequests: seq<Record>,
    rejectedRequests: seq<Record>,
    selectedRequest: Option<Record>,
    openDialog: bool,
    openReportDialog: bool,
    receiptSubmitted: Value,
    notification: Notification,
    reportFilters: ReportFilters)

  /** The state the panel mounts with. */
  function InitialPanel(): PanelState
  {
    PanelState(0, true, [], [], [], None, false, false, Bool(false), Hidden(), InitialFilters())
  }

  /** The end of the mount effect: the fetched lists on success; on failure the
      sample lists and a warning that sample data is shown. Loading ends either way. */
  function AfterFetch(s: PanelState, reply: FetchReply, fallback: Fallback): (t: PanelState)
    ensures !t.loading
    ensures reply.Fetched? ==>
              t == s.(loading := false, pendingRequests := reply.pending,
                      disbursedRequests := reply.disbursed, rejectedRequests := reply.rejected)
    ensures reply.FetchFailed? ==>
              && t.pendingRequests == fallback.approved
              && t.disbursedRequests == fallback.disbursed
              && t.rejectedRequests == fallback.rejected
              && t.notification == Notification(true, "Could not connect to the server. Displaying sample data.", Warning)
              && t.(loading := s.loading, pendingRequests := s.pendingRequests,
                    disbursedRequests := s.disbursedRequests, rejectedRequests := s.rejectedRequests,
                    notification := s.notification) == s
  {
    match reply
    case Fetched(p, d, r) =>
      s.(loading := false, pendingRequests := p, disbursedRequests := d, rejectedRequests := r)
    case FetchFailed =>
      s.(loading := false, pendingRequests := fallback.approved, disbursedRequests := fallback.disbursed,
         rejectedRequests := fallback.rejected,
         notification := Notification(true, "Could not connect to the server. Displaying sample data.", Warning))
  }

  /** `request.receiptSubmitted || false` */
  function ReceiptDefault(v: Value): (r: Value)
    ensures Truthy(r) <==> Truthy(v)
    ensures Truthy(v) ==> r == v
    ensures !Truthy(v) ==> r == Bool(false)
  {
    Or(v, Bool(false))
  }

  /** `handleViewDetails`: select the card, open the dialog, and set the checkbox
      from the card's own `receiptSubmitted` (false when it has none). */
  function AfterViewDetails(s: PanelState, request: Record): (t: PanelState)
    ensures t.selectedRequest == Some(request) && t.openDialog
    ensures Truthy(t.receiptSubmitted) <==> Truthy(Get(request, "receiptSubmitted"))
    ensures Truthy(Get(request, "receiptSubmitted")) ==> t.receiptSubmitted == Get(request, "receiptSubmitted")
    ensures !Truthy(Get(request, "receiptSubmitted")) ==> t.receiptSubmitted == Bool(false)
    ensures t.(selectedRequest := s.selectedRequest, openDialog := s.openDialog,
               receiptSubmitted := s.receiptSubmitted) == s
  {
    s.(selectedRequest := Some(request), openDialog := true,
       receiptSubmitted := ReceiptDefault(Get(request, "receiptSubmitted")))
  }

  /** The call `handleProcessFunds` makes, if any: none without a selection. */
  function ProcessCallOf(s: PanelState): (c: Option<ProcessCall>)
    ensures c.None? <==> s.selectedRequest.None?
    ensures c.Some? ==> c.value == ProcessCall(Get(s.selectedRequest.value, "id"), s.receiptSubmitted)
  {
    if s.selectedRequest.None? then None
    else Some(ProcessCall(Get(s.selectedRequest.value, "id"), s.receiptSubmitted))
  }

  /** `handleProcessFunds` given the server's reply. Without a selection nothing
      changes. On success the updated record's id leaves the pending list, the
      record heads the disbursed list, and the dialog closes. On failure the
      lists stay as they are and an error carries the server's message, or
      "Failed to process funds." when it has none. */
  function AfterProcessFunds(s: PanelState, reply: ProcessReply): (t: PanelState)
    ensures s.selectedRequest.None? ==> t == s
    ensures s.selectedRequest.Some? && reply.Processed? ==>
              && t.pendingRequests == WithoutId(s.pendingRequests, Get(reply.updated, "id"))
              && t.disbursedRequests == [reply.updated] + s.disbursedRequests
              && t.notification == Notification(true, "Funds processed successfully!", Success)
              && !t.openDialog
              && t.(pendingRequests := s.pendingRequests, disbursedRequests := s.disbursedRequests,
                    notification := s.notification, openDialog := s.openDialog) == s
    ensures s.selectedRequest.Some? && reply.ProcessFailed? ==>
              t == s.(notification := Notification(true, ErrorMessage(reply.serverMessage, "Failed to process funds."), Error))
  {
    if s.selectedRequest.None? then s
    else match reply
      case Processed(updated) =>
        s.(pendingRequests := WithoutId(s.pendingRequests, Get(updated, "id")),
           disbursedRequests := [updated] + s.disbursedRequests,
           notification := Notification(true, "Funds processed successfully!", Success),
           openDialog := false)
      case ProcessFailed(message) =>
        s.(notification := Notification(true, ErrorMessage(message, "Failed to process funds."), Error))
  }

  /** A failed call keeps every list and sets an error notification whose text
      is never empty. */
  lemma FailedProcessKeepsLists(s: PanelState, message: Option<string>)
    requires s.selectedRequest.Some?
    ensures var t := AfterProcessFunds(s, ProcessFailed(message));
      && t.pendingRequests == s.pendingRequests
      && t.disbursedRequests == s.disbursedRequests
      && t.rejectedRequests == s.rejectedRequests
      && t.notification.open && t.notification.severity == Error
      && t.notification.message != ""
  {
  }

  // ------------------------------------------------------------ the component

  /** `handleGenerateReport`: the report itself is not produced; the panel shows
      a success notification and closes the report dialog. */
  function AfterGenerateReport(s: PanelState): (t: PanelState)
    ensures t.notification == Notification(true, "Report generated successfully!", Success)
    ensures !t.openReportDialog
    ensures t.(notification := s.notification, openReportDialog := s.openReportDialog) == s
  {
    s.(notification := Notification(true, "Report generated successfully!", Success), openReportDialog := false)
  }

  class AccountsScreen {
    var tabValue: int
    var loading: bool
    var pendingRequests: seq<Record>
    var disbursedRequests: seq<Record>
    var rejectedRequests: seq<Record>
    var selectedRequest: Option<Record>
    var openDialog: bool
    var openReportDialog: bool
    var receiptSubmitted: Value
    var notification: Notification
    var reportFilters: ReportFilters

    function State(): PanelState
      reads this
    {
      PanelState(tabValue, loading, pendingRequests, disbursedRequests, rejectedRequests, selectedRequest,
                 openDialog, openReportDialog, receiptSubmitted, notification, reportFilters)
    }

    constructor ()
      ensures State() == InitialPanel()
    {
      tabValue := 0;
      loading := true;
      pendingRequests := [];
      disbursedRequests := [];
      rejectedRequests := [];
      selectedRequest := None;
      openDialog := false;
      openReportDialog := false;
      receiptSubmitted := Bool(false);
      notification := Hidden();
      reportFilters := InitialFilters();
    }

    /** The end of the mount effect, given the server's reply. */
    method FinishFetch(reply: FetchReply, fallback: Fallback)
      modifies this
      ensures State() == AfterFetch(old(State()), reply, fallback)
    {
      loading := false;
      match reply
      case Fetched(p, d, r) =>
        pendingRequests := p;
        disbursedRequests := d;
        rejectedRequests := r;
      case FetchFailed =>
        notification := Notification(true, "Could not connect to the server. Displaying sample data.", Warning);
        pendingRequests := fallback.approved;
        disbursedRequests := fallback.disbursed;
        rejectedRequests := fallback.rejected;
    }

    method ViewDetails(request: Record)
      modifies this
      ensures State() == AfterViewDetails(old(State()), request)
    {
      selectedRequest := Some(request);
      openDialog := true;
      receiptSubmitted := ReceiptDefault(Get(request, "receiptSubmitted"));
    }

    /** The "Receipt Submitted" checkbox. */
    method SetReceiptSubmitted(checked: bool)
      modifies this
      ensures State() == old(State()).(receiptSubmitted := Bool(checked))
    {
      receiptSubmitted := Bool(checked);
    }

    method CloseDialog()
      modifies this
      ensures State() == old(State()).(openDialog := false)
    {
      openDialog := false;
    }

    /** `handleProcessFunds`: `call` is the request sent, `reply` the server's answer to it. */
    method ProcessFunds(reply: ProcessReply) returns (call: Option<ProcessCall>)
      modifies this
      ensures call == ProcessCallOf(old(State()))
      ensures State() == AfterProcessFunds(old(State()), reply)
    {
      if selectedRequest.None? {
        return None;
      }
      call := Some(ProcessCall(Get(selectedRequest.value, "id"), receiptSubmitted));
      match reply
      case Processed(updated) =>
        pendingRequests := WithoutId(pendingRequests, Get(updated, "id"));
        disbursedRequests := [updated] + disbursedRequests;
        notification := Notification(true, "Funds processed successfully!", Success);
        CloseDialog();
      case ProcessFailed(message) =>
        notification := Notification(true, ErrorMessage(message, "Failed to process funds."), Error);
    }

    method TabChange(newValue: int)
      modifies this
      ensures State() == old(State()).(tabValue := newValue)
    {
      tabValue := newValue;
    }

    method OpenReportDialog()
      modifies this
      ensures State() == old(State()).(openReportDialog := true)
    {
      openReportDialog := true;
    }

    method CloseReportDialog()
      modifies this
      ensures State() == old(State()).(openReportDialog := false)
    {
      openReportDialog := false;
    }

    method GenerateReport()
      modifies this
      ensures State() == AfterGenerateReport(old(State()))
    {
      notification := Notification(true, "Report generated successfully!", Success);
      CloseReportDialog();
    }

    method FilterChange(update: FilterUpdate)
      modifies this
      ensures State() == old(State()).(reportFilters := ApplyFilter(old(reportFilters), update))
    {
      reportFilters := ApplyFilter(reportFilters, update);
    }

    /** A click on the chip of `dept`. */
    method ToggleDepartmentChip(dept: string)
      modifies this
      ensures State() == old(State()).(reportFilters :=
                old(reportFilters).(departments := ToggleDepartment(old(reportFilters).departments, dept)))
    {
      FilterChange(SetDepartments(ToggleDepartment(reportFilters.departments, dept)));
    }

    method CloseNotification()
      modifies this
      ensures State() == old(State()).(notification := old(notification).(open := false))
    {
      notification := notification.(open := false);
    }
  }
}
