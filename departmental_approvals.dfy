/** The department head's approval queue: a list of pending job cards of the
    head's department and a details dialog in which a card can be edited,
    approved or rejected. Approve and reject act on the local list only.

    Each handler is specified by a function from the screen state before to
    the screen state after (`After...`); the class `ApprovalsScreen` holds
    the state in fields and its methods are proved to follow those functions. */
module DepartmentalApprovals {
  import opened JsValues
  import opened Lists
  import opened JobCards
  import opened Notifications

  // ------------------------------------------------------------ queue operations

  /** The queue a head of `dept` starts with: the source cards of that
      department whose status is "pending", in source order. */
  function InitialQueue(source: seq<Record>, dept: Value): (q: seq<Record>)
    ensures forall c :: multiset(q)[c] ==
              if Get(c, "department") == dept && IsPending(c) then multiset(source)[c] else 0
    ensures forall i :: 0 <= i < |q| ==> Get(q[i], "department") == dept && IsPending(q[i])
    ensures source == [] ==> q == []
  {
    Filter(source, c => Get(c, "department") == dept && IsPending(c))
  }

  /** The queue keeps source order: a card appended to the source is appended
      to the queue exactly when it is a pending card of `dept`. */
  lemma InitialQueueSnoc(source: seq<Record>, card: Record, dept: Value)
    ensures InitialQueue(source + [card], dept)
            == InitialQueue(source, dept) + if Get(card, "department") == dept && IsPending(card) then [card] else []
  {
    FilterSnoc(source + [card], c => Get(c, "department") == dept && IsPending(c));
    assert (source + [card])[..|source|] == source;
  }

  /** `requests.map(req => req.id === edited.id ? edited : req)` */
  function ReplaceById(queue: seq<Record>, edited: Record): (q: seq<Record>)
    ensures |q| == |queue|
    ensures forall i :: 0 <= i < |q| ==>
              q[i] == if HasId(queue[i], Get(edited, "id")) then edited else queue[i]
  {
    if queue == [] then []
    else
      [if HasId(queue[0], Get(edited, "id")) then edited else queue[0]]
      + ReplaceById(queue[1..], edited)
  }

  /** Saving the same edit twice is the same as saving it once. */
  lemma ReplaceByIdIdempotent(queue: seq<Record>, edited: Record)
    ensures ReplaceById(ReplaceById(queue, edited), edited) == ReplaceById(queue, edited)
  {
  }

  /** Approving or rejecting a card after an edit of it removes the same entries
      as without the edit: the edit never adds or hides an entry with its id. */
  lemma {:induction false} RemoveAfterEdit(queue: seq<Record>, edited: Record)
    ensures WithoutId(ReplaceById(queue, edited), Get(edited, "id")) == WithoutId(queue, Get(edited, "id"))
  {
    if queue != [] {
      RemoveAfterEdit(queue[1..], edited);
      var r := ReplaceById(queue, edited);
      assert r[1..] == ReplaceById(queue[1..], edited);
    }
  }

  // ------------------------------------------------------------ screen state

  datatype ScreenState = ScreenState(
    requests: seq<Record>,
    selectedRequest: Option<Record>,
    openDialog: bool,
    isEditing: bool,
    editedRequest: Option<Record>,
    rejectReason: string,
    isRejecting: bool,
    notification: Notification)

  /** While editing there is always a draft to edit. */
  predicate Consistent(s: ScreenState)
  {
    s.isEditing ==> s.editedRequest.Some?
  }

  /** `{ ...o }` for an object that may be null: spreading null gives `{}`. */
  function Spread(o: Option<Record>): (r: Record)
    ensures o.Some? ==> r == o.value
    ensures o.None? ==> r == map[]
  {
    if o.Some? then o.value else map[]
  }

  /** `handleViewDetails`: select the card, draft a copy of it, open the dialog
      and leave both the reject and the edit mode. */
  function AfterViewDetails(s: ScreenState, request: Record): (t: ScreenState)
    ensures t.selectedRequest == Some(request) && t.editedRequest == Some(request)
    ensures t.openDialog && !t.isRejecting && !t.isEditing
    ensures t.requests == s.requests && t.rejectReason == s.rejectReason
    ensures t.notification == s.notification
    ensures Consistent(t)
  {
    s.(selectedRequest := Some(request), editedRequest := Some(request),
       openDialog := true, isRejecting := false, isEditing := false)
  }

  /** `handleCloseDialog`: close the dialog, clear the reason and the draft and
      leave edit mode. The selection and the reject mode are kept. */
  function AfterCloseDialog(s: ScreenState): (t: ScreenState)
    ensures !t.openDialog && t.rejectReason == "" && !t.isEditing && t.editedRequest == None
    ensures t.requests == s.requests && t.selectedRequest == s.selectedRequest
    ensures t.isRejecting == s.isRejecting && t.notification == s.notification
    ensures Consistent(t)
  {
    s.(openDialog := false, rejectReason := "", isEditing := false, editedRequest := None)
  }

  /** `handleEditToggle`: flip edit mode; entering it drafts a fresh copy of the
      selected card, leaving it keeps the draft. */
  function AfterEditToggle(s: ScreenState): (t: ScreenState)
    ensures t.isEditing == !s.isEditing
    ensures !s.isEditing ==> t.editedRequest == Some(Spread(s.selectedRequest))
    ensures s.isEditing ==> t.editedRequest == s.editedRequest
    ensures t.(isEditing := s.isEditing, editedRequest := s.editedRequest) == s
    ensures Consistent(t)
  {
    if s.isEditing then s.(isEditing := false)
    else s.(isEditing := true, editedRequest := Some(Spread(s.selectedRequest)))
  }

  /** `handleEditChange(field, value)`: the draft gets `value` under `field` and
      keeps every other field. */
  function AfterEditChange(s: ScreenState, field: string, value: Value): (t: ScreenState)
    ensures t.editedRequest.Some?
    ensures Get(t.editedRequest.value, field) == value
    ensures forall k :: k != field ==> Get(t.editedRequest.value, k) == Get(Spread(s.editedRequest), k)
    ensures t.(editedRequest := s.editedRequest) == s
    ensures Consistent(t)
  {
    s.(editedRequest := Some(Spread(s.editedRequest)[field := value]))
  }

  /** `handleSaveEdit`: every entry with the draft's id becomes the draft, the
      draft becomes the selection and edit mode ends. */
  function AfterSaveEdit(s: ScreenState): (t: ScreenState)
    requires s.editedRequest.Some?
    ensures |t.requests| == |s.requests|
    ensures forall i :: 0 <= i < |s.requests| && !HasId(s.requests[i], Get(s.editedRequest.value, "id"))
              ==> t.requests[i] == s.requests[i]
    ensures forall i :: 0 <= i < |s.requests| && HasId(s.requests[i], Get(s.editedRequest.value, "id"))
              ==> t.requests[i] == s.editedRequest.value
    ensures t.selectedRequest == s.editedRequest && !t.isEditing
    ensures t.notification == Notification(true, "Request updated successfully!", Success)
    ensures t.editedRequest == s.editedRequest && t.openDialog == s.openDialog
    ensures t.rejectReason == s.rejectReason && t.isRejecting == s.isRejecting
    ensures Consistent(t)
  {
    var edited := s.editedRequest.value;
    s.(requests := ReplaceById(s.requests, edited), selectedRequest := Some(edited),
       isEditing := false,
       notification := Notification(true, "Request updated successfully!", Success))
  }

  /** Removes the selected card's id from the queue, notifies, and closes the dialog. */
  function RemoveSelected(s: ScreenState, message: string, severity: Severity): ScreenState
    requires s.selectedRequest.Some?
  {
    AfterCloseDialog(s.(requests := WithoutId(s.requests, Get(s.selectedRequest.value, "id")),
                        notification := Notification(true, message, severity)))
  }

  /** `handleApprove`: the entries with the selected id leave the queue, the rest
      keep their order, and the dialog is closed and reset. */
  function AfterApprove(s: ScreenState): (t: ScreenState)
    requires s.selectedRequest.Some?
    ensures var id := Get(s.selectedRequest.value, "id");
      forall c :: c in t.requests <==> c in s.requests && !HasId(c, id)
    ensures t.requests == WithoutId(s.requests, Get(s.selectedRequest.value, "id"))
    ensures !t.openDialog && t.rejectReason == "" && !t.isEditing && t.editedRequest == None
    ensures t.notification == Notification(true, "Job card approved successfully! Request has been processed.", Success)
    ensures t.selectedRequest == s.selectedRequest && t.isRejecting == s.isRejecting
  {
    RemoveSelected(s, "Job card approved successfully! Request has been processed.", Success)
  }

  /** `handleReject`, a two-step action: the first press only enters reject mode;
      in reject mode a blank reason does nothing, and a non-blank one removes the
      selected id as approve does, closes the dialog and resets it. */
  function AfterReject(s: ScreenState): (t: ScreenState)
    requires s.isRejecting && !Blank(s.rejectReason) ==> s.selectedRequest.Some?
    ensures !s.isRejecting ==> t == s.(isRejecting := true)
    ensures s.isRejecting && Blank(s.rejectReason) ==> t == s
    ensures s.isRejecting && !Blank(s.rejectReason) ==>
              && t.requests == WithoutId(s.requests, Get(s.selectedRequest.value, "id"))
              && !t.openDialog && t.rejectReason == "" && !t.isEditing && t.editedRequest == None
              && t.notification == Notification(true, "Job card rejected. The requester has been notified.", Info)
              && t.selectedRequest == s.selectedRequest && t.isRejecting
  {
    if !s.isRejecting then s.(isRejecting := true)
    else if Blank(s.rejectReason) then s
    else RemoveSelected(s, "Job card rejected. The requester has been notified.", Info)
  }

  /** Pressing reject twice with a whitespace-only reason leaves the queue as it was. */
  lemma RejectNeedsReason(s: ScreenState)
    requires forall i :: 0 <= i < |s.rejectReason| ==> IsWhitespace(s.rejectReason[i])
    ensures AfterReject(AfterReject(s)).requests == s.requests
    ensures AfterReject(AfterReject(s)).isRejecting
  {
    BlankIffAllWhitespace(s.rejectReason);
  }

  /** Approve and a completed reject leave the queue in the same state. */
  lemma RejectRemovesLikeApprove(s: ScreenState)
    requires s.isRejecting && !Blank(s.rejectReason) && s.selectedRequest.Some?
    ensures AfterReject(s).requests == AfterApprove(s).requests
  {
  }

  // ------------------------------------------------------------ the component

  class ApprovalsScreen {
    var requests: seq<Record>
    var selectedRequest: Option<Record>
    var openDialog: bool
    var isEditing: bool
    var editedRequest: Option<Record>
    var rejectReason: string
    var isRejecting: bool
    var notification: Notification

    /** The screen state held in the fields. */
    function State(): ScreenState
      reads this
    {
      ScreenState(requests, selectedRequest, openDialog, isEditing, editedRequest,
                  rejectReason, isRejecting, notification)
    }

    ghost predicate Valid()
      reads this
    {
      Consistent(State())
    }

    /** Mounting the screen for `user` and running its effect, which loads the
        pending cards of the user's department from `source`. */
    constructor (source: seq<Record>, user: Record)
      ensures Valid()
      ensures requests == InitialQueue(source, Get(user, "department"))
      ensures selectedRequest == None && editedRequest == None
      ensures !openDialog && !isEditing && !isRejecting && rejectReason == ""
      ensures notification == Hidden()
    {
      requests := InitialQueue(source, Get(user, "department"));
      selectedRequest := None;
      openDialog := false;
      isEditing := false;
      editedRequest := None;
      rejectReason := "";
      isRejecting := false;
      notification := Hidden();
    }

    method ViewDetails(request: Record)
      modifies this
      ensures Valid()
      ensures State() == AfterViewDetails(old(State()), request)
    {
      selectedRequest := Some(request);
      editedRequest := Some(request);
      openDialog := true;
      isRejecting := false;
      isEditing := false;
    }

    method CloseDialog()
      modifies this
      ensures Valid()
      ensures State() == AfterCloseDialog(old(State()))
    {
      openDialog := false;
      rejectReason := "";
      isEditing := false;
      editedRequest := None;
    }

    method EditToggle()
      requires Valid()
      modifies this
      ensures Valid()
      ensures State() == AfterEditToggle(old(State()))
    {
      var wasEditing := isEditing;
      isEditing := !wasEditing;
      if !wasEditing {
        editedRequest := Some(Spread(selectedRequest));
      }
    }

    method EditChange(field: string, value: Value)
      requires Valid()
      modifies this
      ensures Valid()
      ensures State() == AfterEditChange(old(State()), field, value)
    {
      editedRequest := Some(Spread(editedRequest)[field := value]);
    }

    method SaveEdit()
      requires editedRequest.Some?
      modifies this
      ensures Valid()
      ensures State() == AfterSaveEdit(old(State()))
    {
      var edited := editedRequest.value;
      requests := ReplaceById(requests, edited);
      selectedRequest := Some(edited);
      isEditing := false;
      notification := Notification(true, "Request updated successfully!", Success);
    }

    method Approve()
      requires selectedRequest.Some?
      modifies this
      ensures Valid()
      ensures State() == AfterApprove(old(State()))
    {
      requests := WithoutId(requests, Get(selectedRequest.value, "id"));
      notification := Notification(true, "Job card approved successfully! Request has been processed.", Success);
      CloseDialog();
    }

    method Reject()
      requires Valid()
      requires isRejecting && !Blank(rejectReason) ==> selectedRequest.Some?
      modifies this
      ensures Valid()
      ensures State() == AfterReject(old(State()))
    {
      if isRejecting {
        if Blank(rejectReason) {
          return;
        }
        requests := WithoutId(requests, Get(selectedRequest.value, "id"));
        notification := Notification(true, "Job card rejected. The requester has been notified.", Info);
        CloseDialog();
      } else {
        isRejecting := true;
      }
    }

    /** The reason field's `onChange`. */
    method ChangeRejectReason(text: string)
      modifies this
      ensures State() == old(State()).(rejectReason := text)
    {
      rejectReason := text;
    }

    /** The "Cancel" button shown in reject mode. */
    method CancelReject()
      modifies this
      ensures State() == old(State()).(isRejecting := false)
    {
      isRejecting := false;
    }

    method CloseNotification()
      modifies this
      ensures State() == old(State()).(notification := old(notification).(open := false))
    {
      notification := notification.(open := false);
    }
  }
}
