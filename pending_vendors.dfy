/** The pending-vendors page: its status badge, its pager, and the approval
    handler, which sends the chosen status and the review notes for the
    selected vendor, refreshes the list and closes the review modal. */
module PendingVendors {
  import opened Common
  import Paging
  import opened UseModal

  datatype Vendor = Vendor(
    id: int, firstName: string, lastName: Option<string>, email: string,
    phone: Option<string>, payoutMethod: string, isActive: int, emailVerified: int, createdAt: string)

  /** `getStatusColor`: an exact match on the status, with no lower-casing. */
  function VendorStatusBadge(status: string): (b: Badge)
    ensures b == Success <==> status == "approved"
    ensures b == Warning <==> status == "pending"
    ensures b == Error <==> status == "rejected"
  {
    if status == "approved" then Success
    else if status == "pending" then Warning
    else if status == "rejected" then Error
    else Default
  }

  /** Unlike the order and payout badges, this one is case-sensitive. */
  lemma CapitalisedStatusIsDefault()
    ensures VendorStatusBadge("Approved") == Default
  {
    assert "Approved" != "approved" by { assert "Approved"[0] != "approved"[0]; }
  }

  const ApproveFailedMessage := "Failed to approve vendor"
  const FetchFailedMessage := "Failed to fetch users"

  /** What `fetchUsers` came back with: the list and its total, or the
      message of what was thrown (`FetchFailedMessage` for a response that
      is not ok). */
  datatype UsersResponse = Loaded(users: seq<Vendor>, total: nat) | LoadFailed(message: string)

  /** What the approval request came back with: success, a refusal whose
      body may carry a message, or a thrown error. */
  datatype ApprovalOutcome = Approved | Refused(serverMessage: string) | Thrown(message: string)

  /** The `PATCH` the approval sends: the vendor, and `{status, adminNotes}`. */
  datatype ApprovalRequest = ApprovalRequest(vendorId: int, status: string, adminNotes: string)

  datatype VendorsView = VendorsView(users: seq<Vendor>, totalItems: nat, loading: bool, error: Option<string>, modalOpen: bool)

  /** The list after `fetchUsers`: a success replaces users and total and
      leaves the error alone; a failure shows its message. */
  function AfterUsersFetch(v: VendorsView, r: UsersResponse): (w: VendorsView)
    ensures !w.loading && w.modalOpen == v.modalOpen
    ensures r.Loaded? ==> w.users == r.users && w.totalItems == r.total && w.error == v.error
    ensures r.LoadFailed? ==> w.users == v.users && w.totalItems == v.totalItems && w.error == Some(r.message)
  {
    match r
    case Loaded(users, total) => v.(users := users, totalItems := total, loading := false)
    case LoadFailed(message) => v.(error := Some(message), loading := false)
  }

  /** The message a failed approval shows: the server's, when it sent a non-empty one. */
  function RefusalMessage(o: ApprovalOutcome): (m: string)
    requires !o.Approved?
    ensures o.Thrown? ==> m == o.message
    ensures o.Refused? && o.serverMessage != [] ==> m == o.serverMessage
    ensures o.Refused? && o.serverMessage == [] ==> m == ApproveFailedMessage
  {
    match o
    case Refused(serverMessage) => if serverMessage != [] then serverMessage else ApproveFailedMessage
    case Thrown(message) => message
  }

  /** The page after an approval that got past the selection guard: on
      success the list is fetched again and then the modal closes; on
      failure the error shows and the modal stays as it was. Loading is off
      at the end either way. */
  function AfterApprove(v: VendorsView, o: ApprovalOutcome, refetch: UsersResponse): (w: VendorsView)
    ensures !w.loading
    ensures o.Approved? ==>
      !w.modalOpen
      && w.users == AfterUsersFetch(v, refetch).users && w.totalItems == AfterUsersFetch(v, refetch).totalItems
      && (refetch.Loaded? ==> w.error == None)
      && (refetch.LoadFailed? ==> w.error == Some(refetch.message))
    ensures !o.Approved? ==>
      w.modalOpen == v.modalOpen && w.users == v.users
      && w.totalItems == v.totalItems && w.error == Some(RefusalMessage(o))
  {
    if o.Approved? then
      AfterUsersFetch(v.(loading := true, error := None), refetch).(modalOpen := false, loading := false)
    else
      v.(error := Some(RefusalMessage(o)), loading := false)
  }

  /** A failed approval always leaves a message on the page, never an empty one
      from a refusal. */
  lemma RefusalAlwaysExplained(v: VendorsView, reason: string, refetch: UsersResponse)
    ensures AfterApprove(v, Refused(reason), refetch).error.Some?
    ensures AfterApprove(v, Refused(reason), refetch).error.value != []
  {
  }

  class PendingVendorsPage {
    var users: seq<Vendor>
    var loading: bool
    var error: Option<string>
    var currentPage: int
    var totalItems: nat
    var searchTerm: string
    var status: string
    var reviewNotes: string
    /** `selectedProductId`: `null` until a row's review button is pressed. */
    var selectedId: Option<int>
    /** The page's `useModal()`. */
    const modal: ModalFlags

    constructor ()
      ensures View() == VendorsView([], 0, true, None, false)
      ensures currentPage == 1 && status == "approved" && reviewNotes == [] && selectedId == None
      ensures fresh(modal)
    {
      users, loading, error := [], true, None;
      currentPage, totalItems, searchTerm := 1, 0, [];
      status, reviewNotes, selectedId := "approved", [], None;
      modal := new ModalFlags();
    }

    function View(): VendorsView
      reads this, modal
    {
      VendorsView(users, totalItems, loading, error, modal.isOpen)
    }

    function TotalPages(): (pages: nat)
      reads this
      ensures pages * Paging.ItemsPerPage >= totalItems
    {
      Paging.TotalPages(totalItems, Paging.ItemsPerPage)
    }

    /** `goToPage`: the page changes exactly when the target is within `1..totalPages`. */
    method GoToPage(page: int)
      modifies this`currentPage
      ensures Paging.InRange(page, TotalPages()) ==> currentPage == page
      ensures !Paging.InRange(page, TotalPages()) ==> currentPage == old(currentPage)
    {
      if page >= 1 && page <= TotalPages() {
        currentPage := page;
      }
    }

    /** Typing in the search box stores the term and nothing else. */
    method ChangeSearchTerm(term: string)
      modifies this`searchTerm
      ensures searchTerm == term
    {
      searchTerm := term;
    }

    /** Submitting the search form goes back to the first page. */
    method SubmitSearch()
      modifies this`currentPage
      ensures currentPage == 1
    {
      currentPage := 1;
    }

    /** `fetchUsers`, with the response given as `r`. */
    method FetchUsers(r: UsersResponse)
      modifies this`users, this`totalItems, this`loading, this`error
      ensures View() == AfterUsersFetch(old(View()), r)
    {
      loading := true;
      match r {
        case Loaded(vendors, total) =>
          users := vendors;
          totalItems := total;
        case LoadFailed(message) =>
          error := Some(message);
      }
      loading := false;
    }

    /** `openModalForProduct`: remember the vendor and open the review modal. */
    method OpenModalForVendor(id: int)
      modifies this`selectedId, modal
      ensures selectedId == Some(id) && modal.isOpen && modal.isDeleteOpen == old(modal.isDeleteOpen)
    {
      selectedId := Some(id);
      modal.OpenModal();
    }

    /** `handleApprove`. Without a selected vendor (none yet, or the falsy
        id 0) nothing is sent and nothing changes. Otherwise the request
        carries the vendor, the current status and the notes, and the page
        ends as `AfterApprove` says. */
    method HandleApprove(outcome: ApprovalOutcome, refetch: UsersResponse) returns (request: Option<ApprovalRequest>)
      modifies this`users, this`totalItems, this`loading, this`error, modal
      ensures request.None? <==> old(selectedId).None? || old(selectedId) == Some(0)
      ensures request.None? ==> View() == old(View())
      ensures modal.isDeleteOpen == old(modal.isDeleteOpen)
      ensures request.Some? ==>
        request.value == ApprovalRequest(old(selectedId).value, status, reviewNotes)
        && View() == AfterApprove(old(View()), outcome, refetch)
    {
      if selectedId.None? || selectedId == Some(0) {
        return None;
      }
      loading := true;
      error := None;
      request := Some(ApprovalRequest(selectedId.value, status, reviewNotes));
      match outcome {
        case Approved =>
          FetchUsers(refetch);
          modal.CloseModal();
        case Refused(serverMessage) =>
          error := Some(if serverMessage != [] then serverMessage else ApproveFailedMessage);
        case Thrown(message) =>
          error := Some(message);
      }
      loading := false;
    }
  }
}
