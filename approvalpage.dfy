/** The approvals page: choosing a pending approval and a decision, the comment a
    rejection requires, the request the confirm button sends, and how the dialog is
    closed and cleared. */
module ApprovalPage {
  import opened Common

  datatype Decision = Approve | Reject

  /** What the confirm button sends. */
  datatype ProcessRequest = ProcessRequest(approvalId: string, action: Decision, comments: string)

  /** Confirm is greyed out while a request is in flight, and for a rejection until the
      comment holds more than white space; an approval may go without a comment. */
  predicate ConfirmDisabled(isPending: bool, action: Option<Decision>, comments: string)
  {
    isPending || (action == Some(Reject) && Trim(comments) == [])
  }

  /** A rejection that can be confirmed carries a comment with real content. */
  lemma RejectionNeedsComment(comments: string)
    ensures !ConfirmDisabled(false, Some(Reject), comments) <==> !IsBlank(comments)
    ensures !ConfirmDisabled(false, Some(Approve), comments)
  {
    TrimEmptyIffBlank(comments);
  }

  /** The role label; any other role shows as itself. */
  function GetRoleLabel(role: string): (text: string)
    ensures role == "BENDAHARA" ==> text == "Bendahara"
    ensures role == "KETUA" ==> text == "Ketua"
    ensures role == "SEKRETARIS" ==> text == "Sekretaris"
    ensures role !in {"BENDAHARA", "KETUA", "SEKRETARIS"} ==> text == role
  {
    if role == "BENDAHARA" then "Bendahara"
    else if role == "KETUA" then "Ketua"
    else if role == "SEKRETARIS" then "Sekretaris"
    else role
  }

  /** The page's dialog state; the selected approval is known by its id. */
  class Page {
    var selectedApproval: Option<string>
    var dialogOpen: bool
    var action: Option<Decision>
    var comments: string

    constructor ()
      ensures selectedApproval.None? && !dialogOpen && action.None? && comments == ""
    {
      selectedApproval := None;
      dialogOpen := false;
      action := None;
      comments := "";
    }

    /** Opens the dialog for one approval and one decision; the comment is kept. */
    method OpenDialog(approvalId: string, actionType: Decision)
      modifies this
      ensures selectedApproval == Some(approvalId) && action == Some(actionType) && dialogOpen
      ensures comments == old(comments)
    {
      selectedApproval := Some(approvalId);
      action := Some(actionType);
      dialogOpen := true;
    }

    method TypeComments(text: string)
      modifies this
      ensures comments == text
      ensures selectedApproval == old(selectedApproval) && action == old(action) && dialogOpen == old(dialogOpen)
    {
      comments := text;
    }

    /** The confirm handler: nothing is sent unless both an approval and a decision are
        chosen; otherwise exactly those and the comment as typed are sent. */
    method HandleSubmit() returns (sent: Option<ProcessRequest>)
      ensures sent.Some? <==> selectedApproval.Some? && action.Some?
      ensures sent.Some? ==> sent.value == ProcessRequest(selectedApproval.value, action.value, comments)
    {
      if selectedApproval.None? || action.None? {
        return None;
      }
      sent := Some(ProcessRequest(selectedApproval.value, action.value, comments));
    }

    /** After the server accepts: the dialog closes, and the selection and the comment are
        cleared; the decision is left as it was. */
    method OnSuccess()
      modifies this
      ensures !dialogOpen && selectedApproval.None? && comments == ""
      ensures action == old(action)
    {
      dialogOpen := false;
      selectedApproval := None;
      comments := "";
    }

    /** Cancel closes the dialog and clears the comment, keeping the selection. */
    method Cancel()
      modifies this
      ensures !dialogOpen && comments == ""
      ensures selectedApproval == old(selectedApproval) && action == old(action)
    {
      dialogOpen := false;
      comments := "";
    }
  }

  /** The request a clickable confirm button sends for a rejection explains it. */
  lemma SentRejectionExplained(r: ProcessRequest)
    requires r.action == Reject && !ConfirmDisabled(false, Some(r.action), r.comments)
    ensures exists i :: 0 <= i < |r.comments| && !IsSpace(r.comments[i])
  {
    TrimEmptyIffBlank(r.comments);
  }
}
