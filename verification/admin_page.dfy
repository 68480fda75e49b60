/**
 * The admin management page: the club assignment kept while the form is
 * open and the store call its submit makes.
 */
module AdminManagementPage {
  import opened Wrappers
  import opened Types
  import Text
  import opened AppStore

  const DefaultPassword := "defaultPassword123"

  /** The store call a submit makes. */
  datatype AdminCall = CallUpdateAdmin(adminId: string, form: AdminForm) | CallAddAdmin(form: AdminForm)

  /** The call, and the club selection left behind (always cleared). */
  datatype Submission = Submission(call: AdminCall, selectionAfter: seq<string>)

  /** Opening an admin for editing preselects their clubs, or none. */
  function PreloadedClubs(u: User): seq<string>
  {
    u.clubIds.GetOr([])
  }

  /**
   * The payload carries the checkbox selection as `clubIds`. An edit sends
   * it as it stands; a new admin also gets the entered password, or the
   * default one when the field is empty or missing.
   */
  function SubmitAdmin(data: AdminForm, selectedClubs: seq<string>, editing: Option<string>): Submission
  {
    var adminData := data.(clubIds := Some(selectedClubs));
    if editing.Some? then Submission(CallUpdateAdmin(editing.value, adminData), [])
    else Submission(CallAddAdmin(adminData.(password := Some(Text.OrElse(data.password, DefaultPassword)))), [])
  }

  /**
   * Whatever the path: the submitted club ids are the selection and the
   * selection is cleared. A new admin never lacks a password and keeps a
   * non-empty entered one; an edit passes the password field through untouched.
   */
  lemma SubmitAdminPayload(data: AdminForm, selectedClubs: seq<string>, editing: Option<string>)
    ensures SubmitAdmin(data, selectedClubs, editing).call.form.clubIds == Some(selectedClubs)
    ensures SubmitAdmin(data, selectedClubs, editing).selectionAfter == []
    ensures editing.Some? <==> SubmitAdmin(data, selectedClubs, editing).call.CallUpdateAdmin?
    ensures editing.Some? ==> SubmitAdmin(data, selectedClubs, editing).call.adminId == editing.value
    ensures editing.Some? ==> SubmitAdmin(data, selectedClubs, editing).call.form.password == data.password
    ensures editing.None? && (data.password.None? || data.password.value == "") ==>
      SubmitAdmin(data, selectedClubs, editing).call.form.password == Some(DefaultPassword)
    ensures editing.None? && data.password.Some? && data.password.value != "" ==>
      SubmitAdmin(data, selectedClubs, editing).call.form.password == data.password
    ensures var f := SubmitAdmin(data, selectedClubs, editing).call.form;
      f.name == data.name && f.email == data.email && f.phone == data.phone && f.role == data.role
  {
  }

  /**
   * Through the store: a created admin has a non-empty password and the
   * selected clubs; an edit that leaves the password out keeps the stored one.
   */
  lemma SubmittedAdminInStore(data: AdminForm, selectedClubs: seq<string>, existing: User, id: string, now: string)
    ensures var u := NewAdmin(SubmitAdmin(data, selectedClubs, None).call.form, id, now);
      u.password.Some? && u.password.value != "" && u.clubIds == Some(selectedClubs) && u.username == data.email
    ensures data.password.None? ==>
      OverlayAdmin(existing, SubmitAdmin(data, selectedClubs, Some(id)).call.form, id, now).password == existing.password
    ensures OverlayAdmin(existing, SubmitAdmin(data, selectedClubs, Some(id)).call.form, id, now).clubIds == Some(selectedClubs)
  {
  }
}
