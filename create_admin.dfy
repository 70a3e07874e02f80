/** The admin-management page: the new-admin form with its field updates and its validation,
    the submit that creates an admin, and the rule that guards the delete button. */
module CreateAdmin {
  import opened Wrappers
  import opened JsText

  /** The four fields of the new-admin form. */
  datatype Field = Name | Email | Role | Password

  datatype AdminForm = AdminForm(name: string, email: string, role: string, password: string)

  /** The form as the dialog first shows it, and as it is reset after a creation: every field
      empty except the role, which is "ADMIN". */
  const InitialForm := AdminForm("", "", "ADMIN", "")

  function FieldValue(form: AdminForm, field: Field): string {
    match field
    case Name => form.name
    case Email => form.email
    case Role => form.role
    case Password => form.password
  }

  /** `{ ...prev, [field]: value }`: the named field takes the value, the other three keep
      theirs. */
  function WithField(form: AdminForm, field: Field, value: string): (r: AdminForm)
    ensures FieldValue(r, field) == value
    ensures forall f :: f != field ==> FieldValue(r, f) == FieldValue(form, f)
  {
    match field
    case Name => form.(name := value)
    case Email => form.(email := value)
    case Role => form.(role := value)
    case Password => form.(password := value)
  }

  const AllFieldsRequired := "All fields are required"
  const PasswordTooShort := "Password must be at least 8 characters long"
  const MinPasswordLength := 8

  /** The error the submit finds in a form, if any. A missing field is reported first; only a
      form with all four fields gets its password length checked, in UTF-16 code units as
      JavaScript's `length` counts them. */
  function ValidationError(form: AdminForm): (r: Option<string>)
    ensures r == Some(AllFieldsRequired) <==> exists f :: FieldValue(form, f) == ""
    ensures r == Some(PasswordTooShort) <==>
      (forall f :: FieldValue(form, f) != "") && Utf16Length(form.password) < MinPasswordLength
    ensures r == None <==>
      (forall f :: FieldValue(form, f) != "") && Utf16Length(form.password) >= MinPasswordLength
  {
    if !Truthy(form.name) || !Truthy(form.email) || !Truthy(form.role) || !Truthy(form.password) then
      assert FieldValue(form, Name) == "" || FieldValue(form, Email) == "" || FieldValue(form, Role) == "" || FieldValue(form, Password) == "";
      Some(AllFieldsRequired)
    else if Utf16Length(form.password) < MinPasswordLength then Some(PasswordTooShort)
    else None
  }

  /** The freshly reset form is refused for its missing fields, so submitting it twice sends
      nothing. */
  lemma InitialFormIsRefused()
    ensures ValidationError(InitialForm) == Some(AllFieldsRequired)
  {
    assert FieldValue(InitialForm, Name) == "";
  }

  /** Typing a name, an e-mail and a password of at least eight code units into the initial
      form makes it acceptable: the role is already filled in. */
  lemma FilledFormIsAccepted(name: string, email: string, password: string)
    requires name != "" && email != "" && Utf16Length(password) >= MinPasswordLength
    ensures ValidationError(WithField(WithField(WithField(InitialForm, Name, name), Email, email), Password, password)) == None
  {
    var form := WithField(WithField(WithField(InitialForm, Name, name), Email, email), Password, password);
    assert form == AdminForm(name, email, "ADMIN", password);
    assert password != [];
  }

  /** What the create call answers: success, or a failure that may carry a message. */
  datatype CreateReply = Created | Failed(message: Option<string>)

  /** `err.data?.message || 'Failed to create admin'`. */
  function FailureMessage(message: Option<string>): (r: string)
    ensures r != ""
    ensures message.Some? && message.value != "" ==> r == message.value
    ensures message.None? || message.value == "" ==> r == "Failed to create admin"
  {
    if message.Some? && Truthy(message.value) then message.value else "Failed to create admin"
  }

  /** Delete is offered for an admin that is not a super admin, while no delete is in flight. */
  predicate DeleteEnabled(role: string, isDeleting: bool) {
    !(isDeleting || role == "SUPER_ADMIN")
  }

  /** A super admin can never be deleted from the page, and while a delete is in flight no
      admin can; a plain admin can otherwise. */
  lemma DeleteGuard(role: string, isDeleting: bool)
    ensures role == "SUPER_ADMIN" ==> !DeleteEnabled(role, isDeleting)
    ensures isDeleting ==> !DeleteEnabled(role, isDeleting)
    ensures role == "ADMIN" && !isDeleting ==> DeleteEnabled(role, isDeleting)
  {
  }

  /** The page's state: whether the dialog is open, the form, the error it shows, and the
      forms sent to the create endpoint so far. */
  class CreateAdminPage {
    var isDialogOpen: bool
    var form: AdminForm
    var error: string
    var sent: seq<AdminForm>

    constructor ()
      ensures !isDialogOpen && form == InitialForm && error == "" && sent == []
    {
      isDialogOpen := false;
      form := InitialForm;
      error := "";
      sent := [];
    }

    /** An edit changes only the named field and clears the error. */
    method HandleInputChange(field: Field, value: string)
      modifies this
      ensures form == WithField(old(form), field, value) && error == ""
      ensures isDialogOpen == old(isDialogOpen) && sent == old(sent)
    {
      form := WithField(form, field, value);
      error := "";
    }

    /** The submit: a form with an error shows that error and sends nothing; an acceptable form
      is sent, and then either the dialog closes and the form is reset, or the failure's
      message is shown and the form kept. */
    method HandleSubmit(reply: CreateReply)
      modifies this
      ensures ValidationError(old(form)).Some? ==>
        error == ValidationError(old(form)).value && sent == old(sent)
        && form == old(form) && isDialogOpen == old(isDialogOpen)
      ensures ValidationError(old(form)).None? ==> sent == old(sent) + [old(form)]
      ensures ValidationError(old(form)).None? && reply.Created? ==>
        !isDialogOpen && form == InitialForm && error == ""
      ensures ValidationError(old(form)).None? && reply.Failed? ==>
        error == FailureMessage(reply.message) && form == old(form) && isDialogOpen == old(isDialogOpen)
    {
      error := "";
      var problem := ValidationError(form);
      if problem.Some? {
        error := problem.value;
        return;
      }
      sent := sent + [form];
      match reply
      case Created =>
        isDialogOpen := false;
        form := InitialForm;
      case Failed(message) =>
        error := FailureMessage(message);
    }
  }
}
