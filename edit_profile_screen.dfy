/** screens/Usuarios/EditProfileScreen.js: the signed-in user edits their own
    profile, optionally changing their password. */
module EditProfileScreen {
  import opened Forms

  datatype Field = Name | Email | CurrentPassword | NewPassword | ConfirmPassword

  datatype ProfileForm = ProfileForm(name: string, email: string, currentPassword: string,
                                     newPassword: string, confirmPassword: string)

  function Get(form: ProfileForm, field: Field): string {
    match field
    case Name => form.name
    case Email => form.email
    case CurrentPassword => form.currentPassword
    case NewPassword => form.newPassword
    case ConfirmPassword => form.confirmPassword
  }

  /** `handleChange`: `{ ...formData, [name]: value }`. */
  function SetField(form: ProfileForm, field: Field, value: string): (r: ProfileForm)
    ensures Get(r, field) == value
    ensures forall other :: other != field ==> Get(r, other) == Get(form, other)
  {
    match field
    case Name => form.(name := value)
    case Email => form.(email := value)
    case CurrentPassword => form.(currentPassword := value)
    case NewPassword => form.(newPassword := value)
    case ConfirmPassword => form.(confirmPassword := value)
  }

  datatype Rejection = NameOrEmailMissing | PasswordsDiffer

  /** `handleSubmit`'s decision: name and email are required; a new password
      must match its confirmation; the body carries name and email, plus the
      current and new passwords when a new one was typed. */
  function SubmitDecision(form: ProfileForm): Decision<Rejection> {
    if !Filled(form.name) || !Filled(form.email) then Reject(NameOrEmailMissing)
    else if Filled(form.newPassword) && form.newPassword != form.confirmPassword then Reject(PasswordsDiffer)
    else if Filled(form.newPassword) then
      Send(map["name" := form.name, "email" := form.email,
               "currentPassword" := form.currentPassword, "newPassword" := form.newPassword])
    else Send(map["name" := form.name, "email" := form.email])
  }

  /** The rejections: a missing name or email first; then, only for a non-empty
      new password, a mismatch with the confirmation. */
  lemma SubmitRejections(form: ProfileForm)
    ensures SubmitDecision(form) == Reject(NameOrEmailMissing) <==> form.name == "" || form.email == ""
    ensures SubmitDecision(form) == Reject(PasswordsDiffer)
            <==> form.name != "" && form.email != "" && form.newPassword != ""
                 && form.newPassword != form.confirmPassword
    ensures form.newPassword == "" && form.name != "" && form.email != "" ==> SubmitDecision(form).Send?
  {
  }

  /** What is sent: exactly `{name, email}` without a new password; with one,
      also the current password (which may be empty) and the new one; the
      confirmation is never sent. */
  lemma SubmitPayload(form: ProfileForm)
    requires SubmitDecision(form).Send?
    ensures var p := SubmitDecision(form).payload;
            && p["name"] == form.name && p["email"] == form.email
            && (form.newPassword == "" ==> p.Keys == {"name", "email"})
            && (form.newPassword != "" ==>
                  p.Keys == {"name", "email", "currentPassword", "newPassword"}
                  && p["currentPassword"] == form.currentPassword && p["newPassword"] == form.newPassword
                  && form.newPassword == form.confirmPassword)
            && "confirmPassword" !in p
  {
  }

  class Screen {
    var formData: ProfileForm
    var loading: bool
    var sent: seq<Payload>

    constructor (name: string, email: string)
      ensures formData == ProfileForm(name, email, "", "", "") && !loading && sent == []
    {
      formData := ProfileForm(name, email, "", "", "");
      loading, sent := false, [];
    }

    method HandleChange(field: Field, value: string)
      modifies this
      ensures formData == SetField(old(formData), field, value)
      ensures loading == old(loading) && sent == old(sent)
    {
      formData := SetField(formData, field, value);
    }

    /** `handleSubmit`: validate, then build `updateData` field by field and send
      it; the loading flag is raised for the request and lowered afterwards. */
    method HandleSubmit() returns (decision: Decision<Rejection>)
      modifies this
      ensures decision == SubmitDecision(formData)
      ensures formData == old(formData)
      ensures sent == old(sent) + (if decision.Send? then [decision.payload] else [])
      ensures loading == (decision.Reject? && old(loading))
    {
      if !Filled(formData.name) || !Filled(formData.email) {
        return Reject(NameOrEmailMissing);
      }
      if Filled(formData.newPassword) && formData.newPassword != formData.confirmPassword {
        return Reject(PasswordsDiffer);
      }
      loading := true;
      var updateData: Payload := map["name" := formData.name, "email" := formData.email];
      if Filled(formData.newPassword) {
        updateData := updateData["currentPassword" := formData.currentPassword];
        updateData := updateData["newPassword" := formData.newPassword];
      }
      sent := sent + [updateData];
      loading := false;
      decision := Send(updateData);
    }
  }
}
