/** screens/Usuarios/EditUser.js: an administrator edits a user, optionally
    setting a new password, which then needs the current one. */
module UsuariosEditUser {
  import opened Forms

  /** The shortest accepted new password. */
  const MinPasswordLength: nat := 6

  datatype Rejection = InvalidFields | CurrentPasswordRequired

  /** `handleSave`'s decision: name and email required and a non-empty new
      password at least 6 characters long; then a new password needs the current
      one; the body carries name and email, plus both passwords when a new one
      was typed. */
  function SaveDecision(name: string, email: string, currentPassword: string, newPassword: string): Decision<Rejection> {
    if !Filled(name) || !Filled(email) || (Filled(newPassword) && |newPassword| < MinPasswordLength) then
      Reject(InvalidFields)
    else if Filled(newPassword) && !Filled(currentPassword) then Reject(CurrentPasswordRequired)
    else if Filled(newPassword) then
      Send(map["name" := name, "email" := email, "currentPassword" := currentPassword, "newPassword" := newPassword])
    else Send(map["name" := name, "email" := email])
  }

  /** The rejections, in the order they are checked: missing name or email, or a
      new password of 1 to 5 characters; then a new password without the
      current one. */
  lemma SaveRejections(name: string, email: string, currentPassword: string, newPassword: string)
    ensures SaveDecision(name, email, currentPassword, newPassword) == Reject(InvalidFields)
            <==> name == "" || email == "" || 0 < |newPassword| < 6
    ensures SaveDecision(name, email, currentPassword, newPassword) == Reject(CurrentPasswordRequired)
            <==> name != "" && email != "" && |newPassword| >= 6 && currentPassword == ""
  {
  }

  /** What is sent: exactly `{name, email}` without a new password, and
      `{name, email, currentPassword, newPassword}` with an accepted one. */
  lemma SavePayload(name: string, email: string, currentPassword: string, newPassword: string)
    requires SaveDecision(name, email, currentPassword, newPassword).Send?
    ensures var p := SaveDecision(name, email, currentPassword, newPassword).payload;
            && p["name"] == name && p["email"] == email
            && (newPassword == "" ==> p.Keys == {"name", "email"})
            && (newPassword != "" ==>
                  |newPassword| >= 6 && currentPassword != ""
                  && p.Keys == {"name", "email", "currentPassword", "newPassword"}
                  && p["currentPassword"] == currentPassword && p["newPassword"] == newPassword)
  {
  }

  class Screen {
    var name: string
    var email: string
    var currentPassword: string
    var newPassword: string
    var loading: bool
    var sent: seq<Payload>

    constructor (name: string, email: string)
      ensures this.name == name && this.email == email && currentPassword == "" && newPassword == ""
      ensures !loading && sent == []
    {
      this.name, this.email := name, email;
      currentPassword, newPassword, loading, sent := "", "", false, [];
    }

    /** `handleSave`: the combined validation returns before the loading flag is
      raised; the current-password check returns after it is raised, and the
      `finally` lowers it again, as after a sent request. */
    method HandleSave() returns (decision: Decision<Rejection>)
      modifies this
      ensures decision == SaveDecision(name, email, currentPassword, newPassword)
      ensures name == old(name) && email == old(email)
      ensures currentPassword == old(currentPassword) && newPassword == old(newPassword)
      ensures sent == old(sent) + (if decision.Send? then [decision.payload] else [])
      ensures loading == (decision == Reject(InvalidFields) && old(loading))
    {
      if !Filled(name) || !Filled(email) || (Filled(newPassword) && |newPassword| < MinPasswordLength) {
        return Reject(InvalidFields);
      }
      loading := true;
      var updatedData: Payload := map["name" := name, "email" := email];
      if Filled(newPassword) {
        if !Filled(currentPassword) {
          loading := false;
          return Reject(CurrentPasswordRequired);
        }
        updatedData := updatedData["currentPassword" := currentPassword];
        updatedData := updatedData["newPassword" := newPassword];
      }
      sent := sent + [updatedData];
      loading := false;
      decision := Send(updatedData);
    }
  }
}
