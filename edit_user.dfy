/** screens/EditUser.js: the older user editor, with a single optional password. */
module EditUser {
  import opened Forms

  /** The shortest accepted password. */
  const MinPasswordLength: nat := 6

  datatype Rejection = InvalidFields

  /** `handleSave`'s decision: name and email required, a non-empty password at
      least 6 characters long; the body is `{name, email}` plus `password` when
      one was typed. */
  function SaveDecision(name: string, email: string, password: string): Decision<Rejection> {
    if !Filled(name) || !Filled(email) || (Filled(password) && |password| < MinPasswordLength) then
      Reject(InvalidFields)
    else if Filled(password) then Send(map["name" := name, "email" := email, "password" := password])
    else Send(map["name" := name, "email" := email])
  }

  /** Rejected exactly for a missing name or email or a 1-to-5-character
      password; an empty password is accepted and not sent; a longer one is sent
      under `password`, with no current password asked for. */
  lemma SaveRules(name: string, email: string, password: string)
    ensures SaveDecision(name, email, password).Reject? <==> name == "" || email == "" || 0 < |password| < 6
    ensures SaveDecision(name, email, password).Send? ==>
              var p := SaveDecision(name, email, password).payload;
              && p["name"] == name && p["email"] == email
              && (password == "" ==> p.Keys == {"name", "email"})
              && (password != "" ==> p.Keys == {"name", "email", "password"} && p["password"] == password)
  {
  }

  class Screen {
    var name: string
    var email: string
    var password: string
    var loading: bool
    var sent: seq<Payload>

    constructor (name: string, email: string)
      ensures this.name == name && this.email == email && password == "" && !loading && sent == []
    {
      this.name, this.email := name, email;
      password, loading, sent := "", false, [];
    }

    /** `handleSave`: validate, build `updatedData`, add the password when
      typed, send; the loading flag is raised for the request and lowered after. */
    method HandleSave() returns (decision: Decision<Rejection>)
      modifies this
      ensures decision == SaveDecision(name, email, password)
      ensures name == old(name) && email == old(email) && password == old(password)
      ensures sent == old(sent) + (if decision.Send? then [decision.payload] else [])
      ensures loading == (decision.Reject? && old(loading))
    {
      if !Filled(name) || !Filled(email) || (Filled(password) && |password| < MinPasswordLength) {
        return Reject(InvalidFields);
      }
      loading := true;
      var updatedData: Payload := map["name" := name, "email" := email];
      if Filled(password) {
        updatedData := updatedData["password" := password];
      }
      sent := sent + [updatedData];
      loading := false;
      decision := Send(updatedData);
    }
  }
}
