/** The credentials provider of auth.ts: the user lookup and the `authorize`
    chain. The email syntax check and the bcrypt comparison are parameters
    (`isEmail`, `hashMatches`); `fault` stands for a datastore failure. */
module Auth {
  import opened Schema

  const MinPasswordLength := 6
  const FetchUserFailed := "Failed to fetch user."

  /** The submitted credentials object. */
  datatype Credentials = Credentials(email: FieldValue, password: FieldValue)

  /** The schema check of `authorize`: both entries are strings, the email is
      well formed and the password has at least six characters. */
  function ParseCredentials(c: Credentials, isEmail: string -> bool): (r: Option<(string, string)>)
    ensures r.Some? <==>
              c.email.Text? && isEmail(c.email.text) &&
              c.password.Text? && |c.password.text| >= MinPasswordLength
    ensures r.Some? ==> r.value == (c.email.text, c.password.text)
  {
    match (c.email, c.password)
    case (Text(email), Text(password)) =>
      if isEmail(email) && |password| >= MinPasswordLength then Some((email, password)) else None
    case _ => None
  }

  /** The users table lookup on its unique email column. */
  function FindByEmail(users: seq<User>, email: string): (r: Option<User>)
    ensures r.Some? ==> r.value in users && r.value.email == email
    ensures r.None? <==> forall u :: u in users ==> u.email != email
    decreases |users|
  {
    if users == [] then None
    else if users[0].email == email then Some(users[0])
    else FindByEmail(users[1..], email)
  }

  /** Emails are unique in the users table. */
  ghost predicate UniqueEmails(users: seq<User>) {
    forall i, j :: 0 <= i < j < |users| ==> users[i].email != users[j].email
  }

  /** With unique emails the lookup yields the one user that has the email. */
  lemma FindByEmailUnique(users: seq<User>, email: string, u: User)
    requires UniqueEmails(users)
    requires u in users && u.email == email
    ensures FindByEmail(users, email) == Some(u)
  {
  }

  /** `getUser`: the record with that email, none, or the thrown
      "Failed to fetch user." on a datastore failure. */
  function GetUser(users: seq<User>, email: string, fault: bool): (r: Outcome<Option<User>>)
    ensures r.Raised? <==> fault
    ensures r.Raised? ==> r.message == FetchUserFailed
    ensures r.Ok? ==> (r.value.Some? ==> r.value.value in users && r.value.value.email == email)
    ensures r.Ok? ==> (r.value.None? <==> forall u :: u in users ==> u.email != email)
  {
    if fault then Raised(FetchUserFailed) else Ok(FindByEmail(users, email))
  }

  /** `authorize`: the signed-in user, `null` (None) for any credential
      failure, or the lookup's error when the datastore fails. */
  function Authorize(c: Credentials, users: seq<User>, fault: bool,
                     isEmail: string -> bool, hashMatches: (string, string) -> bool): (r: Outcome<Option<User>>)
    ensures ParseCredentials(c, isEmail).None? ==> r == Ok(None)
    ensures r.Raised? <==> ParseCredentials(c, isEmail).Some? && fault
    ensures r.Raised? ==> r.message == FetchUserFailed
    ensures r.Ok? && r.value.Some? <==>
              ParseCredentials(c, isEmail).Some? && !fault &&
              (exists u :: u in users && u.email == c.email.text) &&
              hashMatches(c.password.text, FindByEmail(users, c.email.text).value.password)
    ensures r.Ok? && r.value.Some? ==>
              r.value.value in users && r.value.value.email == c.email.text &&
              hashMatches(c.password.text, r.value.value.password)
  {
    match ParseCredentials(c, isEmail)
    case None => Ok(None)
    case Some((email, password)) =>
      match GetUser(users, email, fault)
      case Raised(message) => Raised(message)
      case Ok(None) => Ok(None)
      case Ok(Some(user)) =>
        if hashMatches(password, user.password) then Ok(Some(user)) else Ok(None)
  }

  /** A failing syntax check short-circuits: the outcome does not depend on
      the users table, the datastore or the hash comparison. */
  lemma RejectedBeforeLookup(c: Credentials, users1: seq<User>, users2: seq<User>, fault1: bool, fault2: bool,
                             isEmail: string -> bool, match1: (string, string) -> bool, match2: (string, string) -> bool)
    requires ParseCredentials(c, isEmail).None?
    ensures Authorize(c, users1, fault1, isEmail, match1) == Authorize(c, users2, fault2, isEmail, match2) == Ok(None)
  {
  }

  /** A signed-in user is the one record with the submitted email. */
  lemma SignedInIsTheAccount(c: Credentials, users: seq<User>, isEmail: string -> bool,
                             hashMatches: (string, string) -> bool, u: User)
    requires UniqueEmails(users)
    requires u in users && c.email == Text(u.email)
    requires Authorize(c, users, false, isEmail, hashMatches).Ok?
    requires Authorize(c, users, false, isEmail, hashMatches).value.Some?
    ensures Authorize(c, users, false, isEmail, hashMatches).value.value == u
  {
  }
}
