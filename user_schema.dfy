/** `UserSchema`: an account, and the users collection with its unique e-mail index. */
module UserSchema {
  import opened Wrappers
  import opened SchemaTypes

  const Roles: set<string> := {"client", "chef"}

  /** A stored user; `password` holds whatever the caller stored (the server stores a hash). */
  datatype UserDoc = UserDoc(name: string, email: string, password: string, role: string)

  /** The constraints a stored user satisfies: exactly those under which no validator fails on its fields. */
  predicate Valid(u: UserDoc): (b: bool)
    ensures b <==> UserFailures(AsInput(u)) == {}
  {
    u.name != "" && u.email != "" && u.password != "" && u.role in Roles
  }

  /**
   * No two users of the collection share an e-mail (`unique: true`): equivalently, each user's
   * e-mail was not yet taken by the users stored before it, which is what the index checks on insert.
   */
  predicate UniqueEmails(users: seq<UserDoc>): (b: bool)
    ensures b <==> forall k :: 0 <= k < |users| ==> !EmailTaken(users[..k], users[k].email)
  {
    assert forall k, i :: 0 <= i < k < |users| ==> users[..k][i] == users[i];
    forall i, j :: 0 <= i < j < |users| ==> users[i].email != users[j].email
  }

  /** The fields given for a new user; any of them may be missing. */
  datatype UserInput = UserInput(name: Option<string>, email: Option<string>, password: Option<string>,
                                 role: Option<string>)

  datatype UserPath = NamePath | EmailPath | PasswordPath | RolePath

  /** Why a user could not be saved: a failed validator, or the unique index on `email`. */
  datatype SaveError = Invalid(paths: set<UserPath>) | DuplicateEmail

  function UserFailures(input: UserInput): set<UserPath>
  {
    (if RequiredString(input.name) then {} else {NamePath}) +
    (if RequiredString(input.email) then {} else {EmailPath}) +
    (if RequiredString(input.password) then {} else {PasswordPath}) +
    (if RequiredString(input.role) && input.role.value in Roles then {} else {RolePath})
  }

  predicate EmailTaken(users: seq<UserDoc>, email: string)
  {
    exists i :: 0 <= i < |users| && users[i].email == email
  }

  /** Saving a new user: validate the document, then insert it unless its e-mail is already taken. */
  function SaveUser(users: seq<UserDoc>, input: UserInput): (r: Result<seq<UserDoc>, SaveError>)
    ensures r.Failure? && r.error.Invalid? <==> UserFailures(input) != {}
    ensures r.Failure? && r.error.Invalid? ==>
      (NamePath in r.error.paths <==> !RequiredString(input.name)) &&
      (EmailPath in r.error.paths <==> !RequiredString(input.email)) &&
      (PasswordPath in r.error.paths <==> !RequiredString(input.password)) &&
      (RolePath in r.error.paths <==> !(RequiredString(input.role) && input.role.value in Roles))
    ensures r == Failure(DuplicateEmail) <==> UserFailures(input) == {} && EmailTaken(users, input.email.value)
    ensures r.Success? ==>
      r.value == users + [UserDoc(input.name.value, input.email.value, input.password.value, input.role.value)]
  {
    var failures := UserFailures(input);
    if failures != {} then Failure(Invalid(failures))
    else if EmailTaken(users, input.email.value) then Failure(DuplicateEmail)
    else Success(users + [UserDoc(input.name.value, input.email.value, input.password.value, input.role.value)])
  }

  /** Saving keeps the collection's invariant: every user valid, no e-mail twice. */
  lemma SavePreservesInvariant(users: seq<UserDoc>, input: UserInput)
    requires UniqueEmails(users) && forall i :: 0 <= i < |users| ==> Valid(users[i])
    ensures var r := SaveUser(users, input);
      r.Success? ==> UniqueEmails(r.value) && forall i :: 0 <= i < |r.value| ==> Valid(r.value[i])
  {
    var r := SaveUser(users, input);
    if r.Success? {
      var u := r.value[|users|];
      forall i | 0 <= i < |users| ensures users[i].email != u.email {
        assert !EmailTaken(users, input.email.value);
      }
    }
  }

  function AsInput(u: UserDoc): UserInput
  {
    UserInput(Some(u.name), Some(u.email), Some(u.password), Some(u.role))
  }

  /** A valid user whose e-mail is new is stored as given, at the end of the collection. */
  lemma FreshUserStored(users: seq<UserDoc>, u: UserDoc)
    requires Valid(u) && forall i :: 0 <= i < |users| ==> users[i].email != u.email
    ensures SaveUser(users, AsInput(u)) == Success(users + [u])
  {
  }
}
