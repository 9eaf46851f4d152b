/**
 * The registration handler (`POST /api/auth/register`): input checks in a
 * fixed order, then an email-uniqueness check against the user store, then
 * the creation of a non-administrator user. The store is keyed by email, the
 * column the database keeps unique.
 */
module Registration {
  import opened Wrappers

  const MIN_PASSWORD_LENGTH: nat := 6

  datatype User = User(id: string, email: string, passwordHash: string, name: string, isAdmin: bool)

  datatype RegisterError = MissingFields | PasswordTooShort | EmailTaken

  /** 201 on creation; every rejection is answered 400. */
  datatype RegisterOutcome = Created(user: User) | Rejected(error: RegisterError)

  /** JavaScript truthiness of a body field: present and not the empty string. */
  predicate Present(field: Option<string>)
  {
    field.Some? && field.value != ""
  }

  /**
   * The checks that need no store access: missing fields first, then the
   * password length. They can never report a taken email.
   */
  function Validate(email: Option<string>, password: Option<string>, name: Option<string>): (e: Option<RegisterError>)
    ensures e == Some(MissingFields) <==> !Present(email) || !Present(password) || !Present(name)
    ensures e == Some(PasswordTooShort) <==>
              Present(email) && Present(password) && Present(name) && |password.value| < MIN_PASSWORD_LENGTH
    ensures e.None? <==>
              Present(email) && Present(password) && Present(name) && |password.value| >= MIN_PASSWORD_LENGTH
  {
    if !Present(email) || !Present(password) || !Present(name) then Some(MissingFields)
    else if |password.value| < MIN_PASSWORD_LENGTH then Some(PasswordTooShort)
    else None
  }

  /** The persisted users, keyed by their (unique) email. */
  class UserStore {
    var users: map<string, User>

    /** Each user is filed under its own email. */
    ghost predicate Valid()
      reads this
    {
      forall e :: e in users ==> users[e].email == e
    }

    constructor ()
      ensures Valid() && users == map[]
    {
      users := map[];
    }

    /**
     * Registers a user. `id` is the identifier the database assigns to a new
     * row and `hash` stands for the password hasher.
     */
    method Register(email: Option<string>, password: Option<string>, name: Option<string>,
                    id: string, hash: string -> string)
      returns (o: RegisterOutcome)
      requires Valid()
      modifies this
      ensures Valid()
      ensures Validate(email, password, name).Some? ==>
                o == Rejected(Validate(email, password, name).value) && users == old(users)
      ensures Validate(email, password, name).None? && email.value in old(users) ==>
                o == Rejected(EmailTaken) && users == old(users)
      ensures o.Created? <==> Validate(email, password, name).None? && email.value !in old(users)
      ensures o.Created? ==>
                && o.user == User(id, email.value, hash(password.value), name.value, false)
                && users == old(users)[email.value := o.user]
                && |users| == |old(users)| + 1
    {
      var invalid := Validate(email, password, name);
      if invalid.Some? {
        return Rejected(invalid.value);
      }
      if email.value in users {
        return Rejected(EmailTaken);
      }
      var user := User(id, email.value, hash(password.value), name.value, false);
      assert (users[email.value := user]).Keys == users.Keys + {email.value};
      users := users[email.value := user];
      o := Created(user);
    }
  }

  /** Two registrations with the same email: the second is refused and adds nothing. */
  method RegisterTwice(store: UserStore, email: string, password: string, name: string,
                       id1: string, id2: string, hash: string -> string)
    requires store.Valid() && email !in store.users
    requires email != "" && name != "" && |password| >= MIN_PASSWORD_LENGTH
    modifies store
    ensures store.Valid() && |store.users| == |old(store.users)| + 1
    ensures email in store.users && store.users[email].id == id1 && !store.users[email].isAdmin
  {
    var first := store.Register(Some(email), Some(password), Some(name), id1, hash);
    assert first.Created?;
    var second := store.Register(Some(email), Some(password), Some(name), id2, hash);
    assert second == Rejected(EmailTaken);
  }
}
