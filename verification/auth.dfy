/**
 * The authentication store: the signed-in user, the session token and the two flags. Login and
 * registration are mocked (no password is checked); the simulated network delay is not modelled.
 */
module Auth {
  import opened Wrappers

  datatype User = User(id: string, email: string, name: string, phone: string, avatar: Option<string>, createdAt: string)

  /** A `Partial<User>`: a field is overwritten exactly when the patch has it. */
  datatype UserPatch = UserPatch(
    id: Option<string>, email: Option<string>, name: Option<string>, phone: Option<string>,
    avatar: Option<string>, createdAt: Option<string>)

  const EmptyPatch := UserPatch(None, None, None, None, None, None)

  const MockUserId := "1"
  const MockName := "Vikram Singh"
  const MockPhone := "+91 98765 43210"
  const MockAvatar := "/assets/avatar-male-1.svg"
  const MockToken := "mock-jwt-token"

  /** `{ ...user, ...patch }`: the patch's fields where it has them, the user's elsewhere. */
  function Merge(u: User, p: UserPatch): (r: User)
    ensures p.id.Some? ==> r.id == p.id.value
    ensures p.id.None? ==> r.id == u.id
    ensures p.email.Some? ==> r.email == p.email.value
    ensures p.email.None? ==> r.email == u.email
    ensures p.name.Some? ==> r.name == p.name.value
    ensures p.name.None? ==> r.name == u.name
    ensures p.phone.Some? ==> r.phone == p.phone.value
    ensures p.phone.None? ==> r.phone == u.phone
    ensures p.avatar.Some? ==> r.avatar == p.avatar
    ensures p.avatar.None? ==> r.avatar == u.avatar
    ensures p.createdAt.Some? ==> r.createdAt == p.createdAt.value
    ensures p.createdAt.None? ==> r.createdAt == u.createdAt
  {
    User(
      p.id.GetOr(u.id), p.email.GetOr(u.email), p.name.GetOr(u.name), p.phone.GetOr(u.phone),
      if p.avatar.Some? then p.avatar else u.avatar, p.createdAt.GetOr(u.createdAt))
  }

  /** Two patches applied in turn: the later one wins where both have a field. */
  function Then(p: UserPatch, q: UserPatch): UserPatch {
    UserPatch(
      if q.id.Some? then q.id else p.id,
      if q.email.Some? then q.email else p.email,
      if q.name.Some? then q.name else p.name,
      if q.phone.Some? then q.phone else p.phone,
      if q.avatar.Some? then q.avatar else p.avatar,
      if q.createdAt.Some? then q.createdAt else p.createdAt)
  }

  /** An empty patch changes nothing. */
  lemma MergeEmpty(u: User)
    ensures Merge(u, EmptyPatch) == u
  {
  }

  /** Applying the same patch twice is applying it once. */
  lemma MergeIdempotent(u: User, p: UserPatch)
    ensures Merge(Merge(u, p), p) == Merge(u, p)
  {
  }

  /** Two updates in a row are one update with the combined patch. */
  lemma MergeThen(u: User, p: UserPatch, q: UserPatch)
    ensures Merge(Merge(u, p), q) == Merge(u, Then(p, q))
  {
  }

  /** The user `login` creates for an e-mail address. */
  function LoginUser(email: string, createdAt: string): (u: User)
    ensures u.email == email && u.id == MockUserId && u.name == MockName && u.phone == MockPhone
    ensures u.avatar == Some(MockAvatar) && u.createdAt == createdAt
  {
    User(MockUserId, email, MockName, MockPhone, Some(MockAvatar), createdAt)
  }

  /** The user `register` creates: the given name and e-mail, an empty phone number. */
  function RegisteredUser(name: string, email: string, createdAt: string): (u: User)
    ensures u.email == email && u.name == name && u.phone == "" && u.id == MockUserId
    ensures u.avatar == Some(MockAvatar) && u.createdAt == createdAt
  {
    User(MockUserId, email, name, "", Some(MockAvatar), createdAt)
  }

  class AuthStore {
    var user: Option<User>
    var token: Option<string>
    var isAuthenticated: bool
    var isLoading: bool

    /** Signed in exactly when there is a user, and exactly when there is a token. */
    ghost predicate Valid()
      reads this
    {
      (isAuthenticated <==> user.Some?) && (isAuthenticated <==> token.Some?)
    }

    constructor ()
      ensures Valid()
      ensures user == None && token == None && !isAuthenticated && !isLoading
    {
      user := None;
      token := None;
      isAuthenticated := false;
      isLoading := false;
    }

    /** `login`: the password is accepted whatever it is; `createdAt` is the clock reading. */
    method Login(email: string, password: string, createdAt: string)
      modifies this
      ensures Valid()
      ensures user == Some(LoginUser(email, createdAt))
      ensures token == Some(MockToken) && isAuthenticated && !isLoading
    {
      isLoading := true;
      user := Some(LoginUser(email, createdAt));
      token := Some(MockToken);
      isAuthenticated := true;
      isLoading := false;
    }

    /** `register`: the password is ignored. */
    method Register(name: string, email: string, password: string, createdAt: string)
      modifies this
      ensures Valid()
      ensures user == Some(RegisteredUser(name, email, createdAt))
      ensures token == Some(MockToken) && isAuthenticated && !isLoading
    {
      isLoading := true;
      user := Some(RegisteredUser(name, email, createdAt));
      token := Some(MockToken);
      isAuthenticated := true;
      isLoading := false;
    }

    /** `logout`: `isLoading` is left as it was. */
    method Logout()
      modifies this`user, this`token, this`isAuthenticated
      ensures Valid()
      ensures user == None && token == None && !isAuthenticated
    {
      user := None;
      token := None;
      isAuthenticated := false;
    }

    /** `updateUser`: merges into a present user, keeps an absent one absent; the token and flags stay. */
    method UpdateUser(patch: UserPatch)
      requires Valid()
      modifies this`user
      ensures Valid()
      ensures old(user).None? ==> user == None
      ensures old(user).Some? ==> user == Some(Merge(old(user).value, patch))
    {
      if user.Some? {
        user := Some(Merge(user.value, patch));
      }
    }
  }
}
