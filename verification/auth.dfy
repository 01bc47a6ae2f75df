/**
 * The authentication provider: the signed-in user and token, kept in
 * component state and mirrored in the browser's storage under the keys
 * "user" and "token". Server replies are inputs.
 */
module Auth {
  import opened Wrappers
  import opened Api

  datatype User = User(
    id: int,
    username: string,
    email: Option<string>,
    firstName: Option<string>,
    secondName: Option<string>,
    profileImage: Option<string>,
    description: Option<string>,
    bio: Option<string>,
    likesCount: Option<int>)

  /** A `Partial<User>`: `Some` for each key the object carries. */
  datatype UserPatch = UserPatch(
    id: Option<int>,
    username: Option<string>,
    email: Option<string>,
    firstName: Option<string>,
    secondName: Option<string>,
    profileImage: Option<string>,
    description: Option<string>,
    bio: Option<string>,
    likesCount: Option<int>)

  const EmptyPatch := UserPatch(None, None, None, None, None, None, None, None, None)

  /** A value in `p` if it carries the key, else the optional field kept from the user. */
  function Overlay<T>(kept: Option<T>, p: Option<T>): (r: Option<T>)
    ensures p.Some? ==> r == p
    ensures p.None? ==> r == kept
  {
    if p.Some? then p else kept
  }

  /** `{ ...u, ...p }`: every key `p` carries wins, every other field of `u` is kept. */
  function Merge(u: User, p: UserPatch): (r: User)
    ensures r.id == p.id.GetOr(u.id) && r.username == p.username.GetOr(u.username)
    ensures r.email == Overlay(u.email, p.email) && r.firstName == Overlay(u.firstName, p.firstName)
    ensures r.secondName == Overlay(u.secondName, p.secondName)
    ensures r.profileImage == Overlay(u.profileImage, p.profileImage)
    ensures r.description == Overlay(u.description, p.description) && r.bio == Overlay(u.bio, p.bio)
    ensures r.likesCount == Overlay(u.likesCount, p.likesCount)
  {
    User(p.id.GetOr(u.id), p.username.GetOr(u.username), Overlay(u.email, p.email),
         Overlay(u.firstName, p.firstName), Overlay(u.secondName, p.secondName),
         Overlay(u.profileImage, p.profileImage), Overlay(u.description, p.description),
         Overlay(u.bio, p.bio), Overlay(u.likesCount, p.likesCount))
  }

  /** Overlaying nothing changes nothing, and overlaying the same patch twice is overlaying it once. */
  lemma MergeLaws(u: User, p: UserPatch)
    ensures Merge(u, EmptyPatch) == u
    ensures Merge(Merge(u, p), p) == Merge(u, p)
  {
  }

  /** The body of a successful login response. */
  datatype LoginReply = LoginReply(token: string, user: User)

  const LoginDefaultMessage := "Login eerror"
  const SignupDefaultMessage := "Registration error"

  class AuthProvider {
    var user: Option<User>
    var token: Option<string>
    /** The storage entries "token" and "user" (the latter holds the serialised user). */
    var savedToken: Option<string>
    var savedUser: Option<User>

    /** `isAuthenticated`: a user and a non-empty token. */
    predicate IsAuthenticated()
      reads this
    {
      user.Some? && token.Some? && token.value != ""
    }

    /** The stored entries mirror the state. */
    predicate InSync()
      reads this
    {
      savedToken == token && savedUser == user
    }

    /** The initial state read from storage; an empty stored token counts as none. */
    constructor (storedToken: Option<string>, storedUser: Option<User>)
      ensures savedToken == storedToken && savedUser == storedUser
      ensures user == storedUser
      ensures token == if storedToken == Some("") then None else storedToken
      ensures token.Some? ==> token.value != ""
    {
      savedToken, savedUser := storedToken, storedUser;
      user := storedUser;
      token := if storedToken == Some("") then None else storedToken;
    }

    /** `login(email, password)` given the server's reply. */
    method Login(reply: Result<LoginReply, RequestError>) returns (r: Result<(), string>)
      modifies this
      ensures reply.Ok? ==>
        && r.Ok? && InSync()
        && token == Some(reply.value.token) && user == Some(reply.value.user)
        && (IsAuthenticated() <==> reply.value.token != "")
      ensures reply.Err? ==>
        && r == Err(ServerMessageOr(reply.error, LoginDefaultMessage))
        && user == old(user) && token == old(token)
        && savedToken == old(savedToken) && savedUser == old(savedUser)
    {
      if reply.Ok? {
        savedToken := Some(reply.value.token);
        savedUser := Some(reply.value.user);
        token := Some(reply.value.token);
        user := Some(reply.value.user);
        r := Ok(());
      } else {
        r := Err(ServerMessageOr(reply.error, LoginDefaultMessage));
      }
    }

    /** `signup(email, password)` given the server's reply: it returns the body or fails, and never signs anyone in. */
    method Signup<D>(reply: Result<D, RequestError>) returns (r: Result<D, string>)
      ensures reply.Ok? ==> r == Ok(reply.value)
      ensures reply.Err? ==> r.Err? && r.error == ServerMessageOr(reply.error, SignupDefaultMessage)
      ensures reply.Err? && ServerMessage(reply.error).None? ==> r == Err(SignupDefaultMessage)
    {
      if reply.Ok? {
        r := Ok(reply.value);
      } else {
        r := Err(ServerMessageOr(reply.error, SignupDefaultMessage));
      }
    }

    /** `logout()`: whatever the server answers, storage and state are cleared. */
    method Logout()
      modifies this
      ensures user == None && token == None && savedToken == None && savedUser == None
      ensures InSync() && !IsAuthenticated()
    {
      savedToken := None;
      savedUser := None;
      token := None;
      user := None;
    }

    /** `updateUser(data)`: overlays `data` on the current user and stores the result; without a user it does nothing. */
    method UpdateUser(data: UserPatch)
      modifies this
      ensures old(user).None? ==> user == old(user) && savedUser == old(savedUser)
      ensures old(user).Some? ==> user == Some(Merge(old(user).value, data)) && savedUser == user
      ensures token == old(token) && savedToken == old(savedToken)
      ensures old(InSync()) ==> InSync()
      ensures IsAuthenticated() == old(IsAuthenticated())
    {
      if user.Some? {
        user := Some(Merge(user.value, data));
        savedUser := user;
      }
    }
  }
}
