/** The client-side session (src/store/useAuthStore.ts): the signed-in user,
    or none, and the flag saying whether someone is signed in. The random
    identifier generator and the clock are parameters. */
module AuthStore {
  import opened Common
  import opened Model

  /** `Partial<User>`: the fields a profile update copies over. Setting
      `avatar` may also clear it, hence the nested option. */
  datatype UserPatch = UserPatch(
    id: Option<string>,
    name: Option<string>,
    email: Option<string>,
    avatar: Option<Option<string>>,
    createdAt: Option<int>)

  /** `{ ...user, ...patch }` */
  function MergeUser(u: User, patch: UserPatch): User {
    User(patch.id.GetOr(u.id), patch.name.GetOr(u.name), patch.email.GetOr(u.email),
         patch.avatar.GetOr(u.avatar), patch.createdAt.GetOr(u.createdAt))
  }

  /** A patch that only names a new name. */
  function NamePatch(name: string): UserPatch {
    UserPatch(None, Some(name), None, None, None)
  }

  /** Renaming changes the name and nothing else of the user. */
  lemma NamePatchOnlyRenames(u: User, name: string)
    ensures MergeUser(u, NamePatch(name)) == u.(name := name)
  {
  }

  /** Applying the same patch twice is applying it once. */
  lemma MergeUserIdempotent(u: User, patch: UserPatch)
    ensures MergeUser(MergeUser(u, patch), patch) == MergeUser(u, patch)
  {
  }

  /** The record `signup` installs: a fresh id, the given name and email, no
      avatar, created now. */
  function NewUser(name: string, email: string, generatedId: string, now: int): User {
    User(generatedId, name, email, None, now)
  }

  class AuthStore {
    var user: Option<User>
    var isAuthenticated: bool

    /** Someone is signed in exactly when there is a user record. */
    predicate Valid()
      reads this
    {
      isAuthenticated <==> user.Some?
    }

    constructor ()
      ensures user == None && !isAuthenticated
      ensures Valid()
    {
      user, isAuthenticated := None, false;
    }

    method Login(u: User)
      modifies this
      ensures user == Some(u) && isAuthenticated
      ensures Valid()
    {
      user, isAuthenticated := Some(u), true;
    }

    method Signup(name: string, email: string, generatedId: string, now: int)
      modifies this
      ensures user == Some(NewUser(name, email, generatedId, now)) && isAuthenticated
      ensures Valid()
    {
      user, isAuthenticated := Some(NewUser(name, email, generatedId, now)), true;
    }

    method Logout()
      modifies this
      ensures user == None && !isAuthenticated
      ensures Valid()
    {
      user, isAuthenticated := None, false;
    }

    /** Only `user` is written; signed out, it stays empty. */
    method UpdateProfile(patch: UserPatch)
      modifies this`user
      ensures old(user).Some? ==> user == Some(MergeUser(old(user).value, patch))
      ensures old(user).None? ==> user == None
      ensures isAuthenticated == old(isAuthenticated)
      ensures Valid() <==> old(Valid())
    {
      user := if user.Some? then Some(MergeUser(user.value, patch)) else None;
    }
  }
}
