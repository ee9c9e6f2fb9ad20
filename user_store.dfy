/**
 * The signed-in user: a nickname set at login and cleared at logout. Only
 * `currentUser` is persisted, so the state is that one field.
 */
module UserStore {
  import opened Wrappers
  import opened JsText

  /** `{ nickname }`. */
  datatype User = User(nickname: string)

  /** `setUser(nickname)` on the stored user: a blank nickname changes nothing, any other is stored trimmed. */
  function Login(current: Option<User>, nickname: Option<string>): (r: Option<User>)
  {
    if !Truthy(nickname) || Trim(nickname.value) == "" then current
    else Some(User(Trim(nickname.value)))
  }

  /** `user?.nickname || null`. */
  function NicknameOf(current: Option<User>): (r: Option<string>)
    ensures r.Some? ==> r.value != ""
    ensures current.None? ==> r.None?
  {
    if current.Some? && current.value.nickname != "" then Some(current.value.nickname) else None
  }

  /** The state `setUser` produces: no user, or one whose nickname is trimmed and not empty. */
  predicate WellFormed(current: Option<User>) {
    current.Some? ==> current.value.nickname != "" && Trim(current.value.nickname) == current.value.nickname
  }

  class Store {
    var currentUser: Option<User>

    constructor()
      ensures currentUser == None
    {
      currentUser := None;
    }

    /** `setUser(nickname)`. */
    method SetUser(nickname: Option<string>)
      modifies this
      ensures currentUser == Login(old(currentUser), nickname)
    {
      if !Truthy(nickname) || Trim(nickname.value) == "" {
        return;
      }
      currentUser := Some(User(Trim(nickname.value)));
    }

    /** `clearUser()`. */
    method ClearUser()
      modifies this
      ensures currentUser == None
    {
      currentUser := None;
    }

    /** `getNickname()`. */
    function GetNickname(): (r: Option<string>)
      reads this
      ensures r.Some? ==> currentUser.Some? && r.value == currentUser.value.nickname
      ensures WellFormed(currentUser) ==> (r.Some? <==> IsLoggedIn())
    {
      NicknameOf(currentUser)
    }

    /** `isLoggedIn()`: a user is stored. */
    predicate IsLoggedIn()
      reads this
    {
      currentUser.Some?
    }
  }

  // ---------------------------------------------------------------------------

  /** Trimming a trimmed string changes nothing. */
  lemma TrimIdempotent(s: string)
    ensures Trim(Trim(s)) == Trim(s)
  {
    if Trim(s) != "" {
      TrimUnchanged(Trim(s));
    }
  }

  /**
   * Logging in with a nickname that is not blank stores it trimmed, so the
   * store reports it and a user is signed in; a blank one leaves the store
   * as it was.
   */
  lemma LoginStoresTrimmed(current: Option<User>, nickname: Option<string>)
    ensures Truthy(nickname) && Trim(nickname.value) != "" ==>
              NicknameOf(Login(current, nickname)) == Some(Trim(nickname.value))
    ensures !Truthy(nickname) || Trim(nickname.value) == "" ==> Login(current, nickname) == current
  {
  }

  /** Logging in keeps the stored user well formed. */
  lemma LoginKeepsWellFormed(current: Option<User>, nickname: Option<string>)
    requires WellFormed(current)
    ensures WellFormed(Login(current, nickname))
  {
    if Truthy(nickname) && Trim(nickname.value) != "" {
      TrimIdempotent(nickname.value);
    }
  }

  /** Logging in twice with the same nickname is logging in once. */
  lemma LoginIdempotent(current: Option<User>, nickname: Option<string>)
    ensures Login(Login(current, nickname), nickname) == Login(current, nickname)
  {
  }

  /** Logging in with a stored nickname again changes nothing. */
  lemma LoginWithOwnNickname(current: Option<User>)
    requires WellFormed(current) && current.Some?
    ensures Login(current, NicknameOf(current)) == current
  {
  }
}
