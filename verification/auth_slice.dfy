/**
 * The session slice of the store (src/store/slices/authSlice.ts): who is
 * signed in, with which tokens, and the reducers of login, OTP login,
 * token refresh, restore-from-storage and logout.
 */
module AuthSlice {
  import opened Wrappers
  import opened Types

  /**
   * The session a successful login (password or OTP) returns. The user may
   * be null in a reply; it is then installed as no user, and stored as the
   * text `"null"`.
   */
  datatype Session = Session(user: Option<User>, token: string, refreshToken: string)

  /** A refreshed token pair. */
  datatype TokenPair = TokenPair(token: string, refreshToken: string)

  /**
   * What `loadStoredAuth` resolves with when credentials were found. The
   * refresh token may be missing, and the user is `None` when the stored
   * text is `"null"` (a login reply without a user serializes to that).
   */
  datatype StoredSession = StoredSession(user: Option<User>, token: string, refreshToken: Option<string>)

  /**
   * The presence check of `loadStoredAuth`: credentials are restored only
   * when both the token and the serialized user are present and non-empty
   * (an empty string is falsy); the refresh token is passed on as found.
   * `parse` stands for `JSON.parse` of the stored user; it yields `None`
   * for the text `"null"`, which is truthy and so passes the check.
   */
  function RestoreSession(token: Option<string>, refreshToken: Option<string>, userData: Option<string>,
                          parse: string -> Option<User>): (r: Option<StoredSession>)
    ensures r.Some? <==> token.Some? && token.value != "" && userData.Some? && userData.value != ""
    ensures r.Some? ==> r.value.token == token.value && r.value.refreshToken == refreshToken &&
                        r.value.user == parse(userData.value)
  {
    if token.Some? && token.value != "" && userData.Some? && userData.value != ""
    then Some(StoredSession(parse(userData.value), token.value, refreshToken))
    else None
  }

  /**
   * A user stored as the text `"null"` still passes the presence check: the
   * restored session has the token but no user, and loading it signs in.
   */
  lemma StoredNullUserRestoresWithoutUser(t: string, refreshToken: Option<string>, parse: string -> Option<User>)
    requires t != "" && parse("null") == None
    ensures RestoreSession(Some(t), refreshToken, Some("null"), parse) == Some(StoredSession(None, t, refreshToken))
  {
  }

  /** `Partial<User>`: a field is `None` when the payload does not mention it. */
  datatype UserPatch = UserPatch(
    id: Option<string>,
    name: Option<string>,
    email: Option<string>,
    phone: Option<string>,
    avatar: Option<Option<string>>,
    vehicleType: Option<VehicleType>,
    isOnline: Option<bool>,
    rating: Option<real>,
    totalDeliveries: Option<int>)

  const EmptyPatch: UserPatch := UserPatch(None, None, None, None, None, None, None, None, None)

  /** The patch that mentions every field of `u`. */
  function FullPatch(u: User): UserPatch {
    UserPatch(Some(u.id), Some(u.name), Some(u.email), Some(u.phone), Some(u.avatar),
              Some(u.vehicleType), Some(u.isOnline), Some(u.rating), Some(u.totalDeliveries))
  }

  /** `{ ...user, ...patch }`: the fields the patch mentions win, the rest are kept. */
  function MergeUser(u: User, p: UserPatch): (r: User)
    ensures FullPatch(r) == CombinePatches(FullPatch(u), p)
  {
    User(p.id.GetOr(u.id), p.name.GetOr(u.name), p.email.GetOr(u.email), p.phone.GetOr(u.phone),
         p.avatar.GetOr(u.avatar), p.vehicleType.GetOr(u.vehicleType), p.isOnline.GetOr(u.isOnline),
         p.rating.GetOr(u.rating), p.totalDeliveries.GetOr(u.totalDeliveries))
  }

  /** `{ ...p, ...q }` on two patches. */
  function CombinePatches(p: UserPatch, q: UserPatch): UserPatch {
    UserPatch(
      if q.id.Some? then q.id else p.id,
      if q.name.Some? then q.name else p.name,
      if q.email.Some? then q.email else p.email,
      if q.phone.Some? then q.phone else p.phone,
      if q.avatar.Some? then q.avatar else p.avatar,
      if q.vehicleType.Some? then q.vehicleType else p.vehicleType,
      if q.isOnline.Some? then q.isOnline else p.isOnline,
      if q.rating.Some? then q.rating else p.rating,
      if q.totalDeliveries.Some? then q.totalDeliveries else p.totalDeliveries)
  }

  /** A patch that mentions nothing keeps the user; one that mentions everything replaces it. */
  lemma MergeExtremes(u: User, v: User)
    ensures MergeUser(u, EmptyPatch) == u
    ensures MergeUser(u, FullPatch(v)) == v
  {
  }

  /** Two profile updates in a row are one update with the later payload winning; repeating one changes nothing. */
  lemma MergeComposes(u: User, p: UserPatch, q: UserPatch)
    ensures MergeUser(MergeUser(u, p), q) == MergeUser(u, CombinePatches(p, q))
    ensures MergeUser(MergeUser(u, p), p) == MergeUser(u, p)
  {
  }

  class AuthState {
    var user: Option<User>
    var token: Option<string>
    var refreshToken: Option<string>
    var isAuthenticated: bool
    var isLoading: bool

    /**
     * A signed-in session always has a token. It need not have a user: a
     * stored `"null"` user is restored as a signed-in session without one.
     */
    ghost predicate Valid()
      reads this
    {
      isAuthenticated ==> token.Some?
    }

    /** `initialState`: nobody signed in, no tokens, idle. */
    constructor ()
      ensures Valid()
      ensures user == None && token == None && refreshToken == None && !isAuthenticated && !isLoading
    {
      user := None;
      token := None;
      refreshToken := None;
      isAuthenticated := false;
      isLoading := false;
    }

    /** `clearAuthError`: despite its name it only stops the loading indicator. */
    method ClearAuthError()
      requires Valid()
      modifies this
      ensures Valid()
      ensures !isLoading
      ensures user == old(user) && token == old(token) && refreshToken == old(refreshToken)
      ensures isAuthenticated == old(isAuthenticated)
    {
      isLoading := false;
    }

    /**
     * `updateUserProfile` (state part): with a signed-in user the payload's
     * fields are merged over it; without one nothing changes.
     */
    method UpdateUserProfile(patch: UserPatch)
      requires Valid()
      modifies this
      ensures Valid()
      ensures old(user).Some? ==> user == Some(MergeUser(old(user).value, patch))
      ensures old(user).None? ==> user == None
      ensures token == old(token) && refreshToken == old(refreshToken)
      ensures isAuthenticated == old(isAuthenticated) && isLoading == old(isLoading)
    {
      if user.Some? {
        user := Some(MergeUser(user.value, patch));
      }
    }

    /** `loginUser.pending` and `loginWithOTP.pending`. */
    method LoginPending()
      requires Valid()
      modifies this
      ensures Valid()
      ensures isLoading
      ensures user == old(user) && token == old(token) && refreshToken == old(refreshToken)
      ensures isAuthenticated == old(isAuthenticated)
    {
      isLoading := true;
    }

    /**
     * `loginUser.fulfilled` and `loginWithOTP.fulfilled` (the same code):
     * stops loading; a successful response carrying a session installs its
     * user and both tokens and marks the session signed in. Any other
     * response leaves the credentials and the signed-in flag as they were.
     */
    method LoginFulfilled(response: ApiResponse<Session>)
      requires Valid()
      modifies this
      ensures Valid()
      ensures !isLoading
      ensures response.success && response.data.Some? ==>
                var s := response.data.value;
                user == s.user && token == Some(s.token) && refreshToken == Some(s.refreshToken) &&
                isAuthenticated
      ensures !(response.success && response.data.Some?) ==>
                user == old(user) && token == old(token) && refreshToken == old(refreshToken) &&
                isAuthenticated == old(isAuthenticated)
    {
      isLoading := false;
      if response.success && response.data.Some? {
        var s := response.data.value;
        user := s.user;
        token := Some(s.token);
        refreshToken := Some(s.refreshToken);
        isAuthenticated := true;
      }
    }

    /**
     * `loginUser.rejected` and `loginWithOTP.rejected`: stops loading and
     * signs out, but leaves the stored user and tokens in place.
     */
    method LoginRejected()
      requires Valid()
      modifies this
      ensures Valid()
      ensures !isLoading && !isAuthenticated
      ensures user == old(user) && token == old(token) && refreshToken == old(refreshToken)
    {
      isLoading := false;
      isAuthenticated := false;
    }

    /**
     * `loadStoredAuth.fulfilled`: restored credentials are installed and the
     * session is marked signed in; a null payload changes nothing.
     */
    method LoadStoredAuthFulfilled(payload: Option<StoredSession>)
      requires Valid()
      modifies this
      ensures Valid()
      ensures payload.Some? ==>
                user == payload.value.user && token == Some(payload.value.token) &&
                refreshToken == payload.value.refreshToken && isAuthenticated
      ensures payload.None? ==>
                user == old(user) && token == old(token) && refreshToken == old(refreshToken) &&
                isAuthenticated == old(isAuthenticated)
      ensures isLoading == old(isLoading)
    {
      if payload.Some? {
        user := payload.value.user;
        token := Some(payload.value.token);
        refreshToken := payload.value.refreshToken;
        isAuthenticated := true;
      }
    }

    /**
     * `refreshAuthToken.fulfilled`: a successful response carrying tokens
     * replaces both tokens; the user and the signed-in flag are kept.
     */
    method RefreshTokenFulfilled(response: ApiResponse<TokenPair>)
      requires Valid()
      modifies this
      ensures Valid()
      ensures response.success && response.data.Some? ==>
                token == Some(response.data.value.token) && refreshToken == Some(response.data.value.refreshToken)
      ensures !(response.success && response.data.Some?) ==>
                token == old(token) && refreshToken == old(refreshToken)
      ensures user == old(user) && isAuthenticated == old(isAuthenticated) && isLoading == old(isLoading)
    {
      if response.success && response.data.Some? {
        token := Some(response.data.value.token);
        refreshToken := Some(response.data.value.refreshToken);
      }
    }

    /** `logoutUser.fulfilled`: every field goes back to its initial value. */
    method LogoutFulfilled()
      requires Valid()
      modifies this
      ensures Valid()
      ensures user == None && token == None && refreshToken == None && !isAuthenticated && !isLoading
    {
      user := None;
      token := None;
      refreshToken := None;
      isAuthenticated := false;
      isLoading := false;
    }
  }
}
