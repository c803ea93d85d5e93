/** The session helpers: the token and the user kept in session storage,
    and the fetch wrapper that authorises every request and ends the
    session when the server answers 401. */
module AuthUtils {

  import opened Model

  const TokenKey: string := "token"
  const UserKey: string := "user"
  const AuthorizationHeader: string := "Authorization"
  const ContentTypeHeader: string := "Content-Type"
  const JsonContentType: string := "application/json"

  /** A stored entry: plain text (the token), or the serialised form of a
      value (the user), which parsing gives back unchanged. */
  datatype Stored<U> = Text(text: string) | Serialised(value: U)

  /** The options object passed to `fetch`: its other properties, and its
      `headers` object if it has one. */
  datatype RequestOptions = RequestOptions(fields: map<string, string>, headers: Option<map<string, string>>)

  /** `${token}`: a missing token prints as "null". */
  function TokenText(token: Option<string>): (s: string)
    ensures token.Some? ==> s == token.value
    ensures token.None? ==> s == "null"
  {
    if token.Some? then token.value else "null"
  }

  function CallerHeaders(options: RequestOptions): map<string, string> {
    if options.headers.Some? then options.headers.value else map[]
  }

  /** `{ ...options, headers: { ...options.headers, Authorization, Content-Type } }`:
      the caller's options and headers are kept, and the two forced headers
      override whatever the caller gave for them. */
  function AuthOptions(options: RequestOptions, token: Option<string>): (r: RequestOptions)
    ensures r.fields == options.fields
    ensures r.headers.Some?
    ensures r.headers.value.Keys == CallerHeaders(options).Keys + {AuthorizationHeader, ContentTypeHeader}
    ensures r.headers.value[AuthorizationHeader] == "Token " + TokenText(token)
    ensures r.headers.value[ContentTypeHeader] == JsonContentType
    ensures forall k :: k in CallerHeaders(options) && k != AuthorizationHeader && k != ContentTypeHeader ==>
              r.headers.value[k] == CallerHeaders(options)[k]
  {
    RequestOptions(options.fields, Some(CallerHeaders(options)[AuthorizationHeader := "Token " + TokenText(token)]
                                                          [ContentTypeHeader := JsonContentType]))
  }

  /** Wrapping options that are already wrapped, with the same token,
      changes nothing. */
  lemma {:induction false} AuthOptionsIdempotent(options: RequestOptions, token: Option<string>)
    ensures AuthOptions(AuthOptions(options, token), token) == AuthOptions(options, token)
  {
    var once := AuthOptions(options, token);
    var twice := AuthOptions(once, token);
    assert twice.headers.value == once.headers.value;
  }

  /** What the caller puts in the two forced headers makes no difference. */
  lemma {:induction false} ForcedHeadersWin(a: RequestOptions, b: RequestOptions, token: Option<string>)
    requires a.fields == b.fields
    requires forall k :: k != AuthorizationHeader && k != ContentTypeHeader ==>
               (k in CallerHeaders(a) <==> k in CallerHeaders(b)) &&
               (k in CallerHeaders(a) ==> CallerHeaders(a)[k] == CallerHeaders(b)[k])
    ensures AuthOptions(a, token) == AuthOptions(b, token)
  {
    var ha := AuthOptions(a, token).headers.value;
    var hb := AuthOptions(b, token).headers.value;
    assert ha.Keys == hb.Keys;
    assert forall k :: k in ha ==> ha[k] == hb[k];
    assert ha == hb;
  }

  /** Session storage, restricted to what these helpers touch; other keys
      are kept as they are. */
  class SessionStore<U> {
    var items: map<string, Stored<U>>

    constructor (items: map<string, Stored<U>>)
      ensures this.items == items
    {
      this.items := items;
    }

    /** `getToken`: the stored token text, or null. */
    function Token(): (t: Option<string>)
      reads this
      ensures t.Some? <==> TokenKey in items && items[TokenKey].Text?
      ensures t.Some? ==> items[TokenKey] == Text(t.value)
    {
      if TokenKey in items && items[TokenKey].Text? then Some(items[TokenKey].text) else None
    }

    /** `getUser`: the parsed user, or null when none is stored. */
    function User(): (u: Option<U>)
      reads this
      ensures u.Some? <==> UserKey in items && items[UserKey].Serialised?
      ensures u.Some? ==> items[UserKey] == Serialised(u.value)
    {
      if UserKey in items && items[UserKey].Serialised? then Some(items[UserKey].value) else None
    }

    /** `isAuthenticated`: `!!getToken()`, so an empty token does not count. */
    function IsAuthenticated(): (b: bool)
      reads this
      ensures b <==> TokenKey in items && items[TokenKey].Text? && items[TokenKey].text != ""
    {
      Token().Some? && Token().value != ""
    }

    /** `setAuth`: stores the token and the serialised user, and nothing else. */
    method SetAuth(token: string, user: U)
      modifies this
      ensures items == old(items)[TokenKey := Text(token)][UserKey := Serialised(user)]
      ensures Token() == Some(token) && User() == Some(user)
      ensures IsAuthenticated() <==> token != ""
    {
      items := items[TokenKey := Text(token)];
      items := items[UserKey := Serialised(user)];
    }

    /** `clearAuth`: removes exactly the token and the user. */
    method ClearAuth()
      modifies this
      ensures items == old(items) - {TokenKey, UserKey}
      ensures Token() == None && User() == None && !IsAuthenticated()
    {
      items := items - {TokenKey};
      items := items - {UserKey};
      assert items == old(items) - {TokenKey, UserKey};
    }

    /** `authFetch`: the request goes out with the authorised options, built
        from the token stored at call time. A 401 answer ends the session and
        asks for a page reload; any other answer leaves the store alone. The
        answer is handed back as it came. */
    method AuthFetch(url: string, options: RequestOptions, response: Response)
      returns (request: (string, RequestOptions), result: Response, reload: bool)
      modifies this
      ensures request == (url, AuthOptions(options, old(Token())))
      ensures result == response
      ensures response.status == 401 ==> items == old(items) - {TokenKey, UserKey} && reload
      ensures response.status == 401 ==> !IsAuthenticated() && User() == None
      ensures response.status != 401 ==> items == old(items) && !reload
    {
      request := (url, AuthOptions(options, Token()));
      result := response;
      reload := false;
      if response.status == 401 {
        ClearAuth();
        reload := true;
      }
    }
  }
}
