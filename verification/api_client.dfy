/**
 The two interceptors of the HTTP client: the request interceptor that adds the
 session headers from the stored authentication state, and the response-error
 interceptor that decides whether a 401 ends the session.

 Storage and parsing are abstracted: the stored session is either absent (or
 empty), present but not valid JSON, or the parsed JSON value.
 */
module ApiClient {
  import opened Js

  /** What reading and parsing the stored session yields. */
  datatype StoredAuth =
    | NoStoredAuth
    | Unparsable
    | Parsed(json: Value)

  /** `authData?.state`. */
  function AuthState(json: Value): Value {
    OptGet(json, "state")
  }

  function Token(json: Value): Value {
    OptGet(AuthState(json), "token")
  }

  function FarmId(json: Value): Value {
    OptGet(OptGet(AuthState(json), "selectedFarm"), "id")
  }

  function UserId(json: Value): Value {
    OptGet(OptGet(AuthState(json), "user"), "id")
  }

  function UserEmail(json: Value): Value {
    OptGet(OptGet(AuthState(json), "user"), "email")
  }

  /** The four headers the request interceptor may set. */
  const SessionHeaderNames: set<string> := {"Authorization", "X-Farm-Id", "X-User-Id", "X-User-Email"}

  /** Header `name` is in `h` exactly when it is in `base`, with the same value. */
  predicate SameHeader(h: map<string, Value>, base: map<string, Value>, name: string) {
    (name in h <==> name in base) && (name in base ==> h[name] == base[name])
  }

  /**
   The headers after the request interceptor has run on a parsed session: each
   session header is set exactly when its source value is truthy, and every
   other header keeps its value.
   */
  function WithSessionHeaders(base: map<string, Value>, json: Value): (h: map<string, Value>)
    ensures Truthy(Token(json)) ==> "Authorization" in h && h["Authorization"] == Str("Bearer " + ToJsString(Token(json)))
    ensures !Truthy(Token(json)) ==> SameHeader(h, base, "Authorization")
    ensures Truthy(FarmId(json)) ==> "X-Farm-Id" in h && h["X-Farm-Id"] == Str(ToJsString(FarmId(json)))
    ensures !Truthy(FarmId(json)) ==> SameHeader(h, base, "X-Farm-Id")
    ensures Truthy(UserId(json)) ==> "X-User-Id" in h && h["X-User-Id"] == Str(ToJsString(UserId(json)))
    ensures !Truthy(UserId(json)) ==> SameHeader(h, base, "X-User-Id")
    ensures Truthy(UserEmail(json)) ==> "X-User-Email" in h && h["X-User-Email"] == UserEmail(json)
    ensures !Truthy(UserEmail(json)) ==> SameHeader(h, base, "X-User-Email")
    ensures forall name :: name !in SessionHeaderNames ==> SameHeader(h, base, name)
    ensures SameHeader(h, base, "X-Gateway-Secret")
  {
    var h1 := if Truthy(Token(json)) then base["Authorization" := Str("Bearer " + ToJsString(Token(json)))] else base;
    var h2 := if Truthy(FarmId(json)) then h1["X-Farm-Id" := Str(ToJsString(FarmId(json)))] else h1;
    var h3 := if Truthy(UserId(json)) then h2["X-User-Id" := Str(ToJsString(UserId(json)))] else h2;
    if Truthy(UserEmail(json)) then h3["X-User-Email" := UserEmail(json)] else h3
  }

  /** The request configuration that the interceptor updates in place. */
  class RequestConfig {
    var headers: map<string, Value>

    constructor (headers: map<string, Value>)
      ensures this.headers == headers
    {
      this.headers := headers;
    }
  }

  /**
   The request interceptor: with a parsed session it sets the session headers
   one by one; without one, or when the stored text does not parse, the
   configuration goes out untouched. The same configuration object is handed on.
   */
  method InterceptRequest(config: RequestConfig, stored: StoredAuth) returns (out: RequestConfig)
    modifies config
    ensures out == config
    ensures stored.Parsed? ==> config.headers == WithSessionHeaders(old(config.headers), stored.json)
    ensures !stored.Parsed? ==> config.headers == old(config.headers)
  {
    if stored.Parsed? {
      var json := stored.json;
      if Truthy(Token(json)) {
        config.headers := config.headers["Authorization" := Str("Bearer " + ToJsString(Token(json)))];
      }
      if Truthy(FarmId(json)) {
        config.headers := config.headers["X-Farm-Id" := Str(ToJsString(FarmId(json)))];
      }
      if Truthy(UserId(json)) {
        config.headers := config.headers["X-User-Id" := Str(ToJsString(UserId(json)))];
      }
      if Truthy(UserEmail(json)) {
        config.headers := config.headers["X-User-Email" := UserEmail(json)];
      }
    }
    out := config;
  }

  /**
   How the response-error handler ends: it returns a promise rejected with
   `reason`, or it throws before getting that far. Either way the request's
   promise rejects.
   */
  datatype ErrorHandling = Rejected(reason: Value) | Threw(exception: Exception)

  /**
   The response-error interceptor. `logout` says whether the session is
   cleared and the browser sent to the login page; `outcome` is how the
   handler ends. The log statement at its top reads `error.response` without
   a guard, so a nullish `error` throws there, before the 401 test.
   */
  method OnResponseError(error: Value, stored: StoredAuth) returns (logout: bool, outcome: ErrorHandling)
    ensures Nullish(error) ==> !logout && outcome == Threw(TypeError)
    ensures !Nullish(error) ==> outcome == Rejected(error)
    ensures logout <==>
              !Nullish(error)
              && OptGet(OptGet(error, "response"), "status") == Num(401)
              && (stored.NoStoredAuth? || stored.Unparsable? || !Truthy(Token(stored.json)))
    ensures logout ==> OptGet(OptGet(error, "response"), "status") == Num(401)
    ensures stored.Parsed? && Truthy(Token(stored.json)) ==> !logout
  {
    logout := false;
    var response := Get(error, "response");
    if response.Throws? {
      outcome := Threw(response.exception);
      return;
    }
    if OptGet(response.value, "status") == Num(401) {
      var shouldLogout := true;
      if stored.Parsed? {
        var json := stored.json;
        var selectedFarm := OptGet(AuthState(json), "selectedFarm");
        if Truthy(Token(json)) && !Truthy(selectedFarm) {
          shouldLogout := false;
        } else if Truthy(Token(json)) && Truthy(selectedFarm) {
          shouldLogout := false;
        }
      }
      logout := shouldLogout;
    }
    outcome := Rejected(error);
  }
}
