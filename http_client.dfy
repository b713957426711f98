/**
 * The HTTP client adapter (lib/axios.ts): every request to the remote API
 * passes a request interceptor that attaches the stored access token, and
 * every failure passes a response interceptor that renews the session once
 * on 401 and otherwise classifies the failure for a toast.
 */
module HttpClient {
  import opened Wrappers
  import opened Platform

  const AuthorizationHeader := "Authorization"
  const RefreshPath := "/auth/refresh"
  const LoginPath := "/login"
  const GenericMessage := "An error occurred"
  const NetworkMessage := "Network error. Please check your connection."
  const UnexpectedMessage := "An unexpected error occurred."

  /** How a request failed, as axios reports it. */
  datatype Failure =
    | HttpStatus(status: int, message: Option<string>)  // error.response, with response.data.message
    | NoResponse                                        // error.request but no error.response
    | Setup                                             // neither: the request was never built

  /**
   * What `POST /auth/refresh` produced: the new token pair, or a failure
   * (the call rejected, or its body had no `data` to destructure).
   */
  datatype RefreshReply = Refreshed(accessToken: string, refreshToken: string) | RefreshFailed

  /** Which error the interceptor rejects with. */
  datatype Rejection = OriginalError | RefreshError

  /** The interceptor either re-sends the original request or rejects. */
  datatype Outcome = Resend | Reject(reason: Rejection)

  function Bearer(token: string): string {
    "Bearer " + token
  }

  /** A 401 that starts the renewal protocol: not yet retried. */
  predicate StartsRenewal(failure: Failure, retried: bool) {
    failure.HttpStatus? && failure.status == 401 && !retried
  }

  /**
   * The toast of the generic path: the server's message (or a fallback) for
   * any status but 400, a connectivity message when no response came back,
   * and a generic message when the request never left.
   */
  function ErrorNotice(failure: Failure): (r: Option<string>)
    ensures r.None? <==> failure.HttpStatus? && failure.status == 400
    ensures failure.HttpStatus? && failure.status != 400 ==>
              r == Some(if Truthy(failure.message) then failure.message.value else GenericMessage)
    ensures failure.NoResponse? ==> r == Some(NetworkMessage)
    ensures failure.Setup? ==> r == Some(UnexpectedMessage)
  {
    match failure
    case HttpStatus(status, message) =>
      if status == 400 then None
      else Some(if Truthy(message) then message.value else GenericMessage)
    case NoResponse => Some(NetworkMessage)
    case Setup => Some(UnexpectedMessage)
  }

  /** The events the generic path appends: at most one error toast. */
  function NoticeEvents(failure: Failure): (r: seq<Event>)
    ensures |r| <= 1
    ensures r == [] <==> ErrorNotice(failure).None?
  {
    match ErrorNotice(failure)
    case Some(m) => [Notify(Error, m, None)]
    case None => []
  }

  /** The config of one request: its headers and axios' `_retry` mark. */
  class RequestConfig {
    var headers: map<string, string>
    var retried: bool

    constructor (headers: map<string, string>)
      ensures this.headers == headers && !retried
    {
      this.headers := headers;
      retried := false;
    }
  }

  class Client {
    const browser: Browser

    constructor (browser: Browser)
      ensures this.browser == browser
    {
      this.browser := browser;
    }

    /** Request interceptor: attach `Bearer <access_token>` when a non-empty token is stored. */
    method OnRequest(config: RequestConfig)
      modifies config
      ensures Truthy(browser.GetItem(AccessTokenKey)) ==>
                config.headers == old(config.headers)[AuthorizationHeader := Bearer(browser.storage[AccessTokenKey])]
      ensures !Truthy(browser.GetItem(AccessTokenKey)) ==> config.headers == old(config.headers)
      ensures config.retried == old(config.retried)
    {
      var token := browser.GetItem(AccessTokenKey);
      if Truthy(token) {
        config.headers := config.headers[AuthorizationHeader := Bearer(token.value)];
      }
    }

    /**
     * Response interceptor, failure side. `refresh` is what the refresh call
     * would produce; it is only consulted when the call is made.
     */
    method OnResponseError(failure: Failure, config: RequestConfig, refresh: RefreshReply)
      returns (outcome: Outcome)
      modifies browser, config
      // the `_retry` mark is set by the first 401 and never cleared
      ensures config.retried == (old(config.retried) || StartsRenewal(failure, old(config.retried)))
      // a renewal with a stored refresh token that succeeds: both tokens replaced, request re-sent
      ensures StartsRenewal(failure, old(config.retried)) && Truthy(old(browser.GetItem(RefreshTokenKey)))
              && refresh.Refreshed? ==>
                && outcome == Resend
                && browser.storage == old(browser.storage)[AccessTokenKey := refresh.accessToken]
                                                          [RefreshTokenKey := refresh.refreshToken]
                && config.headers == old(config.headers)[AuthorizationHeader := Bearer(refresh.accessToken)]
                && browser.events == old(browser.events) + [Call(Post, RefreshPath)]
      // a renewal that fails: the whole session is torn down and the page goes to /login
      ensures StartsRenewal(failure, old(config.retried)) && Truthy(old(browser.GetItem(RefreshTokenKey)))
              && refresh.RefreshFailed? ==>
                && outcome == Reject(RefreshError)
                && browser.storage == old(browser.storage) - SessionKeys
                && config.headers == old(config.headers)
                && browser.events == old(browser.events) + [Call(Post, RefreshPath), Redirect(LoginPath)]
      // every other case: no refresh call, storage untouched, generic toast, original error rejected
      ensures !(StartsRenewal(failure, old(config.retried)) && Truthy(old(browser.GetItem(RefreshTokenKey)))) ==>
                && outcome == Reject(OriginalError)
                && browser.storage == old(browser.storage)
                && config.headers == old(config.headers)
                && browser.events == old(browser.events) + NoticeEvents(failure)
    {
      if failure.HttpStatus? && failure.status == 401 && !config.retried {
        config.retried := true;
        var refreshToken := browser.GetItem(RefreshTokenKey);
        if Truthy(refreshToken) {
          browser.Emit(Call(Post, RefreshPath));
          match refresh
          case Refreshed(access, renewed) =>
            browser.SetItem(AccessTokenKey, access);
            browser.SetItem(RefreshTokenKey, renewed);
            config.headers := config.headers[AuthorizationHeader := Bearer(access)];
            return Resend;
          case RefreshFailed =>
            browser.RemoveItem(AccessTokenKey);
            browser.RemoveItem(RefreshTokenKey);
            browser.RemoveItem(UserKey);
            browser.Emit(Redirect(LoginPath));
            return Reject(RefreshError);
        }
      }
      var notice := ErrorNotice(failure);
      if notice.Some? {
        browser.Emit(Notify(Error, notice.value, None));
      }
      outcome := Reject(OriginalError);
    }
  }

  /**
   * The retry protocol end to end: a 401 with a stored refresh token renews
   * the session and re-sends the request through the request interceptor,
   * which then carries the new token; a second 401 on that same request
   * makes no second refresh call and leaves the renewed session in place.
   */
  method RetryAtMostOnce(client: Client, config: RequestConfig, first: RefreshReply, second: RefreshReply,
                         access: string, renewed: string)
    returns (resent: Outcome, final: Outcome)
    requires !config.retried && Truthy(client.browser.GetItem(RefreshTokenKey))
    requires first == Refreshed(access, renewed)
    modifies client.browser, config
    ensures resent == Resend && final == Reject(OriginalError)
    ensures AuthorizationHeader in config.headers && config.headers[AuthorizationHeader] == Bearer(access)
    ensures client.browser.storage == old(client.browser.storage)[AccessTokenKey := access][RefreshTokenKey := renewed]
    ensures client.browser.events == old(client.browser.events) + [Call(Post, RefreshPath)]
                                     + NoticeEvents(HttpStatus(401, None))
  {
    resent := client.OnResponseError(HttpStatus(401, None), config, first);
    client.OnRequest(config);
    final := client.OnResponseError(HttpStatus(401, None), config, second);
  }
}
