/**
 * The admin API client: a fixed base URL, JSON by default, and a request
 * interceptor that attaches the stored admin token as an `Authorization:
 * Bearer` header (section 2.1 of RFC 6750).
 */
module AdminApi {
  import opened Storage

  const ContentType := "Content-Type"
  const Authorization := "Authorization"
  const Json := "application/json"

  /** `${REACT_APP_API_BASE_URL}api/admin/`: the environment's value is a parameter. */
  function BaseUrl(env: string): (url: string)
    ensures |url| == |env| + 10 && url[..|env|] == env
  {
    env + "api/admin/"
  }

  function BearerValue(token: string): string {
    "Bearer " + token
  }

  /** The request configuration the interceptor receives and changes in place. */
  class RequestConfig {
    var baseUrl: string
    var url: string
    /** The config's `method` (GET, POST, ...). */
    var verb: string
    var headers: map<string, string>

    /** A request built from the instance defaults: the admin base URL and the JSON content type. */
    constructor (env: string, verb: string, url: string)
      ensures baseUrl == BaseUrl(env) && this.url == url && this.verb == verb
      ensures headers == map[ContentType := Json]
    {
      baseUrl := BaseUrl(env);
      this.url := url;
      this.verb := verb;
      headers := map[ContentType := Json];
    }
  }

  /**
   * The request interceptor: with a truthy admin token it sets
   * `Authorization` to `Bearer <token>`; otherwise it adds nothing. It
   * returns the same object, every other field and header unchanged.
   */
  method InterceptRequest(ls: LocalStorage, config: RequestConfig) returns (r: RequestConfig)
    modifies config
    ensures r == config
    ensures HasValue(ls.items, AdminTokenKey) ==>
      config.headers == old(config.headers)[Authorization := BearerValue(ls.items[AdminTokenKey])]
    ensures !HasValue(ls.items, AdminTokenKey) ==> config.headers == old(config.headers)
    ensures config.baseUrl == old(config.baseUrl) && config.url == old(config.url) && config.verb == old(config.verb)
  {
    var token := ls.GetItem(AdminTokenKey);
    if token.Some? && token.value != "" {
      config.headers := config.headers[Authorization := BearerValue(token.value)];
    }
    r := config;
  }

  /** The header value carries the token verbatim after the `Bearer ` scheme name. */
  lemma BearerValueParts(token: string)
    ensures BearerValue(token)[..7] == "Bearer " && BearerValue(token)[7..] == token
  {
  }
}
