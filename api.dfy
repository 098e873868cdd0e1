/**
 * Model of the request construction of `http` in api/api.ts: argument defaults,
 * the filtering of query parameters, the two headers and the base-URL lookup.
 * The token lookup (localStorage or SecureStore) and the axios call are I/O:
 * the token is an input and the function returns the request axios would get.
 */
module Api {

  import opened Common

  datatype HttpMethod = Get | Post | Put | Delete

  /** The keys of `apisUrls`. */
  datatype ApiKey = TranslateApi | ChatApi

  /** A query-parameter value as the source can see it at run time. */
  datatype ParamValue = Str(s: string) | Undefined | Null

  datatype ResponseType = Json | Blob | ArrayBuffer | Document | Text | Stream

  /** Stands for an axios request transformer (a function); only its presence matters here. */
  datatype Transformer = Transformer(name: string)

  /** `HttpArguments`; an absent optional argument is `None`. */
  datatype HttpArguments<D> = HttpArguments(
    path: string,
    verb: Option<HttpMethod>,
    data: Option<D>,
    params: Option<seq<(string, ParamValue)>>,
    dataWithFiles: Option<bool>,
    responseType: Option<ResponseType>,
    extraHeaders: seq<(string, string)>,
    transformRequest: Option<Transformer>,
    baseURL: Option<ApiKey>)

  /** The two environment variables read at load time; `??` falls back only when a variable is unset. */
  datatype Env = Env(translateUrl: Option<string>, chatUrl: Option<string>)

  const DefaultTranslateUrl: string := "https://82407.pythonanywhere.com"
  const DefaultChatUrl: string := "https://cecyapi-2h4u.onrender.com"

  datatype Headers = Headers(authorization: Option<string>, contentType: string)

  /** The `AxiosRequestConfig` that `http` hands to axios. */
  datatype Request<D> = Request(
    verb: HttpMethod,
    params: seq<(string, string)>,
    data: Option<D>,
    url: string,
    baseURL: string,
    headers: Headers)

  function OrElse<T>(o: Option<T>, default: T): T {
    if o.Some? then o.value else default
  }

  /** `apisUrls[key]`. */
  function BaseUrl(env: Env, key: ApiKey): string
  {
    match key
    case TranslateApi => OrElse(env.translateUrl, DefaultTranslateUrl)
    case ChatApi => OrElse(env.chatUrl, DefaultChatUrl)
  }

  /** `Object.entries(params).filter(([_, v]) => v !== null && v !== undefined)`. */
  function CleanParams(ps: seq<(string, ParamValue)>): (r: seq<(string, string)>)
    ensures |r| <= |ps|
    ensures forall k, v :: (k, v) in r <==> (k, Str(v)) in ps
  {
    if ps == [] then []
    else
      var rest := CleanParams(ps[1..]);
      assert ps == [ps[0]] + ps[1..];
      match ps[0].1
      case Str(v) => [(ps[0].0, v)] + rest
      case _ => rest
  }

  /** `Authorization: jwt ? \`Bearer ${jwt}\` : undefined`. */
  function Authorization(jwt: Option<string>): Option<string>
  {
    if Truthy(jwt) then Some("Bearer " + jwt.value) else None
  }

  function ContentType(dataWithFiles: bool): string
  {
    if dataWithFiles then "multipart/form-data" else "application/json"
  }

  /** The request built by `http(args)` when the stored token is jwt. */
  function BuildRequest<D>(args: HttpArguments<D>, env: Env, jwt: Option<string>): (r: Request<D>)
    // the path and the payload are passed through untouched
    ensures r.url == args.path && r.data == args.data
    // the caller's method is used when given
    ensures args.verb.Some? ==> r.verb == args.verb.value
    // the query is the cleaned parameters, in their original order
    ensures r.params == CleanParams(OrElse(args.params, []))
    // the query keeps exactly the string-valued parameters, none when there are none
    ensures forall k, v :: (k, v) in r.params <==> args.params.Some? && (k, Str(v)) in args.params.value
    // a token is sent exactly when there is a non-empty one
    ensures r.headers.authorization.Some? <==> Truthy(jwt)
  {
    Request(
      OrElse(args.verb, Post),
      CleanParams(OrElse(args.params, [])),
      args.data,
      args.path,
      BaseUrl(env, OrElse(args.baseURL, TranslateApi)),
      Headers(Authorization(jwt), ContentType(OrElse(args.dataWithFiles, false))))
  }

  // ---------------------------------------------------------------------------
  // Lemmas

  /** Cleaning keeps the surviving entries in their original order: it distributes over
      concatenation. */
  lemma {:induction false} CleanParamsAppend(a: seq<(string, ParamValue)>, b: seq<(string, ParamValue)>)
    ensures CleanParams(a + b) == CleanParams(a) + CleanParams(b)
  {
    if a == [] {
      assert a + b == b;
    } else {
      assert (a + b)[1..] == a[1..] + b;
      CleanParamsAppend(a[1..], b);
    }
  }

  /** Entries that all carry strings pass through unchanged. */
  lemma {:induction false} CleanParamsKeepsStrings(ps: seq<(string, string)>)
    ensures CleanParams(seq(|ps|, i requires 0 <= i < |ps| => (ps[i].0, Str(ps[i].1)))) == ps
  {
    if ps != [] {
      var wrapped := seq(|ps|, i requires 0 <= i < |ps| => (ps[i].0, Str(ps[i].1)));
      assert wrapped[1..] == seq(|ps| - 1, i requires 0 <= i < |ps| - 1 => (ps[1..][i].0, Str(ps[1..][i].1)));
      CleanParamsKeepsStrings(ps[1..]);
      assert ps == [ps[0]] + ps[1..];
    }
  }

  /** Calling `http` with only a path: POST, no parameters, JSON content, the translation API. */
  lemma Defaults<D>(path: string, env: Env, jwt: Option<string>)
    ensures var args: HttpArguments<D> := HttpArguments(path, None, None, None, None, None, [], None, None);
      var r := BuildRequest(args, env, jwt);
      && r.verb == Post
      && r.params == []
      && r.data == None
      && r.headers.contentType == "application/json"
      && r.baseURL == OrElse(env.translateUrl, "https://82407.pythonanywhere.com")
  {
  }

  /** `responseType`, `extraHeaders` and `transformRequest` are accepted but do not reach the request. */
  lemma IgnoredArguments<D>(a: HttpArguments<D>, b: HttpArguments<D>, env: Env, jwt: Option<string>)
    requires a.path == b.path && a.verb == b.verb && a.data == b.data && a.params == b.params
    requires a.dataWithFiles == b.dataWithFiles && a.baseURL == b.baseURL
    ensures BuildRequest(a, env, jwt) == BuildRequest(b, env, jwt)
  {
  }

  /** An empty token sends no Authorization header, the same as no token at all. */
  lemma EmptyTokenIsNoToken()
    ensures Authorization(Some("")) == Authorization(None) == None
  {
  }

  /** The headers depend only on the token and on `dataWithFiles`: the header is "Bearer "
      followed by the token when there is a non-empty one, and the content type is multipart
      exactly when files are sent. */
  lemma RequestHeaders<D>(a: HttpArguments<D>, b: HttpArguments<D>, envA: Env, envB: Env, jwt: Option<string>)
    requires a.dataWithFiles == b.dataWithFiles
    ensures BuildRequest(a, envA, jwt).headers == BuildRequest(b, envB, jwt).headers
    ensures var h := BuildRequest(a, envA, jwt).headers;
      && (Truthy(jwt) ==> h.authorization == Some("Bearer " + jwt.value))
      && (h.contentType == "multipart/form-data" <==> a.dataWithFiles == Some(true))
      && (h.contentType != "multipart/form-data" ==> h.contentType == "application/json")
  {
  }

  /** The base URL is the environment's URL for the chosen key (the translation API by
      default) whenever that variable is set, even to ""; the built-in URL only when it is not. */
  lemma RequestBaseUrl<D>(args: HttpArguments<D>, env: Env, jwt: Option<string>)
    ensures var url := BuildRequest(args, env, jwt).baseURL;
      && (args.baseURL == Some(ChatApi) ==> url == if env.chatUrl.Some? then env.chatUrl.value else DefaultChatUrl)
      && (args.baseURL != Some(ChatApi) ==>
            url == if env.translateUrl.Some? then env.translateUrl.value else DefaultTranslateUrl)
  {
  }
}
