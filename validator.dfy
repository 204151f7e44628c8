/**
 * The CookieAuth middleware: configuration defaulting, the choice of a key
 * extractor from the "<source>:<name>" lookup specifier, the header and
 * query extractors, and the per-request decision between passing the
 * request on, 400 Bad Request and 401 Unauthorized.
 *
 * The skipper and the validator are callbacks supplied by the program; they
 * are modelled as function values, and Go's nil as `None`.
 */
module Validator {
  import opened GoStrings
  import opened Echo

  /** Decides whether the middleware is bypassed for a request. */
  type Skipper = Request -> bool

  /** Decides whether an extracted key is valid for a request. */
  type KeyValidator = (string, Request) -> bool

  datatype Option<T> = None | Some(value: T)

  datatype Result<T, E> = Ok(value: T) | Err(error: E)

  /** `CookieAuthConfig`: every field may be left unset (nil or ""). */
  datatype Config = Config(
    skipper: Option<Skipper>,
    keyLookup: string,
    authScheme: string,
    validator: Option<KeyValidator>)

  /** The two ways construction of the middleware panics in Go. */
  datatype SetupError =
    | MissingValidator        // "key-auth middleware requires a validator function"
    | LookupWithoutSeparator  // `parts[1]` indexed out of range

  /** The extractor chosen once, at construction time. */
  datatype Extractor =
    | FromHeader(header: string, authScheme: string)
    | FromQuery(param: string)

  /** A constructed middleware: what the request closure captures. */
  datatype Middleware = Middleware(skipper: Skipper, extractor: Extractor, validator: KeyValidator)

  const MissingHeaderKey: string := "Missing key in request header"
  const InvalidHeaderKey: string := "Invalid key in the request header"
  const MissingQueryKey: string := "Missing key in the query string"

  /** The program's `defaultSkipper`: never skip. */
  function DefaultSkipper(req: Request): bool
  {
    false
  }

  /** `DefaultCookieAuthConfig`. */
  const DefaultConfig: Config :=
    Config(Some(DefaultSkipper), "header:" + HeaderAuthorization, "Bearer", None)

  /**
   * The default configuration: the never-skip skipper, the Authorization
   * header read with scheme "Bearer", and no validator; defaulting leaves it
   * as it is.
   */
  lemma DefaultConfigValues()
    ensures DefaultConfig.skipper == Some(DefaultSkipper)
    ensures DefaultConfig.keyLookup == "header:Authorization"
    ensures DefaultConfig.authScheme == "Bearer"
    ensures DefaultConfig.validator.None?
    ensures WithDefaults(DefaultConfig) == DefaultConfig
  {
  }

  /**
   * A configuration without a skipper gets `defaultSkipper`, so the middleware
   * built from it never skips a request.
   */
  lemma NilSkipperNeverSkips(config: Config, req: Request)
    requires config.skipper.None?
    ensures !WithDefaults(config).skipper.value(req)
    ensures CookieAuthWithConfig(config).Ok? ==> !CookieAuthWithConfig(config).value.skipper(req)
  {
  }

  /**
   * The defaulting at the start of `CookieAuthWithConfig`: each unset field
   * is taken from `DefaultConfig`, every field that is set is kept.
   */
  function WithDefaults(c: Config): (r: Config)
    ensures r.skipper.Some? && r.keyLookup != "" && r.authScheme != ""
    ensures r.validator == c.validator
    ensures c.skipper.Some? ==> r.skipper == c.skipper
    ensures c.skipper.None? ==> r.skipper == Some(DefaultSkipper)
    ensures c.keyLookup != "" ==> r.keyLookup == c.keyLookup
    ensures c.keyLookup == "" ==> r.keyLookup == "header:Authorization"
    ensures c.authScheme != "" ==> r.authScheme == c.authScheme
    ensures c.authScheme == "" ==> r.authScheme == "Bearer"
  {
    var skipper := if c.skipper.None? then DefaultConfig.skipper else c.skipper;
    var authScheme := if c.authScheme == "" then DefaultConfig.authScheme else c.authScheme;
    var keyLookup := if c.keyLookup == "" then DefaultConfig.keyLookup else c.keyLookup;
    Config(skipper, keyLookup, authScheme, c.validator)
  }

  /**
   * Splits the lookup on ':' and picks the extractor: source "query" reads
   * the query string, every other source reads a header. The name is the
   * second piece; a lookup with no ':' has none.
   */
  function SelectExtractor(lookup: string, authScheme: string): (r: Result<Extractor, SetupError>)
    ensures r.Err? <==> ':' !in lookup
    ensures r.Err? ==> r.error == LookupWithoutSeparator
  {
    var parts := Split(lookup, ':');
    if |parts| < 2 then Err(LookupWithoutSeparator)
    else if parts[0] == "query" then Ok(FromQuery(parts[1]))
    else Ok(FromHeader(parts[1], authScheme))
  }

  /**
   * `CookieAuthWithConfig`: fills in the defaults, refuses a configuration
   * without a validator, then selects the extractor. A missing validator is
   * reported first, as the Go code panics on it before it splits the lookup.
   */
  function CookieAuthWithConfig(config: Config): (r: Result<Middleware, SetupError>)
    ensures r.Err? <==> config.validator.None? || (config.keyLookup != "" && ':' !in config.keyLookup)
    ensures config.validator.None? ==> r.Err? && r.error == MissingValidator
    ensures r.Ok? ==> Some(r.value.validator) == config.validator
    ensures r.Ok? ==> Some(r.value.skipper) == WithDefaults(config).skipper
  {
    var c := WithDefaults(config);
    if c.validator.None? then Err(MissingValidator)
    else
      match SelectExtractor(c.keyLookup, c.authScheme)
      case Err(e) => Err(e)
      case Ok(extractor) => Ok(Middleware(c.skipper.value, extractor, c.validator.value))
  }

  /** The default lookup names the source "header" and the name "Authorization". */
  lemma DefaultLookupSplits()
    ensures Split(DefaultConfig.keyLookup, ':') == ["header", HeaderAuthorization]
  {
    var parts := ["header", HeaderAuthorization];
    assert Join(parts, ':') == DefaultConfig.keyLookup;
    SplitJoin(parts, ':');
  }

  /**
   * `CookieAuth`: the default configuration with the given validator. A nil
   * validator makes it fail like `CookieAuthWithConfig` does.
   */
  function CookieAuth(fn: Option<KeyValidator>): (r: Result<Middleware, SetupError>)
    ensures fn.None? ==> r == Err(MissingValidator)
    ensures fn.Some? ==> r == Ok(Middleware(DefaultSkipper, FromHeader(HeaderAuthorization, "Bearer"), fn.value))
  {
    DefaultLookupSplits();
    CookieAuthWithConfig(DefaultConfig.(validator := fn))
  }

  /**
   * `keyFromHeader`: an empty or absent header is a missing key. For the
   * Authorization header the value must be longer than the scheme plus one
   * separator character and start with the scheme; the key is what follows
   * the separator. Any other header's value is the key as it stands.
   */
  function KeyFromHeader(header: string, authScheme: string, req: Request): (r: Result<string, string>)
    ensures r.Ok? ==> r.value != ""
  {
    var auth := HeaderValue(req, header);
    if auth == "" then Err(MissingHeaderKey)
    else if header == HeaderAuthorization then
      var l := |authScheme|;
      if |auth| > l + 1 && auth[..l] == authScheme then Ok(auth[l + 1..])
      else Err(InvalidHeaderKey)
    else Ok(auth)
  }

  /** `keyFromQuery`: the parameter's value, or a missing key when it is empty. */
  function KeyFromQuery(param: string, req: Request): (r: Result<string, string>)
    ensures r.Ok? ==> r.value != ""
  {
    var key := QueryValue(req, param);
    if key == "" then Err(MissingQueryKey) else Ok(key)
  }

  /** Runs the extractor chosen at construction time. */
  function Extract(e: Extractor, req: Request): (r: Result<string, string>)
    ensures r.Ok? ==> r.value != ""
    ensures r.Err? ==> r.error in {MissingHeaderKey, InvalidHeaderKey, MissingQueryKey}
  {
    match e
    case FromHeader(header, authScheme) => KeyFromHeader(header, authScheme, req)
    case FromQuery(param) => KeyFromQuery(param, req)
  }

  /**
   * The request closure: a skipped request goes on; a request whose key
   * cannot be extracted gets 400 with the extractor's reason; otherwise the
   * validator decides between going on and 401.
   */
  function Handle(m: Middleware, req: Request): (o: Outcome)
    ensures o.BadRequest? ==> o.msg != ""
  {
    if m.skipper(req) then Next
    else
      match Extract(m.extractor, req)
      case Err(msg) => BadRequest(msg)
      case Ok(key) => if m.validator(key, req) then Next else Unauthorized
  }

  // ---------------------------------------------------------------------
  // Configuration
  // ---------------------------------------------------------------------

  /** Defaulting is idempotent, and leaves a configuration alone exactly when every defaultable field is set. */
  lemma DefaultsFixedPoint(c: Config)
    ensures WithDefaults(WithDefaults(c)) == WithDefaults(c)
    ensures WithDefaults(c) == c <==> c.skipper.Some? && c.keyLookup != "" && c.authScheme != ""
  {
  }

  /**
   * For a lookup "<source>:<name><rest>" whose source and name hold no ':'
   * and whose rest is empty or starts a third piece, the middleware reads
   * the query parameter <name> when the source is "query" and the header
   * <name> with the configured scheme for every other source.
   */
  lemma LookupSelectsExtractor(config: Config, source: string, name: string, rest: string)
    requires config.validator.Some?
    requires ':' !in source && ':' !in name
    requires rest == "" || rest[0] == ':'
    requires WithDefaults(config).keyLookup == source + ":" + name + rest
    ensures CookieAuthWithConfig(config).Ok?
    ensures CookieAuthWithConfig(config).value.extractor ==
              if source == "query" then FromQuery(name)
              else FromHeader(name, WithDefaults(config).authScheme)
  {
    FirstTwoPieces(source, name, ':', rest);
  }

  /**
   * Every lookup holding a ':' has that shape, so the rule above decides the
   * extractor of every middleware that can be built: the source is the text
   * before the first ':', and the name is the text between the first and the
   * second ':' (or the end of the lookup).
   */
  lemma LookupFieldsExist(config: Config)
    requires config.validator.Some?
    requires ':' in WithDefaults(config).keyLookup
    ensures var lookup := WithDefaults(config).keyLookup;
            var i := Index(lookup, ':');
            var t := lookup[i + 1..];
            var j := Index(t, ':');
            var name := if j < 0 then t else t[..j];
            && CookieAuthWithConfig(config).Ok?
            && CookieAuthWithConfig(config).value.extractor ==
                 if lookup[..i] == "query" then FromQuery(name)
                 else FromHeader(name, WithDefaults(config).authScheme)
  {
    var source, name, rest := FirstFields(WithDefaults(config).keyLookup, ':');
    LookupSelectsExtractor(config, source, name, rest);
  }

  /** An unset lookup gives the Authorization header extractor with the configured scheme. */
  lemma DefaultLookupReadsAuthorization(config: Config)
    requires config.validator.Some? && config.keyLookup == ""
    ensures CookieAuthWithConfig(config).Ok?
    ensures CookieAuthWithConfig(config).value.extractor ==
              FromHeader(HeaderAuthorization, WithDefaults(config).authScheme)
  {
    LookupSelectsExtractor(config, "header", HeaderAuthorization, "");
  }

  // ---------------------------------------------------------------------
  // Extractors
  // ---------------------------------------------------------------------

  /**
   * The Authorization header yields a key exactly when its value is longer
   * than the scheme plus one character and starts with the scheme; the key
   * is the value less the scheme and one separator of any kind. Otherwise the
   * reason says whether the header was missing or malformed.
   */
  lemma AuthorizationHeader(authScheme: string, req: Request)
    ensures var auth := HeaderValue(req, HeaderAuthorization);
            var r := KeyFromHeader(HeaderAuthorization, authScheme, req);
            && (r.Ok? <==> |auth| > |authScheme| + 1 && authScheme <= auth)
            && (r.Ok? ==> auth == authScheme + [auth[|authScheme|]] + r.value)
            && (r.Err? ==> r.error == if auth == "" then MissingHeaderKey else InvalidHeaderKey)
  {
    var auth := HeaderValue(req, HeaderAuthorization);
    var l := |authScheme|;
    if |auth| > l + 1 {
      assert auth == auth[..l] + [auth[l]] + auth[l + 1..];
    }
  }

  /** Round trip: a scheme, any one character and a non-empty key give back that key. */
  lemma AuthorizationRoundTrip(authScheme: string, sep: char, key: string, req: Request)
    requires key != ""
    requires HeaderValue(req, HeaderAuthorization) == authScheme + [sep] + key
    ensures KeyFromHeader(HeaderAuthorization, authScheme, req) == Ok(key)
  {
    var auth := authScheme + [sep] + key;
    assert auth[..|authScheme|] == authScheme;
    assert auth[|authScheme| + 1..] == key;
  }

  /** A scheme and separator with nothing after them is refused as malformed. */
  lemma AuthorizationWithoutKey(authScheme: string, sep: char, req: Request)
    requires HeaderValue(req, HeaderAuthorization) == authScheme + [sep]
    ensures KeyFromHeader(HeaderAuthorization, authScheme, req) == Err(InvalidHeaderKey)
  {
  }

  /** Every header other than Authorization yields its non-empty value unchanged. */
  lemma OtherHeaderVerbatim(header: string, authScheme: string, req: Request)
    requires header != HeaderAuthorization
    ensures var v := HeaderValue(req, header);
            KeyFromHeader(header, authScheme, req) == if v == "" then Err(MissingHeaderKey) else Ok(v)
  {
  }

  /** The query extractor yields the parameter's non-empty value unchanged. */
  lemma QueryVerbatim(param: string, req: Request)
    ensures var v := QueryValue(req, param);
            KeyFromQuery(param, req) == if v == "" then Err(MissingQueryKey) else Ok(v)
  {
  }

  // ---------------------------------------------------------------------
  // Dispatch
  // ---------------------------------------------------------------------

  /**
   * Each request gets exactly one of the three outcomes, and which one is
   * decided by the skipper, then the extractor, then the validator.
   */
  lemma HandleClassifies(m: Middleware, req: Request)
    ensures var e := Extract(m.extractor, req);
            && (Handle(m, req) == Next <==> m.skipper(req) || (e.Ok? && m.validator(e.value, req)))
            && (Handle(m, req).BadRequest? <==> !m.skipper(req) && e.Err?)
            && (Handle(m, req).BadRequest? ==> Handle(m, req).msg == e.error)
            && (Handle(m, req) == Unauthorized <==> !m.skipper(req) && e.Ok? && !m.validator(e.value, req))
  {
  }

  /** A skipped request goes on whatever the extractor and the validator would do. */
  lemma SkipperBypasses(m: Middleware, req: Request, extractor: Extractor, validator: KeyValidator)
    requires m.skipper(req)
    ensures Handle(m, req) == Next
    ensures Handle(m.(extractor := extractor, validator := validator), req) == Next
  {
  }

  /**
   * The validator is only asked about the key the extractor produced: two
   * validators that agree on that key lead to the same outcome, and when
   * extraction fails the validator makes no difference at all.
   */
  lemma ValidatorSeesOnlyExtractedKey(m: Middleware, req: Request, other: KeyValidator)
    requires Extract(m.extractor, req).Ok? ==>
               other(Extract(m.extractor, req).value, req) == m.validator(Extract(m.extractor, req).value, req)
    ensures Handle(m.(validator := other), req) == Handle(m, req)
  {
  }

  /**
   * The middleware built by `CookieAuth(Some(fn))` reads "Authorization: Bearer<c><key>"
   * and lets `fn` decide on <key>; it never skips.
   */
  lemma CookieAuthBearer(fn: KeyValidator, sep: char, key: string, req: Request)
    requires key != ""
    requires HeaderValue(req, HeaderAuthorization) == "Bearer" + [sep] + key
    ensures CookieAuth(Some(fn)).Ok?
    ensures Handle(CookieAuth(Some(fn)).value, req) == if fn(key, req) then Next else Unauthorized
  {
    AuthorizationRoundTrip("Bearer", sep, key, req);
  }

  /** The middleware built by `CookieAuth(Some(fn))` answers 400 when there is no Authorization header. */
  lemma CookieAuthMissingHeader(fn: KeyValidator, req: Request)
    requires HeaderAuthorization !in req.headers
    ensures Handle(CookieAuth(Some(fn)).value, req) == BadRequest(MissingHeaderKey)
  {
  }
}
