/**
 * The JavaScript values that reach `mount` as arguments, and the two ways a
 * JavaScript call can end: by returning a value or by throwing.
 */
module JsValue {

  /**
   * An argument to `mount`. A function is known by its source text, which
   * is what its `toString()` returns.
   */
  datatype Value =
    | Undefined
    | Null
    | Str(s: string)
    | Func(source: string)

  /** JavaScript truthiness (`!v` is false), for the values above. */
  predicate Truthy(v: Value)
  {
    match v
    case Undefined => false
    case Null => false
    case Str(s) => s != ""
    case Func(_) => true
  }

  /** How a JavaScript call ends: it returns a value or it throws. */
  datatype Completion<T> = Normal(value: T) | Throws(error: string)

  /** The name of the error raised by calling a member a value does not have. */
  const TypeError := "TypeError"
}

/**
 * The router of index.js: `mount` checks its handler and returns a
 * middleware that, for each request, either runs the handler or hands the
 * request on to the next middleware.
 */
module Mountain {
  import opened JsValue
  import opened JsString

  /** The parts of a request the router reads: its method and its URL. */
  datatype Request = Request(verb: string, url: string)

  /**
   * The middleware `mount` returns: the method, path and handler it closes
   * over, after the argument shift.
   */
  datatype Middleware = Middleware(verb: Value, pathStr: Value, fn: Value)

  /** What a middleware does with a request: run the handler, or call `next`. */
  datatype Outcome = RunHandler | CallNext

  /** The message of the error `mount` throws for a handler that is not a generator. */
  const NotGeneratorMessage := "handler function must be a GeneratorFunction"

  /**
   * `isGenerator(fn)`: the generator pattern is tested against
   * `fn.toString()`, which is a function's source text and a string's own
   * text; `undefined` and `null` have no `toString`, so the call throws.
   */
  function IsGenerator(fn: Value): (r: Completion<bool>)
    ensures fn.Undefined? || fn.Null? ==> r == Throws(TypeError)
    ensures fn.Func? ==> r == Normal(MatchesGeneratorPattern(fn.source))
    ensures fn.Str? ==> r == Normal(MatchesGeneratorPattern(fn.s))
  {
    match fn
    case Undefined => Throws(TypeError)
    case Null => Throws(TypeError)
    case Str(text) => Normal(MatchesGeneratorPattern(text))
    case Func(source) => Normal(MatchesGeneratorPattern(source))
  }

  /** A handler `mount` accepts: a value whose `toString()` matches the generator pattern. */
  predicate AcceptedHandler(h: Value)
  {
    (h.Func? && MatchesGeneratorPattern(h.source)) || (h.Str? && MatchesGeneratorPattern(h.s))
  }

  /**
   * `mount(method, pathStr, fn)`. When `fn` is undefined the arguments shift:
   * the first is the path, the second the handler, and the method is null.
   * Construction throws unless the handler's text matches the generator
   * pattern: a TypeError for an `undefined` or `null` handler, the
   * "handler function must be a GeneratorFunction" error otherwise. No
   * middleware exists then.
   */
  function Mount(verb: Value, pathStr: Value, fn: Value): (r: Completion<Middleware>)
    ensures var h := if fn.Undefined? then pathStr else fn;
            r.Normal? <==> AcceptedHandler(h)
    ensures r.Normal? && fn.Undefined? ==> r.value == Middleware(Null, verb, pathStr)
    ensures r.Normal? && !fn.Undefined? ==> r.value == Middleware(verb, pathStr, fn)
    ensures var h := if fn.Undefined? then pathStr else fn;
            r.Throws? ==> r.error == (if h.Undefined? || h.Null? then TypeError else NotGeneratorMessage)
  {
    var (verb, pathStr, fn) := if fn.Undefined? then (Null, verb, pathStr) else (verb, pathStr, fn);
    match IsGenerator(fn)
    case Throws(e) => Throws(e)
    case Normal(isGen) =>
      if !isGen then Throws(NotGeneratorMessage) else Normal(Middleware(verb, pathStr, fn))
  }

  /**
   * `isMethod(method)` against the request's method: a falsy method
   * matches every request; a string is compared with the request method
   * up to letter case; a function has no `toUpperCase`, so the call throws.
   */
  function IsMethod(verb: Value, requestMethod: string): (r: Completion<bool>)
    ensures !Truthy(verb) ==> r == Normal(true)
    ensures verb.Func? ==> r == Throws(TypeError)
    ensures verb.Str? && verb.s != "" ==>
              r == Normal(EqualsIgnoringCase(verb.s, requestMethod))
  {
    ToUpperCaseAgrees(if verb.Str? then verb.s else "", requestMethod);
    match verb
    case Undefined => Normal(true)
    case Null => Normal(true)
    case Str(m) => if m == "" then Normal(true) else Normal(ToUpperCase(m) == ToUpperCase(requestMethod))
    case Func(_) => Throws(TypeError)
  }

  /**
   * `pathsMatch(pathStr)`: the URL without its query string is strictly
   * equal to the registered path. A path that is not a string never
   * matches. A registered path matches exactly the URL equal to it and the
   * URLs that continue it with a query string, and only if it holds no '?'.
   */
  function PathsMatch(pathStr: Value, url: string): (r: bool)
    ensures r <==> pathStr.Str? && '?' !in pathStr.s &&
                   (url == pathStr.s || pathStr.s + "?" <= url)
  {
    BeforeQueryIs(url, if pathStr.Str? then pathStr.s else "");
    pathStr == Str(BeforeQuery(url))
  }

  /**
   * The middleware's body, index.js lines 31-35: the handler runs when the
   * method and then the path match; otherwise control passes to `next`.
   * The path is looked at only when the method matched, and a method that
   * throws ends the middleware with that error.
   */
  function Dispatch(mw: Middleware, req: Request): (r: Completion<Outcome>)
    ensures r == Normal(RunHandler) <==>
              IsMethod(mw.verb, req.verb) == Normal(true) && PathsMatch(mw.pathStr, req.url)
    ensures r == Normal(CallNext) <==>
              IsMethod(mw.verb, req.verb) == Normal(false) ||
              (IsMethod(mw.verb, req.verb) == Normal(true) && !PathsMatch(mw.pathStr, req.url))
    ensures r.Throws? <==> mw.verb.Func?
  {
    match IsMethod(mw.verb, req.verb)
    case Throws(e) => Throws(e)
    case Normal(methodOk) =>
      if methodOk && PathsMatch(mw.pathStr, req.url) then Normal(RunHandler) else Normal(CallNext)
  }

  /**
   * Mounted with two arguments, the middleware ignores the request method:
   * it runs the handler for a request exactly when the request's URL,
   * without its query string, is the path.
   */
  lemma TwoArgumentMountMatchesAnyMethod(path: string, handler: Value, req: Request)
    requires AcceptedHandler(handler)
    ensures Mount(Str(path), handler, Undefined).Normal?
    ensures Dispatch(Mount(Str(path), handler, Undefined).value, req) ==
              Normal(if BeforeQuery(req.url) == path then RunHandler else CallNext)
  {
  }

  /**
   * Mounted with two arguments on a path without '?', the middleware runs
   * the handler for a request to that path followed by any query string,
   * whatever the request method.
   */
  lemma TwoArgumentMountIgnoresQuery(path: string, query: string, handler: Value, verb: string)
    requires '?' !in path && AcceptedHandler(handler)
    ensures Mount(Str(path), handler, Undefined).Normal?
    ensures Dispatch(Mount(Str(path), handler, Undefined).value, Request(verb, path + "?" + query))
              == Normal(RunHandler)
  {
    BeforeQueryDropsQuery(path, query);
    TwoArgumentMountMatchesAnyMethod(path, handler, Request(verb, path + "?" + query));
  }

  /**
   * Mounted with a non-empty method, the middleware runs the handler
   * exactly for requests whose method agrees with it up to letter case and
   * whose path matches; every other request goes to `next`.
   */
  lemma MethodMountSelectsByMethod(verb: string, path: string, handler: Value, req: Request)
    requires verb != "" && AcceptedHandler(handler)
    ensures Mount(Str(verb), Str(path), handler).Normal?
    ensures Dispatch(Mount(Str(verb), Str(path), handler).value, req) ==
              Normal(if EqualsIgnoringCase(verb, req.verb) && BeforeQuery(req.url) == path
                     then RunHandler else CallNext)
  {
  }

  /**
   * The letter case of neither the configured nor the request method
   * changes whether they match.
   */
  lemma IsMethodIgnoresCase(verb: string, verb': string, requestMethod: string, requestMethod': string)
    requires EqualsIgnoringCase(verb, verb')
    requires EqualsIgnoringCase(requestMethod, requestMethod')
    ensures IsMethod(Str(verb), requestMethod) == IsMethod(Str(verb'), requestMethod')
  {
    ToUpperCaseAgrees(verb, verb');
    ToUpperCaseAgrees(requestMethod, requestMethod');
    ToUpperCaseAgrees(verb, requestMethod);
    ToUpperCaseAgrees(verb', requestMethod');
  }

  /**
   * `mount` refuses a handler that is `undefined` or `null` with a
   * TypeError: a two-argument call whose handler is either, and a
   * three-argument call whose handler is `null` (an `undefined` third
   * argument shifts the arguments instead).
   */
  lemma MissingHandlerThrowsTypeError(verb: Value, path: string, handler: Value)
    requires handler.Undefined? || handler.Null?
    ensures Mount(Str(path), handler, Undefined) == Throws(TypeError)
    ensures Mount(verb, Str(path), Null) == Throws(TypeError)
  {
  }

  /** A query string appended to the URL never changes whether the path matches. */
  lemma PathsMatchIgnoresQuery(pathStr: Value, path: string, query: string)
    requires '?' !in path
    ensures PathsMatch(pathStr, path + "?" + query) == PathsMatch(pathStr, path)
  {
    BeforeQueryDropsQuery(path, query);
  }
}
