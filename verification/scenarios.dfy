/**
 * The scenarios of test/index.js, stated as facts about the model: which
 * middleware runs its handler for which request, and which construction
 * throws.
 */
module MountainScenarios {
  import opened JsValue
  import opened JsString
  import opened Mountain

  /** An anonymous generator function handler, as the passing tests mount. */
  const Generator := Func("function *(next) { this.status = 200; }")

  /** The tests' handler text has the shape "function", a space, '*', '('. */
  lemma GeneratorAccepted()
    ensures AcceptedHandler(Generator)
  {
    assert HasGeneratorShape(Generator.source, " ", "");
    ShapeMatchesGeneratorPattern(" ", "", Generator.source);
  }

  /** The query test's URL is its path, a '?' and its query string. */
  lemma QueryUrlLiteral()
    ensures "/foo/bar?baz=qux&abc=123" == "/foo/bar" + "?" + "baz=qux&abc=123"
  {
  }

  /** Facts about the tests' literal path and URL. */
  lemma PathLiterals()
    ensures '?' !in "/foo/bar"
    ensures BeforeQuery("/foo/bar") == "/foo/bar"
    ensures "/foo/bar?baz=qux&abc=123" == "/foo/bar" + "?" + "baz=qux&abc=123"
  {
    QueryUrlLiteral();
    BeforeQueryDropsQuery("/foo/bar", "");
  }

  /** Facts about the tests' literal methods. */
  lemma MethodLiterals()
    ensures EqualsIgnoringCase("POST", "POST") && !EqualsIgnoringCase("GET", "POST")
  {
  }

  /**
   * Mounted without a method, a rule with an accepted handler (such as
   * the tests' Generator) answers a POST to its path.
   */
  lemma NoMethodAnswersPost(handler: Value)
    requires AcceptedHandler(handler)
    ensures Mount(Str("/foo/bar"), handler, Undefined).Normal?
    ensures Dispatch(Mount(Str("/foo/bar"), handler, Undefined).value,
                     Request("POST", "/foo/bar")) == Normal(RunHandler)
  {
    PathLiterals();
    TwoArgumentMountMatchesAnyMethod("/foo/bar", handler, Request("POST", "/foo/bar"));
  }

  /**
   * With a GET rule mounted before a POST rule on the same path, a POST
   * passes the GET rule on to `next` and runs the POST rule's handler.
   */
  lemma MethodSelectsRule(getHandler: Value, postHandler: Value)
    requires AcceptedHandler(getHandler) && AcceptedHandler(postHandler)
    ensures Mount(Str("GET"), Str("/foo/bar"), getHandler).Normal?
    ensures Mount(Str("POST"), Str("/foo/bar"), postHandler).Normal?
    ensures Dispatch(Mount(Str("GET"), Str("/foo/bar"), getHandler).value,
                     Request("POST", "/foo/bar")) == Normal(CallNext)
    ensures Dispatch(Mount(Str("POST"), Str("/foo/bar"), postHandler).value,
                     Request("POST", "/foo/bar")) == Normal(RunHandler)
  {
    var req := Request("POST", "/foo/bar");
    MethodMountSelectsByMethod("GET", "/foo/bar", getHandler, req);
    MethodMountSelectsByMethod("POST", "/foo/bar", postHandler, req);
    PathLiterals();
    MethodLiterals();
  }

  /** A plain function handler is refused when the rule is built. */
  lemma PlainFunctionRefused()
    ensures Mount(Str("/foo/bar"), Func("function(next) { }"), Undefined) == Throws(NotGeneratorMessage)
  {
  }

  /**
   * The generator pattern accepts only anonymous generators written
   * "function*(" or "function *(" (each space optional): a named
   * generator is refused like a plain function.
   */
  lemma NamedGeneratorRefused()
    ensures Mount(Str("/foo/bar"), Func("function* handler(next) { }"), Undefined)
              == Throws(NotGeneratorMessage)
  {
    var t := "function* handler(next) { }";
    assert t[..8] == "function" && t[8] == '*' && t[9] == ' ' && t[10] == 'h';
    assert SkipOptionalSpace(t[8..]) == t[8..];
    assert SkipOptionalSpace(t[9..]) == t[10..];
  }

  /** A query string on the request does not stop the path from matching. */
  lemma QueryStringIgnored(handler: Value)
    requires AcceptedHandler(handler)
    ensures Mount(Str("/foo/bar"), handler, Undefined).Normal?
    ensures Dispatch(Mount(Str("/foo/bar"), handler, Undefined).value,
                     Request("GET", "/foo/bar?baz=qux&abc=123")) == Normal(RunHandler)
  {
    PathLiterals();
    TwoArgumentMountIgnoresQuery("/foo/bar", "baz=qux&abc=123", handler, "GET");
  }
}
