# mountain-js routing, modelled in Dafny

mountain-js is a middleware for the koa web framework.
`mount([method,] path, handler)` returns a middleware generator.
For each request, that middleware either runs the handler or passes the request on to `next`.
It runs the handler when both of these hold:

- the request's method matches the configured method, ignoring letter case, or no method was configured;
- the request URL, with its query string removed, is exactly the configured path.

This project models that routing decision as pure functions over values, in three files:

- `js_string.dfy` (module `JsString`) models the string operations the router uses. `toUpperCase` is modelled for ASCII only. `split("?")[0]` is modelled as `BeforeQuery`. The regular expression `isGenerator` tests is modelled as `MatchesGeneratorPattern`. Each has an independent reference definition and lemmas that link it to that definition.
- `mount.dfy` (modules `JsValue` and `Mountain`) models `mount`, `isGenerator`, `isMethod`, `pathsMatch` and the middleware body of index.js.
  - JavaScript arguments are `Value`s: `undefined`, `null`, a string, or a function. A function is known by its source text, which is what its `toString()` returns.
  - A call that can throw returns a `Completion`, which is either `Normal(value)` or `Throws(error)`.
  - The middleware's decision is `Outcome`, which is either `RunHandler` or `CallNext`.
- `scenarios.dfy` (module `MountainScenarios`) states the scenarios of test/index.js as lemmas.

`isGenerator` (index.js:77-79) does not ask whether a value is a generator function. It tests whether the value's `toString()` text starts with "function", an optional white-space character, '*', an optional white-space character and '('. So only anonymous generators written like `function*(`, `function *(`, `function* (` or `function * (` are accepted. A named generator such as `function* handler(next) {}` is refused with the same error as a plain function. So is one with two spaces before the '*'. A string whose text has that shape is accepted, because a string's `toString()` is itself. The model follows the code here too.

The doc comment at index.js:12 says the method "defaults to GET". The code does something else. A two-argument call sets the method to `null`, and `isMethod` treats a falsy method as matching every method (index.js:23, 61-63). The test at test/index.js:10-22 relies on this. The model follows the code.

## Model

| member | source | states |
|---|---|---|
| `JsString.ToUpperCase` | index.js:65 | ASCII `toUpperCase`: the result has the same length, each character is upper-cased in place, and no lower-case letter remains |
| `JsString.UpperCharAgrees` | index.js:65 | two characters upper-case to the same character exactly when they are equal or are the same letter in the other case |
| `JsString.ToUpperCaseAgrees` | index.js:65 | comparing upper-cased strings is, in both directions, the same as the character-by-character reference definition of case-insensitive equality |
| `JsString.EqualsIgnoringCaseEquivalence` | index.js:65 | case-insensitive equality is reflexive, symmetric and transitive |
| `JsString.BeforeQuery` | index.js:48 | `url.split("?")[0]` is a prefix of the URL, contains no '?', and is either the whole URL or is followed by the URL's first '?' |
| `JsString.BeforeQueryUnique` | index.js:48 | those three properties determine the stripped URL uniquely |
| `JsString.BeforeQueryDropsQuery` | index.js:48 | for a path without '?', stripping keeps the path whole, and a query appended with '?' is removed completely |
| `JsString.BeforeQueryIs` | index.js:48 | the stripped URL equals `path` if and only if `path` has no '?' and the URL is `path` alone or `path` followed by '?' and a query |
| `JsString.ShapeMatchesGeneratorPattern` | index.js:78 | a text that starts with "function", an optional white-space character, '*', an optional white-space character and '(' passes the `isGenerator` test |
| `JsString.GeneratorPatternHasShape` | index.js:78 | a text that passes the `isGenerator` test starts with one of those shapes |
| `JsString.MatchesGeneratorPatternIff` | index.js:78 | the `isGenerator` test accepts a text if and only if the text starts with one of those shapes |
| `Mountain.IsGenerator` | index.js:77-79 | a function or a string gives the result of the generator pattern on its text. `undefined` or `null` throw a TypeError, because they have no `toString` |
| `Mountain.Mount` | index.js:19-28 | when `fn` is undefined, the arguments shift: the path is the first argument, the handler is the second, and the method is `null`. A middleware is returned exactly when the handler is a function or string whose text matches the generator pattern. Otherwise no middleware is returned. An `undefined` or `null` handler throws a TypeError, and any other handler throws "handler function must be a GeneratorFunction" |
| `Mountain.IsMethod` | index.js:60-66 | a falsy method (`undefined`, `null` or `""`) matches every request. A non-empty string matches exactly the request methods equal to it ignoring case. A function method throws a TypeError |
| `Mountain.PathsMatch` | index.js:47-50 | a path matches a URL if and only if the path is a string without '?' and the URL is that path alone or followed by '?' and a query. There is no prefix matching and no normalisation |
| `Mountain.Dispatch` | index.js:30-36 | the handler runs exactly when the method matches and then the path matches. `next` is called exactly when one of the two fails. The middleware throws exactly when the configured method is a function |
| `Mountain.MissingHandlerThrowsTypeError` | index.js:20-28 | a two-argument call with an `undefined` or `null` handler throws a TypeError, and so does a three-argument call with a `null` handler |
| `Mountain.TwoArgumentMountMatchesAnyMethod` | index.js:19-24 | a two-argument mount with an accepted handler builds a middleware. For every request method, it runs the handler exactly when the URL before its query is the path, and calls `next` otherwise |
| `Mountain.MethodMountSelectsByMethod` | index.js:30-36 | a mount with a non-empty method runs the handler exactly when the request method equals it ignoring case and the stripped URL is the path. For every other request it calls `next` |
| `Mountain.TwoArgumentMountIgnoresQuery` | index.js:19-24 | with two arguments, a path without '?' and an accepted handler, the handler runs for that path followed by '?' and any query, whatever the request method |
| `Mountain.IsMethodIgnoresCase` | index.js:65 | changing the letter case of the configured method, the request method, or both never changes the result of `isMethod` |
| `Mountain.PathsMatchIgnoresQuery` | index.js:47-50 | appending a query string to a URL without '?' never changes whether it matches |
| `MountainScenarios.GeneratorAccepted` | test/index.js:12 | the tests' anonymous `function *(next)` handler passes the generator test |
| `MountainScenarios.NoMethodAnswersPost` | test/index.js:10-22 | a rule mounted on "/foo/bar" without a method, with any accepted handler, runs its handler for `POST /foo/bar` |
| `MountainScenarios.MethodSelectsRule` | test/index.js:24-43 | with any accepted handlers and a `POST /foo/bar` request, the GET rule calls `next` and the POST rule runs its handler |
| `MountainScenarios.PlainFunctionRefused` | test/index.js:45-51 | mounting a plain function throws "handler function must be a GeneratorFunction" |
| `MountainScenarios.NamedGeneratorRefused` | index.js:78 | mounting the named generator `function* handler(next) { }` throws "handler function must be a GeneratorFunction" |
| `MountainScenarios.QueryStringIgnored` | test/index.js:53-71 | `GET /foo/bar?baz=qux&abc=123` runs the handler of a rule mounted on "/foo/bar" with any accepted handler |

## Left out

- The model does not run the handler or `next` (index.js:32, 35). koa's generator and `yield` machinery is not modelled. The decision is returned as an `Outcome` value instead.
- `Mountain.IsGenerator`: a function's `toString()` is taken to be its source text as written. Engines that print some other text for a function are not modelled. The pattern itself is modelled as the code has it, so named generators and other spellings are refused, as described above.
- `JsString.ToUpperCase`: only ASCII letters are upper-cased. Full Unicode upper-casing is not modelled; it can change a string's length, as with "ß". HTTP method names are ASCII.
- Arguments are limited to `undefined`, `null`, strings and functions. Numbers, booleans, objects and the other falsy values (`0`, `NaN`, `false`) are not modelled.
- `Mountain.IsGenerator` and `Mountain.Mount`: the error for an `undefined` or `null` handler is modelled by the name TypeError only. JavaScript's message text depends on the engine.
- The koa application, the HTTP server, supertest and network I/O in test/index.js are not part of this model. The tests only serve as scenarios.
