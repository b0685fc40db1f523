# Lynq router dispatch and the person controller, in Dafny

This project models two parts of a small PHP web framework.

The main part is the request dispatch of `Lynq\Router\Node::_appRoute`. It works like this:
- It reads the logical URL from the `lynqQueryUrl` query parameter. The default is `/`.
- It right-trims every `/` from the URL, except when the URL is exactly `/`.
- It looks the URL up in the route table.
- An unmapped URL gets status 404, and the render basket gets `{error: 'The controller does not exist'}`.
- For a mapped URL, it first issues the route's `redirectTo`, if there is one. It then runs the route's `authguard` list in order. Each guard gets the route's `path` entry. The first guard that refuses ends the process with `die()`.
- If no guard refuses, it records the controller name in `aleph` and in `_router[0]`. It stores the route in the legacy registry and constructs `Controller` around `namespace ?? '\Api\Controllers\'` followed by the controller name.
- Every run that is not stopped ends with `Program::render()`.

The smaller part is the verb handlers of `Api\Controllers\PersonController`. These are `httpGet`, `httpPost`, `httpPut`, `_editPerson`, `httpDelete`, and `onInit`, which stores the data-access object.

Files:
- `wrappers.dfy`: `Option`, for PHP's null-or-value slots and for `??`.
- `php_values.dfy`: PHP values. PHP arrays are modelled as `map<string, Value>`; PHP merges the keys `0` and `"0"`, so an integer key is stored as its decimal string. The file also defines `empty()`, truthiness, `(int)` and `(array)`.
- `router_node.dfy`: the `Router` module. It holds the descriptor, effect, state and request types and the pure specification of one dispatch (`AppRouteSpec`, split into `NotFound` and `Dispatch`, and `RouterSpec`). Two classes live here:
  - `Runtime` holds the process-wide side of a request: the response code, the basket's `result`, the effect trace and whether the process stopped.
  - `Node` holds the router object, with every property in one map `props`. Its methods `Router`, `AppRoute`, `RunAuthguards`, `Get` and `Set` run the PHP steps imperatively and are proved equal to the specification.
- `router_properties.dfy`: lemmas about the specification. They cover URL normalisation, the 404 path, redirect ordering, guard order and short-circuiting, the controller class name, and exactly-once rendering.
- `person_controller.dfy`: the `Controllers` module. The person handlers are pure functions of the form, the ids, the paging properties and the answers of an oracle `PersonModel`. Each returns the array it builds and the model calls it made.

Inputs that come from outside the core are parameters of `Request`:
- the query value;
- the route table;
- each guard's `canActivate` answer;
- whether `Program::redirect` ends the process;
- whether the router file exists.

Facts about the code that the model keeps:
- A refused guard calls `die()`; there is no 403 answer.
- An unknown guard or controller class is not handled; in PHP it is a fatal error.
- There is no 405 or 400 answer.
- Route keys are not case-folded. Only trailing `/` is trimmed, and `//` becomes the empty string.
- Verb selection happens in `Lynq\Core\Controller`, not in `Node`.
- `$routerPath != null` is PHP's loose comparison. A route entry that is an empty array (no keys at all) is treated like an unmapped URL. An entry with keys is dispatched even when every key holds null.
- `$this->_router[0] = ...` on a string `_router` (which the public `set` can store) overwrites the string's first character instead of building an array.

## Model

| member | source | states |
|---|---|---|
| `Router.TrimTrailingSlashes` | vendor/projectair/cqured/router/Node.php:71 | `rtrim($url, '/')` keeps a prefix of the input, never ends in `/`, and removes only `/` characters |
| `Router.NormalizeUrl` | vendor/projectair/cqured/router/Node.php:70-71 | a missing query becomes `/`; `/` stays `/`; any other URL loses all trailing `/`; the result ends in `/` only when it is exactly `/` |
| `RouterProperties.NormalizeIdempotent` | vendor/projectair/cqured/router/Node.php:70-71 | normalising twice equals normalising once |
| `RouterProperties.NormalizeOnlySlashes` | vendor/projectair/cqured/router/Node.php:71 | a URL of only slashes other than `/` (e.g. `//`) normalises to the empty string |
| `RouterProperties.NormalizeKeepsPrefix` | vendor/projectair/cqured/router/Node.php:71 | normalisation keeps a prefix of the query and drops only `/`, so no case folding happens |
| `Router.FirstDenied` | vendor/projectair/cqured/router/Node.php:93-100 | finds the first guard index whose `canActivate` is false: all earlier guards passed; none means every guard passed |
| `Router.GuardCalls` | vendor/projectair/cqured/router/Node.php:93-97 | the guard calls in list order, the j-th calling guard j with the route's `path` |
| `Router.AppRouteSpec` | vendor/projectair/cqured/router/Node.php:62-123 | one dispatch only appends to the effect trace; its result is the whole new state (props, status, basket, trace, halted) |
| `Router.RouterSpec` | vendor/projectair/cqured/router/Node.php:44-53 | `router` only appends to the effect trace; it stores the config and then dispatches or echoes |
| `Router.Node.AppRoute` | vendor/projectair/cqured/router/Node.php:62-123 | the imperative `_appRoute` leaves node and runtime exactly in the state `AppRouteSpec` gives |
| `Router.Node.RunAuthguards` | vendor/projectair/cqured/router/Node.php:90-102 | the `for` loop over `authguard` calls guards from index 0 up to the first refusal, then dies; it returns true exactly when every guard passed |
| `Router.Node.ControllerAndRender` | vendor/projectair/cqured/router/Node.php:108-122 | sets `aleph` to the controller and assigns it at `_router[0]` by `AssignAtZero` (array entry, or first character of a string), stores the route, constructs the controller, then renders |
| `Router.Node.Router` | vendor/projectair/cqured/router/Node.php:44-53 | the imperative `router` leaves node and runtime exactly in the state `RouterSpec` gives |
| `Router.Node.Set` | vendor/projectair/cqured/router/Node.php:27-37 | after `set(k, v)`, `get(k)` returns `v` and every other key reads as before |
| `Router.Node.constructor` | vendor/projectair/cqured/router/Node.php:18-21 | the declared properties start as declared; `get` of any other key, `_router` included, is null |
| `Router.Runtime.IssueRedirect` | vendor/projectair/cqured/router/Node.php:85 | `Program::redirect` is recorded and stops the process exactly when the oracle says it exits |
| `Router.Runtime.CallGuard` | vendor/projectair/cqured/router/Node.php:95-97 | a guard call is recorded with its path argument and answers with the guard oracle |
| `Router.Runtime.Exit` | vendor/projectair/cqured/router/Node.php:98 | `die()` is recorded and stops the process |
| `Router.Runtime.StoreRoute` | vendor/projectair/cqured/router/Node.php:111 | `$legacy->set('routerPath', ...)` is recorded with the route |
| `Router.Runtime.ConstructController` | vendor/projectair/cqured/router/Node.php:115 | `new Controller(new $class, $this->_router)` is recorded with the class name and router array |
| `Router.Runtime.SetResponseCode` | vendor/projectair/cqured/router/Node.php:117 | `http_response_code` sets the status and nothing else |
| `Router.Runtime.SetBasketResult` | vendor/projectair/cqured/router/Node.php:118 | `$basket->result = ...` sets the basket and nothing else |
| `Router.Runtime.RenderResponse` | vendor/projectair/cqured/router/Node.php:122 | `Program::render()` is recorded |
| `Router.Runtime.EchoText` | vendor/projectair/cqured/router/Node.php:51 | the missing-file message is recorded |
| `RouterProperties.UnmappedRouteIs404` | vendor/projectair/cqured/router/Node.php:116-122 | an unmapped URL sets 404 and `{error: 'The controller does not exist'}`, calls no guard, constructs nothing, renders once, changes no property |
| `RouterProperties.RedirectPrecedesGuards` | vendor/projectair/cqured/router/Node.php:84-97 | with `redirectTo`, the redirect is the first effect, before any guard call; if it exits, it is the only one |
| `RouterProperties.GuardPhaseCalls` | vendor/projectair/cqured/router/Node.php:93-100 | the guard phase calls exactly the guards up to the first refusal, in list order, each with the route path |
| `RouterProperties.GuardsRunInListOrder` | vendor/projectair/cqured/router/Node.php:90-101 | the guards called in a dispatch are the route's guard list from index 0 up to the first refusal, each given the route's `path`, not the URL |
| `RouterProperties.DeniedGuardTerminates` | vendor/projectair/cqured/router/Node.php:97-99 | when guard k refuses: the process stops, guards after k never run, no controller is constructed, nothing renders, properties and response are untouched |
| `RouterProperties.PassedGuardsBuildController` | vendor/projectair/cqured/router/Node.php:108-115 | when all guards pass: the constructed class is `namespace ?? '\Api\Controllers\'` plus the controller; `aleph` holds the controller; `_router[0]` holds it when `_router` was unset, false or an array, and a string `_router` gets its first character at offset 0; render follows |
| `RouterProperties.NullControllerEntryDispatches` | vendor/projectair/cqured/router/Node.php:82-115 | an entry `['controller' => null]` is not loosely null: it is dispatched with null in `aleph` and `_router[0]` and the bare default namespace as class, and no 404 is set |
| `RouterProperties.RenderOnceUnlessTerminated` | vendor/projectair/cqured/router/Node.php:82-122 | every dispatch that does not stop the process renders exactly once, on the found and the not-found path; a stopped one never renders |
| `RouterProperties.MissingRouterFileSkipsDispatch` | vendor/projectair/cqured/router/Node.php:48-52 | without the router file, only the config is stored and the message echoed: no lookup effect, no render |
| `RouterProperties.PersonRouteExample` | vendor/projectair/cqured/router/Node.php:108-115 | `/person/` against `{"/person": PersonController}` constructs `\Api\Controllers\PersonController` with `_router = [0 => 'PersonController']` |
| `RouterProperties.RefusingFirstGuardExample` | vendor/projectair/cqured/router/Node.php:93-99 | with guards `[AuthGuard, AdminGuard]` and AuthGuard refusing, AdminGuard is never called and the process dies |
| `Controllers.PersonRecord` | api/controllers/PersonController.php:84-88 | the stored record has exactly `name` (from the given key), `email`, and `gender` as the int cast of the form's gender |
| `Controllers.HttpGet` | api/controllers/PersonController.php:35-66 | with an id: the array cast of `getPerson(id[0])`, calling only `getPerson`; without: exactly `data`, `page`, `pageSize`, `total` from `getPersons`, the page and `countPersons` |
| `Controllers.HttpGetUsesFirstIdOnly` | api/controllers/PersonController.php:40-44 | only the first id affects the answer, and the list queries are not called |
| `Controllers.HttpPost` | api/controllers/PersonController.php:76-103 | `success` is always true; `id` is `getLastId()`; the record's name comes from `title`; the message says saved exactly when `addPerson` is truthy |
| `Controllers.HttpPostNamesFromTitle` | api/controllers/PersonController.php:84-88 | the stored name is `form['title']`, not `form['name']` |
| `Controllers.HttpPut` | api/controllers/PersonController.php:115-126 | `success` is false exactly when name, gender or email is PHP-empty; then the answer is `{success: false, msg: 'All fields are required'}` and no model call is made; otherwise it is `_editPerson(form, id)` |
| `Controllers.HttpPutRejectsZeroGender` | api/controllers/PersonController.php:118-123 | a gender of `0` or `"0"` is rejected without calling `updatePerson` |
| `Controllers.HttpPutAcceptedUpdatesSameId` | api/controllers/PersonController.php:124 | an accepted put updates the same id, reports success, and has no `id` key |
| `Controllers.EditPerson` | api/controllers/PersonController.php:135-159 | keys are exactly `success` and `msg`; `success` is always true; the message says updated exactly when `updatePerson` is truthy |
| `Controllers.HttpDelete` | api/controllers/PersonController.php:168-175 | the answer is exactly `{success: s}`, where `s` is what `deletePerson(id)` returned |
| `Controllers.PersonController.OnInit` | api/controllers/PersonController.php:23-26 | `onInit` stores the data-access object |

## Left out

- `index.php` is not part of this model. It is bootstrap and I/O only: session start, config loading, headers, the offline JSON echo and the construction of `Core`.
- The internals of these collaborators are not modelled. Each one is an oracle or a recorded effect:
  - `Program`: the singleton registry, `redirect` and `render`;
  - `Routes::getPath`: taken to be an exact-match lookup in a `map`;
  - `Lynq\Core\Controller`: verb selection and argument passing;
  - the guard model classes;
  - `PersonModel`: database access.
- What the constructed controller and `render` write is not modelled: the basket on the found path and the JSON output.
- `include_once` and `file_exists` are not modelled. The file's existence is a boolean input.
- Fatal errors are not modelled. These include `new` on an unknown guard or controller class, and `count()` on an `authguard` that is not an array.
- `Router.Node.ControllerAndRender`: `$this->_router[0] = ...` is not modelled when `_router` holds an int, a float, `true` or an object, or when `_router` is a string and the controller is null or empty. PHP raises an error or a warning there, depending on its version; the model leaves `_router` unchanged. It also follows PHP 7.1 and later, where an empty string `_router` stays a string.
- `Router.Runtime.IssueRedirect`: the body of `Program::redirect` is not part of this model, so whether it ends the process is an oracle. The only claim is that the redirect comes before any guard.
- `Controllers.HttpPost`: `getLastId()` is an oracle value, namely what the model reports right after `addPerson`. The model's hidden state is not tracked.
- The request query is a string or absent. An array-valued query parameter is not modelled.
- PHP floats are left out of `empty()` and `(int)`. `(int)` on strings reads leading white space, a sign and decimal digits. It does not handle exponent forms, 64-bit saturation or 64-bit integer width.
- PHP array insertion order is not modelled.
- The runtime's initial response code is assumed to be 200 and its basket null.
