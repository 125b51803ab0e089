# Alfajor API-client contract: the Zero client and the lifecycle managers

This project models the core of Alfajor's pluggable API clients, as used by its test
harness.

- The reference client `Zero` has `open` as its single request primitive.
- Its six verb methods (`get`, `head`, `post`, `put`, `delete`, `options`) only shape their
  arguments into one `open` call.
- Every response is a `ZeroResponse` with fixed attributes. It remembers the client that
  produced it.
- Two lifecycle managers build clients. `ZeroManager` returns a new `Zero`. `WSGIManager`
  resolves an application from its backend configuration and builds a WSGI client from it.

Files:

- `wrappers.dfy` (module `Wrappers`): `Option` and `Result`.
- `zero.dfy` (module `ZeroClient`): covers `alfajor/apiclient/zero.py`.
  - `Request` is the eight arguments of `open`. Its `verb` field is the Python `method`
    argument, renamed because `method` is a Dafny keyword.
  - `Call` is one verb-method call, holding exactly the parameters that method exposes.
  - `Shape` is the record a verb call hands to `open`.
  - `Classify` is the inverse of `Shape`.
  - `WellShaped` states the payload table on its own terms: query only for GET/HEAD, post data
    only for POST, a raw body only for PUT/OPTIONS, nothing for DELETE, and never an HTTP
    version override.
  - `Zero` is a class with only constants, because object identity is what `ZeroResponse.client`
    and "a new `Zero`" are about. `ZeroResponse` is a datatype whose constant members are the
    Python class attributes.
- `managers.dfy` (module `Managers`): covers `alfajor/apiclients/managers.py`.
  - The managers are datatypes. They keep no state beyond the configuration.
  - `WSGIManager.Create` takes two functions as parameters: the dotted-path resolver (`resolve`)
    and the WSGI client constructor (`construct`). The model makes no claim about either.
  - `resolve` answers `None` where the resolver would raise. That error propagates out of
    `create`, so it becomes `UnresolvedEntryPoint`.
  - A missing `'server-entry-point'` key is the Python `KeyError`. It becomes `MissingKey`.

Where the doc-comments and the code disagree, the model follows the code. The doc-comment of
`ZeroResponse.client` (alfajor/apiclient/zero.py:101-108) promises a new, independent client,
but the code returns the stored originating client (alfajor/apiclient/zero.py:110).
`capabilities` is a list (alfajor/apiclient/zero.py:21), modelled as `seq<string>`.

The verb methods call `self.open`, so a client that overrides `open` keeps them. `GetVia` …
`OptionsVia` state each verb method for an arbitrary `open` primitive, and `Zero`'s own verb
methods are those wrappers applied to `Zero.Open`.

## Model

| member | source | states |
|---|---|---|
| `ZeroClient.Shape` | alfajor/apiclient/zero.py:37-64 | every verb call forwards its uri, base URL and headers unchanged, uses a verb token as the method and never overrides the HTTP version |
| `ZeroClient.GetHeadShape` | alfajor/apiclient/zero.py:37-45 | `get`/`head` call `open` with `'GET'`/`'HEAD'` and forward query, base URL and headers; post, body and HTTP version stay None |
| `ZeroClient.PostShape` | alfajor/apiclient/zero.py:47-50 | `post` calls `open` with `'POST'` and forwards only the post data; query, body and HTTP version stay None |
| `ZeroClient.PutShape` | alfajor/apiclient/zero.py:52-55 | `put` calls `open` with `'PUT'` and forwards only the body; query, post and HTTP version stay None |
| `ZeroClient.OptionsShape` | alfajor/apiclient/zero.py:61-64 | `options` calls `open` with `'OPTIONS'` and forwards only the body; query, post and HTTP version stay None |
| `ZeroClient.DeleteShape` | alfajor/apiclient/zero.py:57-59 | `delete` calls `open` with `'DELETE'` and no payload at all |
| `ZeroClient.ClassifyShape` | alfajor/apiclient/zero.py:37-64 | round trip: the verb call can be recovered from the record `open` receives |
| `ZeroClient.ShapeClassify` | alfajor/apiclient/zero.py:37-64 | round trip the other way: a request that classifies as a call is exactly the record that call hands to `open` |
| `ZeroClient.ClassifyIffWellShaped` | alfajor/apiclient/zero.py:37-64 | a request is recognised as some verb call if and only if it obeys the payload table |
| `ZeroClient.ShapeImage` | alfajor/apiclient/zero.py:37-64 | the records the verb methods can hand to `open` are exactly the well-shaped requests (both directions) |
| `ZeroClient.ShapeInjective` | alfajor/apiclient/zero.py:37-64 | two different verb calls never reach `open` with the same record |
| `ZeroClient.GetVia` | alfajor/apiclient/zero.py:37-40 | for every `open`, `get` returns exactly what `open` returns on the GET record of `Shape` |
| `ZeroClient.HeadVia` | alfajor/apiclient/zero.py:42-45 | for every `open`, `head` returns exactly what `open` returns on the HEAD record of `Shape` |
| `ZeroClient.PostVia` | alfajor/apiclient/zero.py:47-50 | for every `open`, `post` returns exactly what `open` returns on the POST record of `Shape` |
| `ZeroClient.PutVia` | alfajor/apiclient/zero.py:52-55 | for every `open`, `put` returns exactly what `open` returns on the PUT record of `Shape` |
| `ZeroClient.DeleteVia` | alfajor/apiclient/zero.py:57-59 | for every `open`, `delete` returns exactly what `open` returns on the payload-free DELETE record of `Shape` |
| `ZeroClient.OptionsVia` | alfajor/apiclient/zero.py:61-64 | for every `open`, `options` returns exactly what `open` returns on the OPTIONS record of `Shape` |
| `ZeroClient.InvokeVia` | alfajor/apiclient/zero.py:37-64 | for every `open`, whichever verb method a call names returns `open` applied to that call's shaped record, with no logic of its own |
| `ZeroClient.Zero.Get` | alfajor/apiclient/zero.py:37-40 | Zero's `get` returns exactly what Zero's `open` returns on the GET record of `Shape`: the fixed response, with status code 0, whose client is this client |
| `ZeroClient.Zero.Head` | alfajor/apiclient/zero.py:42-45 | Zero's `head` returns exactly what Zero's `open` returns on the HEAD record of `Shape`: the fixed response, with status code 0, whose client is this client |
| `ZeroClient.Zero.Post` | alfajor/apiclient/zero.py:47-50 | Zero's `post` returns exactly what Zero's `open` returns on the POST record of `Shape`: the fixed response, with status code 0, whose client is this client |
| `ZeroClient.Zero.Put` | alfajor/apiclient/zero.py:52-55 | Zero's `put` returns exactly what Zero's `open` returns on the PUT record of `Shape`: the fixed response, with status code 0, whose client is this client |
| `ZeroClient.Zero.Delete` | alfajor/apiclient/zero.py:57-59 | Zero's `delete` returns exactly what Zero's `open` returns on the DELETE record of `Shape`: the fixed response, with status code 0, whose client is this client |
| `ZeroClient.Zero.Options` | alfajor/apiclient/zero.py:61-64 | Zero's `options` returns exactly what Zero's `open` returns on the OPTIONS record of `Shape`: the fixed response, with status code 0, whose client is this client |
| `ZeroClient.Zero.Open` | alfajor/apiclient/zero.py:32-35 | for any arguments, `open` returns a response whose client is this client, with status code 0, no status, no request URI, empty headers and cookies, no response source, `is_json` false and `json` None |
| `ZeroClient.Zero.Invoke` | alfajor/apiclient/zero.py:37-64 | whichever of Zero's verb methods a call names returns exactly what `open` returns on that call's shaped record, which is the fixed response `ZeroResponse(this)` |
| `ZeroClient.InvokeFixedResponse` | alfajor/apiclient/zero.py:76-97 | every verb call answers with the fixed-valued response whose client is the caller |
| `ZeroClient.Zero.SetCookie` | alfajor/apiclient/zero.py:66-67 | setting a cookie changes nothing: no frame, client unchanged |
| `ZeroClient.Zero.DeleteCookie` | alfajor/apiclient/zero.py:69-70 | deleting a cookie changes nothing: no frame, client unchanged |
| `ZeroClient.ZeroDefaults` | alfajor/apiclient/zero.py:20-30 | a Zero has no capabilities, HTTP version `'HTTP/1.0'` and the zero-client/python/0.1 user agent |
| `ZeroClient.ZeroResponse.Client` | alfajor/apiclient/zero.py:96-110 | the accessor returns the stored originating client. It is the same object on every access, not a new one as the doc-comment claims |
| `ZeroClient.FollowReturnsOriginator` | alfajor/apiclient/zero.py:96-110 | following `response.client` through any chain of verb calls always leads back to the first client, so no hop yields an independent client |
| `Managers.BaseUrl` | alfajor/apiclients/managers.py:22 | the base URL is the configuration's `'base_url'` value when that key is present and None exactly when it is absent |
| `Managers.NewWSGIManager` | alfajor/apiclients/managers.py:13-14 | the manager keeps the backend configuration; frontend name and runner options are discarded |
| `Managers.WSGIManager.Create` | alfajor/apiclients/managers.py:16-25 | fails with a missing-key error exactly when `'server-entry-point'` is absent, and with a resolution error when the resolver rejects the entry point. Otherwise it builds the client from the app resolved from exactly that entry point and from the configured base URL |
| `Managers.MissingEntryPointConsultsNothing` | alfajor/apiclients/managers.py:19-20 | without an entry point, `create` fails the same way whatever the resolver and client constructor are, so neither is consulted |
| `Managers.CreateReadsOnlyTwoKeys` | alfajor/apiclients/managers.py:19-22 | configurations that agree on the entry point and on the base URL give the same `create` result |
| `Managers.BaseUrlIsOptional` | alfajor/apiclients/managers.py:22-25 | removing `'base_url'` never turns success into failure; the client is then built with base URL None |
| `Managers.WSGIManager.Destroy` | alfajor/apiclients/managers.py:27-28 | teardown has no precondition and leaves the configuration as it was |
| `Managers.DestroyKeepsCreate` | alfajor/apiclients/managers.py:27-28 | after a teardown `create` builds the same result, and two teardowns return the manager itself (hence any number, since `Destroy` returns its receiver) |
| `Managers.NewZeroManager` | alfajor/apiclients/managers.py:34-35 | constructing a ZeroManager stores nothing: the result is the one stateless manager |
| `Managers.ZeroManager.Create` | alfajor/apiclients/managers.py:37-40 | every `create` returns a newly allocated Zero with no capabilities and HTTP version `'HTTP/1.0'` |
| `Managers.ZeroManager.Destroy` | alfajor/apiclients/managers.py:42-43 | teardown has no precondition and leaves the manager as it was |
| `Managers.ZeroManagerIgnoresArguments` | alfajor/apiclients/managers.py:34-35 | a ZeroManager is the same whatever frontend name, configuration and runner options it is given |

## Left out

- `ZeroClient.ZeroResponse.Client`: the doc-comment at alfajor/apiclient/zero.py:101-108 promises a new client for each access. That client would carry this response's cookies and send its URL as referrer. The code returns the stored client, and the model states what the code does.
- Logging (`logger.debug` in `create` and `destroy` of both managers, alfajor/apiclients/managers.py:23, 28, 39, 43): output only, with no effect on results or state.
- The dotted-path resolver `eval_dotted_path` and the WSGI client `alfajor.apiclients.wsgi.WSGI` are not part of this model. They are parameters of `WSGIManager.Create`. A failure raised by the WSGI constructor is not modelled, so `construct` is total.
- `Managers.NewWSGIManager`: `self.config = backend_config` (alfajor/apiclients/managers.py:14) keeps a reference to the caller's dict, so a later change to that dict changes what `create` reads. The model stores the configuration as a value, so this aliasing is not captured.
- The `**kw` option bags of `set_cookie` and `delete_cookie` are dropped, since the methods ignore them.
- Payload and header types: `query` and `post` are mappings of strings, `body` is a string, and `headers` is a sequence of name/value pairs. Python accepts any object there, and the code never inspects it.
- `json` is typed as optional text. It is the constant None, and this client never parses anything.
- Class attributes shared by every instance: the response's `headers` and `cookies` dicts (alfajor/apiclient/zero.py:81-82), and the client's `capabilities` list and `user_agent` dict (alfajor/apiclient/zero.py:21, 26-30). A caller could mutate them for all instances at once. The model treats them as constants.
- The dynamic imports inside `create` are dropped. `ZeroManager.create` imports `alfajor.apiclients.zero`, and the model takes the `Zero` of `alfajor/apiclient/zero.py` as that class.
- `destroy` "never fails however often it is called" is shown by the shape of the operation: a total function without a precondition, returning the unchanged manager.
