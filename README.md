# Platzigram data layer and pictures dispatcher, modelled in Dafny

This project models two pieces of the Platzigram backend.

The first is the data-access client `Db` of `platzigram-bd`. It resolves its connection settings, with defaults `localhost`, `28015` and `platzigram`. `connect` opens a new handle, marks the client connected, and then provisions the server: the target database is created if missing, then the `images` and `users` tables. `disconnect` rejects with `not connected` unless connected; otherwise it clears the flag and closes the handle. `saveImage` rejects with `not connected` unless connected. Otherwise it stamps `createdAt` on the caller's object, inserts it, and then either rejects with the server's `first_error` or sets `id` to the first generated key and returns the same object.

The second is the pictures service of `platzigram-api`. Its route table gets three routes at load time: `GET /:id`, `POST /` and `POST /:id/like`. Each handler connects, performs one db operation, disconnects, and sends 200 (201 for creation) with the operation's result. `main` builds the key from the upper-cased method, a space and the raw url. It answers 404 `{error: 'route not found'}` when no route fits. When the handler throws, it answers 500 with `{error: message}`.

Files and modules:

- `values.dfy` (`Values`): JavaScript-like values with their truthiness, `||` and property access, `Error`, and `Result` (how a promise settles).
- `store.dfy` (`Store`): the RethinkDB server as an abstract state. It holds a map from database name to table names and the rows of each table. The class `Server` changes that state in place through `DbCreate`, `TableCreate` and `InsertRow`.
- `db.dfy` (`Db`): the settings resolution, the provisioning plan and its lemmas, and the classes `Connection`, `Image` and `Db`. `Db`'s methods are proved against the pure plan and store functions.
- `routes.dfy` (`Routes`): splitting a key on `/`, patterns with `:name` parameters, first-fit lookup, and the class `RouteTable` that `set` fills.
- `pictures.dfy` (`Pictures`): the route key, the registered routes, and an abstract db (`DbClient`). Every call to it is recorded and answered by a reply function, so any call may fail. It also holds the three handlers, `Dispatch` (the service's `main`), and `Serve`, a pure reference for what a request produces, with lemmas about status codes and call order.

Behaviour of the code worth knowing:

- Provisioning runs on every `connect`, not only the first.
- `connect` always opens a new handle and never reuses the old one. Reconnecting without a disconnect leaves the earlier handle open, and the model keeps that: it gives no close to the old handle.
- `getImage` and `likeImage` are not defined in `platzigram-bd/lib/db.js`. In the model they are db calls whose answer is arbitrary, with no not-found or increment behaviour.
- The dispatcher maps every failure to 500.

No source bug was established. One consequence of the handlers' straight-line order is proved: when the operation fails, `disconnect` is never called and the db stays connected (`Pictures.FailingOperationSkipsDisconnect`).

## Model

| member | source | states |
|---|---|---|
| `Db.Resolve` | platzigram-bd/lib/db.js:10-25 | every resolved setting is truthy: host and database name non-empty, port non-zero |
| `Values.Or` | platzigram-bd/lib/db.js:21-24 | JavaScript's logical or yields one of its operands, is truthy exactly when either is, and is the left operand when that is truthy |
| `Db.OptionsValue` | platzigram-bd/lib/db.js:20 | no options is `undefined`; given options are an object holding at most `host`, `port` and `db` |
| `Db.TruthyAgrees` | platzigram-bd/lib/db.js:22-24 | the typed truthiness tests on a string and a number coincide with JavaScript truthiness |
| `Db.ResolveIsJavaScriptOr` | platzigram-bd/lib/db.js:20-25 | each resolved setting equals what JavaScript's logical or computes: first the options object or an empty one, then its property (read as JavaScript does, `undefined` when absent) or the default, on the options as a JavaScript value |
| `Db.ResolveWithoutOptions` | platzigram-bd/lib/db.js:10-21 | with no options object, the settings are `localhost`, `28015`, `platzigram` |
| `Db.SetupPlan` | platzigram-bd/lib/db.js:57-69 | the plan holds one create per missing item and no more, all on the target database: the database exactly when it is missing, and each table exactly when it is missing from the table list; the database create comes first and the `images` create before the `users` create; the plan is empty exactly when the database and both tables exist |
| `Db.SetupEffect` | platzigram-bd/lib/db.js:57-69 | after setup the database exists and holds `images` and `users`; the database set grows by the target only; the target's tables grow by exactly those two; every other database's tables and all stored rows are unchanged |
| `Db.SetupIdempotent` | platzigram-bd/lib/db.js:58-69 | a second setup on the result of the first issues no create and leaves the server unchanged |
| `Db.SetupNoOpWhenProvisioned` | platzigram-bd/lib/db.js:58-69 | on an already provisioned server setup issues nothing and changes nothing |
| `Db.SavedFields` | platzigram-bd/lib/db.js:105-118 | the saved record has `createdAt` set to the clock reading, `id` set to the first generated key, and every other field as given |
| `Db.Stamped` | platzigram-bd/lib/db.js:105 | the record gains `createdAt` set to the clock reading and keeps every other field |
| `Db.WithKey` | platzigram-bd/lib/db.js:116 | the record gains `id` set to the first generated key (undefined without one) and keeps every other field |
| `Db.SavedRowIsReturned` | platzigram-bd/lib/db.js:108-118 | a successful insert appends one row to `images`; it equals the record `saveImage` returns when a key was generated, and is the stamped record as given otherwise |
| `Db.Connection.Close` | platzigram-bd/lib/db.js:88 | closing a handle leaves it closed |
| `Db.Db.constructor` | platzigram-bd/lib/db.js:20-25 | a new client is not connected, holds no handle, and has the resolved settings |
| `Db.Db.Connect` | platzigram-bd/lib/db.js:30-77 | afterwards the client is connected and holds a fresh open handle for its host and port; the store changed by exactly the creates of the setup plan, which it returns |
| `Db.Db.Setup` | platzigram-bd/lib/db.js:33-71 | runs only on a connected client holding a handle, as `connect` sets both before any store work, and issues exactly the setup plan of the store it found and applies it to the store |
| `Db.Db.Disconnect` | platzigram-bd/lib/db.js:80-89 | when not connected, rejects with `not connected` and changes nothing; when connected, resolves, clears the flag and closes the held handle |
| `Db.Db.SaveImage` | platzigram-bd/lib/db.js:91-121 | when not connected, rejects with `not connected` without touching the image or the store; otherwise the store gets the stamped record's insert, and the call either rejects with `first_error` (image stamped, no `id`) or returns the same image object, with `id` the first generated key |
| `Db.ConnectTwice` | platzigram-bd/lib/db.js:57-69 | two connects in a row leave the server provisioned, and the second issues no create |
| `Store.Apply` | platzigram-bd/lib/db.js:59-68 | a create never touches rows; a database create adds that database and keeps its tables; a table create in an existing database adds that table; no other database changes |
| `Store.ApplyAllKeepsRows` | platzigram-bd/lib/db.js:57-69 | a sequence of schema creates never changes stored rows |
| `Store.Keyed` | platzigram-bd/lib/db.js:108 | the stored document has the row's fields plus at most `id`; every field of the row is kept except `id` when a key was generated, and then `id` is the first generated key |
| `Store.Insert` | platzigram-bd/lib/db.js:108-114 | an insert reply with errors leaves the server unchanged; otherwise exactly the target table gains the keyed row, and no table list changes |
| `Store.FirstKey` | platzigram-bd/lib/db.js:116 | the id is a string exactly when the reply lists a generated key, and then it is the first one |
| `Store.Server.DbList` | platzigram-bd/lib/db.js:57 | the reported databases are those of the server's state |
| `Store.Server.TableList` | platzigram-bd/lib/db.js:62 | the reported tables are those of the server's state for that database, and none for a missing database |
| `Store.Server.DbCreate` | platzigram-bd/lib/db.js:59 | the server state becomes the database create's effect |
| `Store.Server.TableCreate` | platzigram-bd/lib/db.js:64-68 | the server state becomes the table create's effect |
| `Store.Server.InsertRow` | platzigram-bd/lib/db.js:108 | the server state becomes the insert's effect under the given reply |
| `Routes.Split` | platzigram-api/pictures.js:56 | a key splits into at least one segment, none of which contains `/` |
| `Routes.JoinSplit` | platzigram-api/pictures.js:56 | joining the segments with `/` gives back the key |
| `Routes.SplitJoin` | platzigram-api/pictures.js:56 | splitting slash-free segments joined with `/` gives back the segments |
| `Routes.ParsePattern` | platzigram-api/pictures.js:24 | a pattern has one segment per `/`-separated piece; a piece is a parameter exactly when it starts with `:`, named by the rest of the piece, and otherwise a literal with the piece's text |
| `Routes.MatchSegments` | platzigram-api/pictures.js:56-58 | a match exists exactly when the key's segments fit the pattern position by position; every parameter is bound, and each binding is the segment at a position of that parameter |
| `Routes.Lookup` | platzigram-api/pictures.js:56-58 | no handler exactly when no route fits; a found handler belongs to a route whose pattern matches with the returned parameters |
| `Routes.LookupFirstFit` | platzigram-api/pictures.js:56-58 | the first route that fits is the one chosen |
| `Routes.RouteTable.constructor` | platzigram-api/pictures.js:22 | a new table holds no route |
| `Routes.RouteTable.Get` | platzigram-api/pictures.js:56 | no handler exactly when no registered route fits the key; a found handler belongs to a registered route whose pattern matches with the returned parameters |
| `Routes.RouteTable.Set` | platzigram-api/pictures.js:24 | registering appends the parsed pattern and its handler to the table |
| `Pictures.ToUpper` | platzigram-api/pictures.js:56 | the result has the method's length and each character is that character upper-cased |
| `Pictures.RouteKey` | platzigram-api/pictures.js:56 | the key is the upper-cased method, one space, then the url unchanged |
| `Pictures.ToUpperIdempotent` | platzigram-api/pictures.js:56 | an upper-cased method has no lower-case letter, and upper-casing it again changes nothing |
| `Pictures.RouteKeyRoundTrip` | platzigram-api/pictures.js:56 | cutting the key at its first space gives the upper-cased method and the raw url |
| `Pictures.ParsedPatterns` | platzigram-api/pictures.js:24-48 | the three registered pattern strings parse to the segment lists the routes use |
| `Pictures.RegisteredDisjoint` | platzigram-api/pictures.js:24-48 | no key fits two registered routes, so registration order does not decide the handler |
| `Pictures.LoadRoutes` | platzigram-api/pictures.js:22-48 | the table built at load holds exactly the three routes, in registration order |
| `Pictures.RouteGetPicture` | platzigram-api/pictures.js:24-25 | `GET /<id>`, in any letter case, reaches the picture getter with `{id}` |
| `Pictures.RoutePostPicture` | platzigram-api/pictures.js:33 | `POST /` reaches the picture creator with no parameters |
| `Pictures.RouteLikePicture` | platzigram-api/pictures.js:42-43 | `POST /<id>/like` reaches the liker with `{id}` |
| `Pictures.RouteUnknownMethod` | platzigram-api/pictures.js:56-65 | a method other than GET and POST, such as DELETE, finds no handler for any url |
| `Pictures.Operation` | platzigram-api/pictures.js:25-45 | the getter fetches and the liker likes `params.id`, the creator saves exactly the parsed body; only the creator can fail before any db call, with the parse error; the operation is never a connect or disconnect |
| `Pictures.SuccessStatus` | platzigram-api/pictures.js:29-47 | the success status is a 2xx code, and 201 exactly for the picture creator |
| `Pictures.RunCalls` | platzigram-api/pictures.js:26-28 | awaiting calls in order either completes with each call's answer, or stops at the first rejected call with its error, all earlier calls having succeeded |
| `Pictures.RunHandler` | platzigram-api/pictures.js:24-48 | a failed parse throws with no db call; otherwise the calls made are a non-empty prefix of connect, operation, disconnect; a send requires all three calls to succeed and carries the status and the operation's result; a throw carries the error of the last call made |
| `Pictures.Handle` | platzigram-api/pictures.js:24-48 | a handler sends only after all three calls, with its own success status; it makes no db call exactly when its operation failed before the db, and otherwise starts with connect |
| `Pictures.BracketOrder` | platzigram-api/pictures.js:24-48 | a handler calls connect, then the operation, then disconnect; the first failure ends it with that error and no later call; with no failure it sends its status with the operation's result |
| `Pictures.BracketConnected` | platzigram-api/pictures.js:26-28 | the db's connection state after each prefix of a handler's calls |
| `Pictures.ConnectedAfterSnoc` | platzigram-api/pictures.js:26-28 | the connection state after one more call is that call's effect on the state before it |
| `Pictures.Respond` | platzigram-api/pictures.js:59-63 | a sent response passes through; a thrown error becomes status 500 whose body's `error` is the message |
| `Pictures.Serve` | platzigram-api/pictures.js:50-67 | a request makes at most three db calls, starting with connect, and only when a route fits; its status is 200, 201, 404 or 500 |
| `Pictures.ServeStatus` | platzigram-api/pictures.js:50-67 | the status is 404 exactly when no route fits, with body `{error:'route not found'}` and no db call; it is 500 exactly when the handler threw, with body `{error: message}`; otherwise it is the handler's success status with the operation's result, after all three calls |
| `Pictures.NoRouteNoDbCall` | platzigram-api/pictures.js:58-65 | a request with no route makes no db call and leaves the connection state as it was |
| `Pictures.FailingOperationSkipsDisconnect` | platzigram-api/pictures.js:26-29 | when connect succeeds and the operation rejects, the calls are connect and the operation only, disconnect is not among them, the handler throws that error, and the db is left connected |
| `Pictures.FailingConnectStopsHandler` | platzigram-api/pictures.js:26-27 | when connect rejects, it is the only call, the handler throws its error, and the connection state is unchanged |
| `Pictures.SuccessfulHandlerDisconnects` | platzigram-api/pictures.js:26-29 | a handler that sends its success made all three calls and left the db disconnected |
| `Pictures.ParseErrorBeforeDb` | platzigram-api/pictures.js:34-35 | a body that fails to parse makes the picture creator throw that error before any db call |
| `Pictures.DbClient.Invoke` | platzigram-api/pictures.js:26-28 | a db call is appended to the record and answered by the reply function; a successful connect sets the connected flag, a successful disconnect clears it |
| `Pictures.Bracketed` | platzigram-api/pictures.js:24-48 | the shared handler body produces the reference handler's outcome and makes exactly its calls |
| `Pictures.GetPicture` | platzigram-api/pictures.js:24-30 | connect, `getImage(params.id)`, disconnect, send 200 with the image, as the reference handler prescribes |
| `Pictures.PostPicture` | platzigram-api/pictures.js:33-39 | parse the body, connect, `saveImage(body)`, disconnect, send 201 with the created record, as the reference handler prescribes |
| `Pictures.LikePicture` | platzigram-api/pictures.js:42-48 | connect, `likeImage(params.id)`, disconnect, send 200 with the result, as the reference handler prescribes |
| `Pictures.Dispatch` | platzigram-api/pictures.js:50-67 | the response and the db calls are exactly those of `Serve` for the table's routes |

## Left out

- Transport and network: `r.connect`, provisioning and `close()` always succeed here, so `Db.Db.Connect` and `Db.Db.Disconnect` never reject on a transport failure. In the code, `connect` sets the flag and the handle before provisioning starts, and `disconnect` clears the flag before `close()` runs, so a failed provisioning leaves the client connected and a failed close leaves it disconnected. A connection or close failure is not modelled.
- The server a client talks to is handed to its constructor. Reaching it through host and port is not modelled.
- Async machinery: `co` coroutines, bluebird promises and the callback form through `asCallback` are sequential methods returning `Result`. The callback API is not modelled, nor the quirk that the success path of `disconnect` never invokes its callback.
- `new Date()` is the `now` parameter of `Db.Db.SaveImage`.
- `Db.Resolve`: options are typed (host and database as strings, port as an integer). Options of other JavaScript types are not modelled, and neither is `NaN` as a falsy port.
- `Db.Db.SaveImage`: the insert reply is a parameter, and it always carries a key list. A reply without `generated_keys` would make `generated_keys[0]` throw; that case is not modelled. With an empty key list the returned object gets `id` undefined while the stored row keeps the caller's own `id`.
- `getImage` and `likeImage`: they are not part of `platzigram-bd/lib/db.js`. Their answers come from the abstract db's reply function.
- The dispatcher's db is abstract. Its connected flag changes only on a successful connect or disconnect. The real `Db` already sets its flag when a connect's provisioning fails, and already clears it when a disconnect's `close()` fails; the abstract db does neither.
- micro's `send` and `json`: a response is a status and a value; JSON serialisation is not modelled. The parse result is part of the request.
- http-hash is a library whose source is not part of this model. Its lookup is modelled as: split the key on `/`; a `:name` segment binds any non-empty segment; other segments must match exactly; the first fitting route wins. Splat routes, the skipping of empty segments (doubled or trailing slashes, so that `GET //abc` and `POST //` are answered differently from this model) and the error on conflicting routes are not modelled.
- `Pictures.ToUpper`: `toUpperCase` is modelled for ASCII letters only, and so is the method part of `Pictures.RouteKey` and the statement of `Pictures.ToUpperIdempotent`.
- Numbers are integers; floating point is not modelled.
- Store selection (environment, configuration, the unconditional switch to the test stub) and `console.log` at platzigram-api/pictures.js:9-20 are configuration plumbing and are left out.
- Concurrent requests sharing one connection are not modelled; requests are served one at a time.
