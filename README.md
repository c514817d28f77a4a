# Route table and response-completion tracker

A Dafny model of two pieces of the Barlus HTTP stack.

**The `bone` router** (`packs/bone/http/handlers/router.ts`). Resource classes
declare routes with decorators. `@route('/users')` on a class and
`@route.get('/:id')` (or `route.put`, `route.post`, `route.detete`,
`route.method`) on its methods write path and verb metadata into a reflection
store. A `RouteHandler` reads that store once, in its constructor, and builds an
ordered table of patterns: one per own prototype property other than
`constructor`, for each resource in list order. `handle` then scans the table in
order. It runs the first pattern whose recorded verb equals the request's verb
and whose matcher accepts the pathname. The action's result sets the response:
status 200, and a body for strings and objects. If no pattern accepts,
`handle` returns `next()`.

**The `onFinished` tracker** (`packs/http/utils/on-finished.ts`).
`onFinished(msg, listener)` calls `listener` once the request or response has
finished:
- If `isFinished(msg)` is not `false`, the call is deferred to the scheduler.
- Otherwise the listener joins the queue of the message's one live record
  (`msg.__onFinished`), which is created and wired on first use.
- Wiring uses `first`. It races the message's `end`/`finish` against its
  socket's `error`/`close`; the socket half is attached at once if the socket
  is known, otherwise when it is assigned.
- The first event of either race cancels both races, clears the live record
  and drains its queue in order.

The model is a `Message` class. Its fields are the records, the `first` calls,
the attached handlers, the deferred calls and a log of listener calls. Its
invariant `Valid` says three things:
- at most one record is live;
- every attached race handler belongs to it;
- every listener passed to `onFinished` has been called, is deferred, or is
  queued, exactly once.

Files:
- `wrappers.dfy`: `Option` and `Result`.
- `router.dfy`: module `Router`.
- `on_finished.dfy`: module `OnFinished`.

### Where the behaviour follows the code rather than its description

These are modelled as the code is written:
- **Missing path metadata.** A method with no path or verb metadata still gets
  a table entry. Its template interpolates the missing value as the text
  `undefined` (`Interpolate`). With no verb, the entry never matches, because
  `undefined` equals no request verb.
- **Bare `@route` on a class.** `typeof` of a class is `'function'`, so
  `routeDecorator` throws the `TypeError`. Only a bare `@route` on an object
  target records the default path `/`.
- **Bare verb helpers.** A helper used bare on a method (`@route.post` with no
  arguments) records `GET` and `/`, not its own verb (`RoutePut`, `RoutePost`,
  `RouteDetete`).
- **The DELETE helper is named `detete`.** The model keeps that spelling.
- **Object results.** `Content-Type` becomes `text/plain`, and any earlier value
  is overwritten. For string results an existing `Content-Type` is kept.
- **Race handler arguments.** The event handler made by `listener` is an arrow
  function, so the emitter and argument list it hands to `done` are not the
  event's. Only the error is taken from the event. This does not change the
  tracker, which reads only the error.

## Model

| member | source | states |
|---|---|---|
| `Router.Lookup` | packs/bone/http/handlers/router.ts:26-30 | A metadata read yields a value exactly when the store holds the key, and then the stored value; otherwise `undefined`. |
| `Router.Routable` | packs/bone/http/handlers/router.ts:27-28 | The routed property names are exactly the own prototype properties other than `constructor`, and there are no more of them than properties. |
| `Router.RoutableAppend` | packs/bone/http/handlers/router.ts:27-28 | Filtering out `constructor` distributes over concatenation, so the property order is kept. |
| `Router.PropPatternsMatchRoutable` | packs/bone/http/handlers/router.ts:27-37 | A resource contributes exactly one pattern per routed property, in property order, each built from that property's path and verb metadata. |
| `Router.TableAppend` | packs/bone/http/handlers/router.ts:25-40 | The table of a concatenated resource list is the concatenation of the two tables, so resources keep their list order. |
| `Router.TableEntries` | packs/bone/http/handlers/router.ts:23-41 | Every routed property of every listed resource has its pattern in the table, and every pattern in the table is the pattern of some listed resource's routed property. |
| `Router.RouteHandler.constructor` | packs/bone/http/handlers/router.ts:23-41 | The patterns built are exactly the table of the resources, in list order. |
| `Router.RouteHandler.AddResource` | packs/bone/http/handlers/router.ts:27-39 | The inner loop appends the patterns of one resource's routed properties, in order, to what was built before. |
| `Router.FirstMatch` | packs/bone/http/handlers/router.ts:45-49 | The index found is one whose pattern has the request's verb and whose matcher accepts, and no earlier pattern accepts. There is none exactly when no pattern accepts. |
| `Router.Arguments` | packs/bone/http/handlers/router.ts:51 | The action's arguments are the match captures without the whole-match element, in order. |
| `Router.Respond` | packs/bone/http/handlers/router.ts:52-66 | The status becomes 200. A string result becomes the body, and `Content-Type` is kept if set, otherwise `text/plain`. An object result becomes its JSON text, and `Content-Type` becomes `text/plain`. Any other result leaves headers and body alone. No other header changes. |
| `Router.Dispatch` | packs/bone/http/handlers/router.ts:42-72 | `next()` is returned exactly when no pattern accepts, with the response untouched. Otherwise the first accepting pattern's route runs on its captures. A returned value gives the response `Respond` makes of it, with status 200. A throw propagates the action's own error, with the response as the action left it. |
| `Router.EarlierPatternWins` | packs/bone/http/handlers/router.ts:45-67 | If any pattern accepts the request, even the last one in the table, the request is not passed to `next()`: that pattern or an earlier one runs. |
| `Router.MatcherOnlyForSameVerb` | packs/bone/http/handlers/router.ts:47-48 | The matcher is consulted only for patterns with the request's verb. Matchers that agree on those patterns choose the same pattern and the same captures. |
| `Router.RouteHandler.Handle` | packs/bone/http/handlers/router.ts:42-72 | The scanning loop gives exactly the outcome `Dispatch` specifies for the handler's table. |
| `Router.Decorate` | packs/bone/http/handlers/router.ts:120-124 | A decorator writes its path, and for a method decorator its verb, at its target and key, and changes no other metadata. |
| `Router.RouteDecorator` | packs/bone/http/handlers/router.ts:104-117 | A string argument gives a class decorator for that path. An object target records path `/`. Any other non-null argument, a class constructor included, throws `TypeError('Invalid argument for route decorator')`. |
| `Router.MethodDecorator` | packs/bone/http/handlers/router.ts:119-135 | A string argument gives a method decorator for that verb and path. An object target records verb `GET` and path `/` at that key, and the rest of the metadata store is unchanged. Any other non-null argument throws the same `TypeError`. |
| `Router.RouteGet` | packs/bone/http/handlers/router.ts:91-93 | `route.get(path)` gives a decorator for verb `GET` and that path. Used bare on a method, it records `GET` and `/` there and changes nothing else. Any other non-null argument throws `TypeError('Invalid argument for route decorator')`. |
| `Router.RoutePut` | packs/bone/http/handlers/router.ts:94-96 | `route.put(path)` gives a decorator for verb `PUT` and that path. Used bare, it does what `route.get` does. |
| `Router.RoutePost` | packs/bone/http/handlers/router.ts:97-99 | `route.post(path)` gives a decorator for verb `POST` and that path. Used bare, it does what `route.get` does. |
| `Router.RouteDetete` | packs/bone/http/handlers/router.ts:100-102 | `route.detete(path)` gives a decorator for verb `DELETE` and that path. Used bare, it does what `route.get` does. |
| `Router.DecoratedMethodPattern` | packs/bone/http/handlers/router.ts:29-35 | A method decorated with verb `m` and path `p` gets a pattern for verb `m`. Its template is the API path, then the resource's path, then `p`. |
| `OnFinished.IsFinished` | packs/http/utils/on-finished.ts:33-45 | An outgoing message is finished iff `finished` is set or its socket is not writable. An incoming message is finished iff it is upgraded, has no socket, its socket is not readable, or it is complete and no longer readable. The answer is undefined exactly for a message of neither kind. |
| `OnFinished.ListenerError` | packs/http/utils/on-finished.ts:204-216 | The error passed on is the event's first argument exactly for `error`, and null otherwise. |
| `OnFinished.AcceptedPrefix` | packs/http/utils/on-finished.ts:164-168 | `first` accepts members from the start up to the first one that is not an array of length at least 2. |
| `OnFinished.AcceptedPrefixIs` | packs/http/utils/on-finished.ts:164-168 | That stopping index is unique: an index before which all members are accepted, and at which one is rejected or the list ends, is the accepted prefix. |
| `OnFinished.Subscriptions` | packs/http/utils/on-finished.ts:170-181 | `first` attaches one handler per (emitter, event) pair. |
| `OnFinished.SubscribeMember` | packs/http/utils/on-finished.ts:169-181 | The inner loop attaches one handler per event of the member, in event order, and appends each to the cleanup list. |
| `OnFinished.First` | packs/http/utils/on-finished.ts:159-199 | A non-array throws before subscribing anything. Otherwise the handlers of the accepted members are attached in order. The call succeeds exactly when every member is accepted, and then returns those handlers as its cleanup list. A malformed member throws after the members before it were subscribed. |
| `OnFinished.PairSubscriptions` | packs/http/utils/on-finished.ts:65 | A one-member call `first([[ee, e0, e1]], ...)` accepts its argument and subscribes `e0` then `e1`. |
| `OnFinished.FirstPair` | packs/http/utils/on-finished.ts:76 | The tracker's calls of `first` attach exactly the two handlers of their pair, in order. |
| `OnFinished.DrainCallsEachOnce` | packs/http/utils/on-finished.ts:123-127 | Draining a queue calls each queued listener exactly once, in queue order, all with the same error. |
| `OnFinished.ListeningIsSubscribed` | packs/http/utils/on-finished.ts:54-89 | Under the invariant, the tracker has a handler attached for an event exactly when the live record waits for it. The live record waits for `end`/`finish` on the message and, once its socket race is attached, for `error`/`close` on that socket. |
| `OnFinished.OneHandlerPerEvent` | packs/http/utils/on-finished.ts:65-77 | At most one of the tracker's handlers listens for any event on any emitter. |
| `OnFinished.AppendKeepsCoherent` | packs/http/utils/on-finished.ts:105 | Queueing on the live record keeps the invariant and appends to the live queue. |
| `OnFinished.WireNewRecord` | packs/http/utils/on-finished.ts:101-103 | A new record, wired while none is live, becomes the live record with an empty queue and keeps the invariant. It waits on the message and either on the known socket or for the socket to be assigned. |
| `OnFinished.FinishKeepsCoherent` | packs/http/utils/on-finished.ts:58-63 | Finishing the live record with both races cancelled and its queue drained keeps the invariant. Afterwards no record is live, no race handler stays attached, and every listener is still accounted for exactly once. |
| `OnFinished.SocketWatchFires` | packs/http/utils/on-finished.ts:66-77 | A record watching for the socket attaches a socket race iff it is the live record. Either way the invariant is kept and the live queue is unchanged. |
| `OnFinished.Message.OnFinished` | packs/http/utils/on-finished.ts:16-24 | Returns the message. Unless `isFinished` says `false`, the listener call is deferred and nothing else changes. Otherwise the listener is appended to the live record's queue, and that record waits for `end` and `finish`. An already live record is reused with its wiring untouched. A newly wired one also waits for `error`/`close` on a known socket, or else watches for the socket (`Awaits`). In that case exactly one record is appended, earlier records are unchanged, and no attached handler is removed. |
| `OnFinished.Message.Defer` | packs/http/utils/on-finished.ts:17-19 | The listener call, with a null error, joins the end of the deferred queue, and the invariant holds. |
| `OnFinished.Message.AttachListener` | packs/http/utils/on-finished.ts:98-106 | The listener joins the live record's queue, and a record is created and wired only when none is live. The live record waits for `end` and `finish`. A newly wired one also waits for `error`/`close` on a known socket, or else watches for the socket. In that case exactly one record is appended, earlier records are unchanged, and no attached handler is removed. |
| `OnFinished.Message.Push` | packs/http/utils/on-finished.ts:105 | Appends the listener to the live queue and changes nothing else that the record waits for. |
| `OnFinished.Message.AttachNewRecord` | packs/http/utils/on-finished.ts:101-103 | The new record becomes `msg.__onFinished` with an empty queue. It waits on the message's `end`/`finish`, and on the socket's `error`/`close` if the socket is known, or else for the socket. Exactly one record is appended, earlier records are unchanged, and every handler attached before, such as a finished record's leftover 'socket' watch, stays attached. |
| `OnFinished.Message.AttachFinishedListener` | packs/http/utils/on-finished.ts:54-89 | Makes the message race, attached in order. With a socket present it also makes the socket race at once. Otherwise it adds the 'socket' watch. It records which races are `eeMsg` and `eeSocket`. |
| `OnFinished.Message.OnSocket` | packs/http/utils/on-finished.ts:66-77 | Always removes the 'socket' watch. It attaches an `error`/`close` race on the socket only if the record has not finished and has no socket race yet, and otherwise changes nothing else. |
| `OnFinished.Message.Emit` | packs/http/utils/on-finished.ts:204-216 | An event the live record waits for cancels both of its races, marks it finished, and clears `msg.__onFinished`. The queue is then drained into the log, with the error for `error` events and null otherwise. Any other event changes nothing. |
| `OnFinished.Message.RaceCallback` | packs/http/utils/on-finished.ts:183-186 | A race's callback removes its handlers and then runs the record's `onFinish`. The live record ends drained, finished and no longer live, with both its races' handlers removed. |
| `OnFinished.Message.OnFinish` | packs/http/utils/on-finished.ts:58-63 | Cancels both races of the record, marks it finished, and runs its queue function. |
| `OnFinished.Message.Cancel` | packs/http/utils/on-finished.ts:187-193 | Removes every handler in the race's cleanup list and nothing else. |
| `OnFinished.Message.Fire` | packs/http/utils/on-finished.ts:116-128 | Clears `msg.__onFinished` if it is this record. The first time, it nulls the queue and calls each queued listener in order with the error. Afterwards it does nothing. |
| `OnFinished.Message.AssignSocket` | packs/http/utils/on-finished.ts:83-84 | Once the socket is assigned, no 'socket' watch remains and the live queue is unchanged. A live record without a socket race now waits for `error`/`close` on that socket. Otherwise records and races are unchanged. |
| `OnFinished.Message.DeliverSocket` | packs/http/utils/on-finished.ts:66-68 | The 'socket' event reaching one record's watch removes that watch and keeps the invariant. Only the live record gains a socket race. |
| `OnFinished.Message.RunDeferred` | packs/http/utils/on-finished.ts:2-6 | The scheduler makes the oldest deferred call and logs it, keeping the invariant. With nothing deferred it does nothing. |

## Left out

- The regular-expression matcher (`Pattern.regexp` and `exec`, in `utils/matcher`) is not part of this model. It is a function parameter returning the match array or nothing.
- Constructing the resource (`new route.type(cnx)`) and awaiting its action is a function parameter. It yields the value returned or the exception thrown, and the response as the action left it. Exceptions from the constructor are folded into the same "thrown" case.
- `Buffer.from` and `JSON.stringify` are function parameters. The body is the bytes of its one chunk; the async generator that yields it is not modelled.
- The reflection store (`@barlus/runtime/Reflect`) is a map keyed by metadata name, target and property. Its prototype-chain lookups are not modelled: the router only reads own metadata.
- A `null` decorator argument passes the `typeof target == 'object'` test (router.ts lines 108 and 126) and goes to the reflection store as a null target. That case is not modelled: `DecoratorArg` has no null case, and `OtherArg` stands for `undefined`, numbers, booleans and symbols only.
- MethodDecorator: its verb is always a string. `route.method(undefined, path)` falls back to the default verb `GET` (router.ts line 120), and that case is not modelled.
- `Resource` only holds the context. `RouteHandler.register` only logs. Neither affects routing, so neither is modelled.
- Header names are matched exactly as written (`Content-Type`). Case-insensitive header lookup is not modelled.
- `typeof` classifies action results. The model's `Object` case stands for `typeof result == 'object' && result != null`: arrays and plain objects alike. `Null` is its own case, because the code excludes `null` explicitly.
- `patchAssignSocket` (the node.js 0.8 path) is not modelled separately. Its effect, calling `onSocket` once the socket is assigned, is the same 'socket' delivery that `AssignSocket` models.
- `thunk(fn)`, which replaces `first`'s `done`, is never called by the tracker, so it is not modelled.
- The handler `listener` returns is an arrow function, so its `arguments` and `this` are those of `listener` itself. What it passes to `done` as the emitter and arguments is therefore `listener`'s `this` and `[event, done]`, not the emitter and the event's arguments. Only the error is taken from the event's own first argument. `onFinish` reads only the error, so only the error is modelled. Listener calls are logged with that error; the message, always the second argument, is left implicit.
- Listener calls are atomic steps. A listener that throws, or that re-enters `onFinished` while the queue drains, is not modelled.
- `setImmediate` and the `process.nextTick` fallback are one queue of deferred calls, worked off by `RunDeferred`.
- Node's emitters are modelled only by the set of handlers the tracker attached. Other code's listeners, and the emitter's snapshot of the listener list, are not modelled; `OneHandlerPerEvent` shows the tracker has at most one handler per event.
- The transport's own changes to `finished`, `complete`, `readable` and `writable` are not modelled. They enter only through the shape and socket that `IsFinished` reads.
- `AssignSocket` delivers the 'socket' event to the pending watches as a set, so their registration order is not modelled.
- Subscriptions: its contract states only the number of handlers. Their identities are given by its definition and by the lemmas and methods that use it (`SubscribeMember`, `PairSubscriptions`).
