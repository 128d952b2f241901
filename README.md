# node-ad-api: LDAP session facade, modelled in Dafny

The repository wraps an LDAP client library behind one object, `LDAP` (index.js:28-240). The
object is built from a settings object and keeps two expiring caches:

- `cacheAuth` maps an opaque 36-character token to a session record: username, password and the
  bound directory connection.
- `cacheUser` maps a username to its current token.

`authenticate` checks the credentials, falling back to the configured username and password. It
reuses a cached session when the username's token is still cached with the same password.
Otherwise it opens a connection, binds, mints a fresh token and caches the new session. `query`
validates its arguments and obtains a session through `getItem`: by token, or by authenticating
with the credentials in the arguments. It then searches on that session's connection and gathers
the streamed entries and references; each entry's attribute list is flattened into a map.
`close` unbinds every session that is still cached and empties both caches.

The model has these modules:

- `Js` (js.dfy): the JavaScript values the facade inspects, with truthiness, `typeof`, property
  reads and `||`.
- `Errors` (errors.dfy): the errors and their message texts. These are the texts of index.js,
  except that a refused bind gets the corrected message of the Findings row below.
- `Settings` (settings.dfy): constructor validation, the `timeout` default and `just`.
- `Cache` (cache.dfy): the expiring key/value cache. Every entry is stamped with the time it was
  set; an entry at least `timeout` old is invisible, and a lookup that meets it removes it.
- `Search` (search.dfy): the normalisation of the search result stream.
- `Session` (session.dfy): every operation as a pure function from the two caches, the inputs and
  the environment's answers to the new caches and the callback's arguments, with the lemmas.
- `Facade` (ldap.dfy): the `LDAP` object as a class whose map fields the methods reassign. Each
  method is proved to produce exactly what the matching `Session` function describes. The methods
  that require `Valid()` (`Authenticate`, `Query` and `Close`, which the object exposes, and
  `GetItem` and `Lookup`, which are private to its constructor in the source) also keep the cache
  invariant `Session.Consistent`; the internal steps `Attempt` and `RunSearch` are proved only
  against their `Session` functions, and `Authenticate` and `Query` establish the invariant around
  them.

What the environment decides is passed in as parameters: the clock (`now`), the directory's
answer to the bind (`BindReply`) and to the search (`SearchReply`, which carries the message
stream), the token the generator would return (`token`), and the identity of the connection the
client factory would create (`client`). A ghost set `issued` records every token handed out so
far; a token the generator returns is assumed never to have been issued before.

## Model

| member | source | states |
|---|---|---|
| Settings.NewConfig | index.js:31-34 | the constructor succeeds exactly for an object whose `url` is a non-empty string; a missing or non-object argument gets the constructor message and an object without a valid url the `'url'` message; on success every setting is kept and `timeout` is the given truthy value or 15 minutes |
| Facade.Ldap.constructor | index.js:28-51 | a new instance holds the validated settings, a cache lifetime equal to the (defaulted) timeout, two empty caches and the cache invariant |
| Settings.Just | index.js:242-248 | `just` returns an object with exactly the listed property names, each holding the source's value or `undefined` |
| Settings.ClientOptionsOmitCredentials | index.js:83-85 | the options handed to the client factory carry the configured `url` and `timeout` and never a `username` or `password` |
| Cache.PutThenGet | index.js:100-101 | a value that was set is returned by any lookup made less than the timeout later, and that lookup changes nothing |
| Cache.ExpiredGetMisses | index.js:77 | once the timeout has passed since the last set, a lookup misses and removes the entry |
| Cache.GetKeepsLive | index.js:77-79 | a lookup never changes which entries are visible, whether or not it removes a stale one |
| Errors.BindFailureMessage | index.js:91 | the intended refusal message is `Authentication failed. ` followed by the cause's message (an Error) or its text (anything else) |
| Errors.BindFailurePrefixLost | index.js:91 | as written the refusal message is the cause's bare `message` field, which for an Error cause always differs from the intended prefixed message |
| Errors.MissingPropertyNamesIt | index.js:32 | the url, username and password messages each name, in quotes, the property they are about |
| Errors.NotAnObjectNamesIt | index.js:66 | the credentials and args messages each name, in quotes, the argument they are about |
| Session.ResolveCredentials | index.js:57-74 | the checks pass exactly for a falsy or object argument whose effective username and password are non-empty strings; the error is the credentials, then the username, then the password message, and a valid username with an invalid password always gets the password message; a truthy per-call value takes precedence over the configured one |
| Session.Attempt | index.js:77-104 | a cache hit (the username's token is cached, its session is cached with the same password) grants that token with no connection and no cache change; a miss opens a connection with the client options, then either fails with the bind's refusal or caches the new session under the minted token, stamped now, and grants it |
| Session.Authenticate | index.js:54-105 | argument errors are reported with the caches untouched and no connection opened; otherwise the result is that of `Session.Attempt` on the resolved credentials |
| Facade.Ldap.Authenticate | index.js:54-105 | the method's new caches, result and connection are those of `Session.Authenticate`; the invariant is kept and the issued set grows by the minted token exactly when a bind succeeded |
| Facade.Ldap.Attempt | index.js:77-104 | the method's new caches, result and connection are those of `Session.Attempt` |
| Session.RefusedBindKeepsLiveCaches | index.js:89-91 | a refused bind changes nothing that lookups can see in either cache |
| Session.BindAddsOneSession | index.js:93-103 | a successful bind adds exactly one visible session, under the minted token, and points the username at that token; every other visible entry is unchanged |
| Session.AttemptKeepsConsistent | index.js:77-104 | every cached session is under an issued 36-character token and the user a token is cached for owns that session; this holds after every call, with the minted token added to the issued set exactly when a bind succeeded |
| Session.GrantedTokenNamesUser | index.js:77-103 | a granted token is 36 characters long, is cached, and its session belongs to the user it was granted to |
| Session.RepeatWithinTimeoutReuses | index.js:77-80 | the same credentials presented again less than the timeout after a bind get the same token back, open no connection and change no cache, whatever the directory would answer |
| Session.ExpiredSessionRebinds | index.js:77-87 | once the username's token is at least the timeout old, the call opens a new connection and a successful bind grants the newly minted token |
| Session.GrantedSessionIsLive | index.js:77-103 | right after a successful authenticate, the granted token's session is visible and holds the presented username and password |
| Js.ToText | index.js:234 | the text a value is looked up under, as JavaScript's `String()` gives it: a string is its own text and a one-element array of a string has that string's text; a number below 10^21 in magnitude has a text of at most 22 characters; only functions, numbers from 10^21 on (and arrays holding either) have no modelled text |
| Session.GetItem | index.js:218-239 | a truthy `auth` is looked up in the session cache only: a visible session is handed on, anything else fails with the invalid-auth error, no connection is opened and nothing visible changes; the token is looked up under its string form; without `auth` the call authenticates with the arguments, an authentication error is passed on with its caches, and a granted token's session-cache entry is handed on with the caches that lookup leaves |
| Facade.Ldap.GetItem | index.js:218-239 | the method's new caches, result and connection are those of `Session.GetItem` |
| Facade.Ldap.Lookup | index.js:228-234 | a session-cache lookup that keeps the invariant and changes only the session cache, as the cache's lookup does |
| Session.CredentialItemIsOwnSession | index.js:221-229 | without a token and with valid credentials, a successful bind makes `getItem` hand on a session of the resolved user holding the presented password, reused or new |
| Session.ValidateQuery | index.js:164-172 | the checks pass exactly for a falsy or object `args` with a non-empty string `base` and a falsy or object `options`; a non-object `args` gets the args message, then an invalid `base` the base message, then a truthy non-object `options` the options message; `options` defaults to `{}` |
| Session.Searched | index.js:178-214 | a stream that ends answers with the collected data; a stream error reports that error's message with the data collected before it; a refused search reports the client's error; a search call that throws ends as `Uncaught` with no data |
| Facade.Ldap.RunSearch | index.js:178-214 | the search step's outcome is the one `Session.Searched` describes |
| Session.Query | index.js:151-216 | invalid arguments are rejected with nothing else done; otherwise the caches and connection are those of `getItem`, its error is passed on, an `undefined` item ends as `Uncaught` with no search, and a session's connection receives the search with the validated base and options and the callback gets the outcome `Session.Searched` gives for the reply (collected data, stream error with partial data, the refusal's error, or `Uncaught` for a throwing call) |
| Facade.Ldap.Query | index.js:151-216 | the method's new caches, outcome, connection and search are those of `Session.Query` |
| Session.UnknownTokenRejected | index.js:234-235 | a query with a token that is not visible fails with `invalid 'auth' property.`, opens no connection, issues no search and changes nothing visible |
| Session.TokenQueryUsesSession | index.js:175-211 | a query with a visible token searches on that session's connection, opens none, and answers with the collected stream or the stream error with partial data |
| Session.BoundSessionServesQueries | index.js:77-104 | a session just created by a bind serves a query naming its token until it expires: the search runs on that bind's connection and answers with everything streamed |
| Session.MissingUsernameRejected | index.js:69-73 | a query without a token and without a username in the arguments or settings fails with the username message, which names `username`, and does nothing else |
| Session.CredentialQuerySearches | index.js:175-211 | a query without a token whose `getItem` yields a session searches on that session's connection and answers with the stream's outcome |
| Search.FlattenHoldsLastKept | index.js:187-196 | the flattened attribute map holds exactly the types of attributes with a type and a non-empty value list, each mapped to the values of the last such attribute |
| Search.FlattenDropsEmpty | index.js:190-192 | no flattened attribute has an empty type or an empty value list |
| Search.FlattenAttributes | index.js:189-194 | the attribute loop builds the flattened map |
| Search.CollectedAppends | index.js:197-201 | entries and references are accumulated in arrival order: messages that arrive later land after earlier ones |
| Search.CollectedKeepsEveryMessage | index.js:187-202 | every streamed message is kept: the entry count plus the reference count equals the message count |
| Search.CollectResults | index.js:182-210 | the stream handlers produce the collected data at `end` and the error with the data so far at `error` |
| Session.Unbinds | index.js:111-120 | `close` unbinds exactly the sessions a lookup still finds, each on its own connection |
| Facade.UnbindLive | index.js:111-120 | the loop over the cached tokens unbinds exactly the visible sessions' connections and counts one unbind per session |
| Facade.Ldap.Close | index.js:107-134 | `close` unbinds the connections of `Session.Unbinds`, counts them, empties both caches and keeps the invariant |

## Left out

- The directory client library is not part of this model: creating a client, binding, searching and unbinding are the parameters `client`, `bind`, `reply` and the returned `unbound` map.
- Token generation is the parameter `token`. The model assumes it returns a 36-character string never issued before, as a version 4 UUID does.
- The clock is the parameter `now`. The cache stamps an entry with the time of the call, and the lookups in `close` and `getItem` use the time of their call; the delay between a bind request and its reply is not modelled.
- The cache library is not part of this model. The model assumes a lookup does not renew an entry's age and a set restarts it, and that the timeout is a whole number of milliseconds.
- Callbacks and asynchrony are not modelled. Each call runs to completion, so two concurrent misses for the same user are not modelled. The callback-argument shuffling (index.js:58-61, 154-157), the default callbacks that throw, and the `'cb' argument is invalid.` checks (index.js:64-65, 160-161) are left out.
- The GUID format setting of the client library (index.js:9) is left out.
- Facade.Ldap.constructor: requires the defaulted `timeout` to be a number. A truthy non-numeric timeout is accepted by the source and passed to the cache library, whose behaviour with it is not modelled.
- The `join` helper that waits for the unbinds in `close` is not modelled. `close` empties both caches as one step and returns the unbinds it issued.
- When a bind is refused, the connection that was opened is neither cached nor closed by the source. The model records only that it was opened.
- Session.GetItem: a truthy `auth` is looked up under its JavaScript string form (`Js.ToText`), on the assumption that the cache library keys entries by that text; so `[token]` finds the same session as `token`. A function value's text is its source code, which is not modelled: such an `auth` is treated as an unknown token.
- Js.ToText: gives no text for a number of magnitude 10^21 or more, which `String()` writes in exponent form (`1e+21`). Such an `auth` is treated as an unknown token; every exponent-form text is shorter than the 36-character tokens the session cache holds, so the lookup would miss in the source as well.
- Settings.NewConfig, Facade.Ldap.config and Session.ValidateQuery: the caller's objects are treated as values. The source writes the defaulted `timeout` into the caller's own settings object (index.js:34) and keeps that same object as its configuration (index.js:38), so a caller who later changes its `url`, `username` or `password` changes the client options and default credentials of every later call; the model keeps a constant copy. The source also writes the defaulted `options` back into the caller's `args` (index.js:170), which the model does not. Aliasing between the caller's objects and the facade's state is not modelled.
- A failure inside `query` after the arguments are checked is modelled as it is written. Using `item.client` when `getItem` hands on `undefined`, or a search call that throws, ends in the `catch` of index.js:212-214. That `catch` refers to the undefined `Err` and `Error.create`, so the exception escapes instead of reaching the callback. The model reports this as `Uncaught`.
- Errors.Error.Message: for a refused bind it gives the corrected, prefixed text of the Findings row; the program as written reports the cause's bare `message` field (modelled by Errors.BindFailureMessageAsWritten).
- Search options beyond being an object (scope, filter, size and time limits) are passed through unexamined, and search entries other than their name and attributes are not modelled.

## Findings

| source | as written | input that shows it | evidently intended | confidence | as-written member | corrected member |
|---|---|---|---|---|---|---|
| index.js:91 | `"Authentication failed. " + (err instanceof Error) ? err.message : err.toString()` parses as `("Authentication failed. " + bool) ? … : …`; the condition is a non-empty string and always truthy, so the message is always `err.message` | a bind refused with an Error whose message is `Invalid Credentials`: the callback's error message is `Invalid Credentials`, not `Authentication failed. Invalid Credentials` | `"Authentication failed. " + (err instanceof Error ? err.message : err.toString())` | high; not executed | Errors.BindFailureMessageAsWritten | Errors.BindFailureMessage |
