/**
 * The session layer of index.js as functions of its state: the two caches (username to token,
 * token to session record), `authenticate`, `getItem`, `query` and `close`. The directory
 * client, the token generator and the clock are inputs: `bind` is the bind's reply, `token` the
 * identifier the generator would mint, `client` the handle a new connection would get,
 * `reply` what the search delivers and `now` the time of the call.
 */
module Session {
  import opened Js
  import opened Wrappers
  import opened Errors
  import opened Settings
  import Cache
  import Search

  /** Length of the canonical textual form of a random 128-bit identifier. */
  const TOKEN_LENGTH := 36

  type Token = string

  /** The handle of one directory connection. */
  type ClientId = nat

  /** What `cacheAuth` stores under a token. */
  datatype Record = Record(username: string, password: string, client: ClientId)

  /** The contents of both caches: `cacheAuth` (token to record) and `cacheUser` (username to token). */
  datatype Store = Store(auth: map<Token, Cache.Stamped<Record>>, users: map<string, Cache.Stamped<Token>>)

  datatype Credentials = Credentials(username: string, password: string)

  /** What a successful `authenticate` passes to its callback: `{auth, user}`. */
  datatype Grant = Grant(auth: Token, user: string)

  datatype BindReply = Bound | Refused(error: BindError)

  /**
   * One `authenticate` call: the caches afterwards, its result, and the options a new directory
   * connection was opened with (`None` when no connection was opened).
   */
  datatype AuthStep = AuthStep(store: Store, result: Result<Grant, Error>, connection: Option<map<string, JsValue>>)

  /** The caches as lookups at `now` see them. */
  function LiveAuth(s: Store, now: int, ttl: int): map<Token, Record> {
    Cache.Live(s.auth, now, ttl)
  }

  function LiveUsers(s: Store, now: int, ttl: int): map<string, Token> {
    Cache.Live(s.users, now, ttl)
  }

  /**
   * Cache invariant: every stored token was minted by the generator (so it has the canonical
   * length), and a username's token, while its record is cached, leads back to that username.
   */
  ghost predicate Consistent(s: Store, issued: set<Token>) {
    && (forall t :: t in s.auth ==> t in issued)
    && (forall u :: u in s.users ==> s.users[u].value in issued)
    && (forall t :: t in issued ==> |t| == TOKEN_LENGTH)
    && (forall u :: u in s.users && s.users[u].value in s.auth ==> s.auth[s.users[u].value].value.username == u)
  }

  /** `credentials || {}` passes the type check: a falsy value or an object. */
  predicate ObjectLike(v: JsValue) {
    !Truthy(v) || v.Obj? || v.Arr?
  }

  /** `credentials[name] || config[name]`: the per-call value when truthy, else the configured one. */
  function Effective(credentials: JsValue, config: map<string, JsValue>, name: string): JsValue {
    Or(Prop(credentials, name), Prop(Obj(config), name))
  }

  /** The argument checks of `authenticate` (index.js:57, 66-74), in the order the source makes them. */
  function ResolveCredentials(credentials: JsValue, config: map<string, JsValue>): (r: Result<Credentials, Error>)
    ensures r.Success? <==>
      && ObjectLike(credentials)
      && IsNonEmptyString(Effective(credentials, config, "username"))
      && IsNonEmptyString(Effective(credentials, config, "password"))
    ensures !ObjectLike(credentials) ==> r == Failure(InvalidArgument(CREDENTIALS_INVALID))
    ensures ObjectLike(credentials) && !IsNonEmptyString(Effective(credentials, config, "username")) ==>
      r == Failure(InvalidArgument(USERNAME_INVALID))
    ensures ObjectLike(credentials) && IsNonEmptyString(Effective(credentials, config, "username"))
            && !IsNonEmptyString(Effective(credentials, config, "password")) ==>
      r == Failure(InvalidArgument(PASSWORD_INVALID))
    ensures r.Success? ==>
      && (Truthy(Prop(credentials, "username")) ==> Prop(credentials, "username") == Str(r.value.username))
      && (!Truthy(Prop(credentials, "username")) ==> Prop(Obj(config), "username") == Str(r.value.username))
      && (Truthy(Prop(credentials, "password")) ==> Prop(credentials, "password") == Str(r.value.password))
      && (!Truthy(Prop(credentials, "password")) ==> Prop(Obj(config), "password") == Str(r.value.password))
  {
    var c := Or(credentials, Obj(map[]));
    if !Truthy(c) || TypeOf(c) != "object" then
      Failure(InvalidArgument(CREDENTIALS_INVALID))
    else
      var username := Or(Prop(c, "username"), Prop(Obj(config), "username"));
      var password := Or(Prop(c, "password"), Prop(Obj(config), "password"));
      if !Truthy(username) || TypeOf(username) != "string" then
        Failure(InvalidArgument(USERNAME_INVALID))
      else if !Truthy(password) || TypeOf(password) != "string" then
        Failure(InvalidArgument(PASSWORD_INVALID))
      else
        Success(Credentials(username.s, password.s))
  }

  /** The session an `authenticate` with `cr` may reuse: the username's live token, whose live record holds the same password. */
  function Reusable(s: Store, ttl: int, cr: Credentials, now: int): Option<Token> {
    var users := LiveUsers(s, now, ttl);
    var auth := LiveAuth(s, now, ttl);
    if cr.username in users && users[cr.username] != "" && users[cr.username] in auth
       && auth[users[cr.username]].password == cr.password
    then Some(users[cr.username])
    else None
  }

  /**
   * The two lookups of index.js:77-79: the username's token, the session that token names (looked
   * up only for a non-empty token), and the caches with any stale entry met on the way dropped.
   */
  function Lookups(s: Store, ttl: int, cr: Credentials, now: int): (Option<Token>, Option<Record>, Store) {
    var (known, users) := Cache.Get(s.users, cr.username, now, ttl);
    var (item, auth) :=
      if known.Some? && known.value != "" then Cache.Get(s.auth, known.value, now, ttl) else (None, s.auth);
    (known, item, Store(auth, users))
  }

  /**
   * `authenticate` once the credentials are resolved (index.js:77-104): reuse the cached session
   * when the username's token leads to a record with the same password, otherwise open a
   * connection and bind.
   */
  function Attempt(s: Store, ttl: int, config: map<string, JsValue>, cr: Credentials,
                   now: int, bind: BindReply, token: Token, client: ClientId): (step: AuthStep)
    ensures Reusable(s, ttl, cr, now).Some? ==>
      step == AuthStep(s, Success(Grant(Reusable(s, ttl, cr, now).value, cr.username)), None)
    ensures Reusable(s, ttl, cr, now).None? ==>
      && step.connection == Some(ClientOptions(config))
      && (bind.Refused? ==> step.result == Failure(AuthenticationFailed(bind.error)))
      && (bind.Bound? ==>
            && step.result == Success(Grant(token, cr.username))
            && token in step.store.auth && cr.username in step.store.users
            && step.store.auth[token] == Cache.Stamped(Record(cr.username, cr.password, client), now)
            && step.store.users[cr.username] == Cache.Stamped(token, now))
  {
    var (known, item, kept) := Lookups(s, ttl, cr, now);
    if known.Some? && item.Some? && item.value.password == cr.password then
      AuthStep(kept, Success(Grant(known.value, cr.username)), None)
    else
      var options := ClientOptions(config);
      match bind
      case Refused(err) => AuthStep(kept, Failure(AuthenticationFailed(err)), Some(options))
      case Bound =>
        AuthStep(Store(Cache.Put(kept.auth, token, Record(cr.username, cr.password, client), now),
                       Cache.Put(kept.users, cr.username, token, now)),
                 Success(Grant(token, cr.username)), Some(options))
  }

  /** `authenticate(credentials, cb)` (index.js:54-105). */
  function Authenticate(s: Store, ttl: int, config: map<string, JsValue>, credentials: JsValue,
                        now: int, bind: BindReply, token: Token, client: ClientId): (step: AuthStep)
    ensures ResolveCredentials(credentials, config).Failure? ==>
      step == AuthStep(s, Failure(ResolveCredentials(credentials, config).error), None)
    ensures ResolveCredentials(credentials, config).Success? ==>
      step == Attempt(s, ttl, config, ResolveCredentials(credentials, config).value, now, bind, token, client)
  {
    match ResolveCredentials(credentials, config)
    case Failure(e) => AuthStep(s, Failure(e), None)
    case Success(cr) => Attempt(s, ttl, config, cr, now, bind, token, client)
  }

  /**
   * A refused bind leaves what lookups see unchanged: the only changes are stale entries that the
   * lookups dropped.
   */
  lemma {:induction false} RefusedBindKeepsLiveCaches(s: Store, ttl: int, config: map<string, JsValue>, cr: Credentials,
                                                      now: int, error: BindError, token: Token, client: ClientId)
    ensures var step := Attempt(s, ttl, config, cr, now, Refused(error), token, client);
      && LiveAuth(step.store, now, ttl) == LiveAuth(s, now, ttl)
      && LiveUsers(step.store, now, ttl) == LiveUsers(s, now, ttl)
  {
    assert Attempt(s, ttl, config, cr, now, Refused(error), token, client).store == Lookups(s, ttl, cr, now).2;
    LookupsKeepLive(s, ttl, cr, now);
  }

  /**
   * A successful bind adds exactly one session, under the new token, and points the username at
   * it; nothing else that lookups see changes.
   */
  lemma {:induction false} BindAddsOneSession(s: Store, ttl: int, config: map<string, JsValue>, cr: Credentials,
                                              now: int, token: Token, client: ClientId)
    requires ttl > 0
    requires Reusable(s, ttl, cr, now).None?
    ensures var step := Attempt(s, ttl, config, cr, now, Bound, token, client);
      && LiveAuth(step.store, now, ttl) == LiveAuth(s, now, ttl)[token := Record(cr.username, cr.password, client)]
      && LiveUsers(step.store, now, ttl) == LiveUsers(s, now, ttl)[cr.username := token]
  {
    var step := Attempt(s, ttl, config, cr, now, Bound, token, client);
    var (known, item, kept) := Lookups(s, ttl, cr, now);
    assert step.store == Store(Cache.Put(kept.auth, token, Record(cr.username, cr.password, client), now),
                               Cache.Put(kept.users, cr.username, token, now));
    LookupsKeepLive(s, ttl, cr, now);
    LivePut(kept.auth, token, Record(cr.username, cr.password, client), now, ttl);
    LivePut(kept.users, cr.username, token, now, ttl);
  }

  /** The lookups drop only stale entries: what later lookups can see is unchanged. */
  lemma LookupsKeepLive(s: Store, ttl: int, cr: Credentials, now: int)
    ensures LiveAuth(Lookups(s, ttl, cr, now).2, now, ttl) == LiveAuth(s, now, ttl)
    ensures LiveUsers(Lookups(s, ttl, cr, now).2, now, ttl) == LiveUsers(s, now, ttl)
  {
    var (known, users) := Cache.Get(s.users, cr.username, now, ttl);
    Cache.GetKeepsLive(s.users, cr.username, now, ttl);
    if known.Some? && known.value != "" {
      Cache.GetKeepsLive(s.auth, known.value, now, ttl);
    }
  }

  /** The lookups only drop entries, so they keep the cache invariant. */
  lemma LookupsKeepConsistent(s: Store, issued: set<Token>, ttl: int, cr: Credentials, now: int)
    requires Consistent(s, issued)
    ensures Consistent(Lookups(s, ttl, cr, now).2, issued)
  {
    SubStoreConsistent(s, Lookups(s, ttl, cr, now).2, issued);
  }

  lemma LivePut<K(!new), V>(m: map<K, Cache.Stamped<V>>, key: K, value: V, now: int, ttl: int)
    requires ttl > 0
    ensures Cache.Live(Cache.Put(m, key, value, now), now, ttl) == Cache.Live(m, now, ttl)[key := value]
  {
    var lhs := Cache.Live(Cache.Put(m, key, value, now), now, ttl);
    var rhs := Cache.Live(m, now, ttl)[key := value];
    assert lhs.Keys == rhs.Keys;
  }

  /**
   * `authenticate` keeps the cache invariant; the set of issued tokens grows by the new token
   * exactly when a bind succeeded.
   */
  lemma {:induction false} AttemptKeepsConsistent(s: Store, issued: set<Token>, ttl: int, config: map<string, JsValue>,
                                                  cr: Credentials, now: int, bind: BindReply, token: Token, client: ClientId)
    requires Consistent(s, issued)
    requires |token| == TOKEN_LENGTH && token !in issued
    ensures var step := Attempt(s, ttl, config, cr, now, bind, token, client);
      Consistent(step.store, if step.connection.Some? && step.result.Success? then issued + {token} else issued)
  {
    var step := Attempt(s, ttl, config, cr, now, bind, token, client);
    var (known, item, kept) := Lookups(s, ttl, cr, now);
    LookupsKeepConsistent(s, issued, ttl, cr, now);
    if known.Some? && item.Some? && item.value.password == cr.password {
      assert step.store == kept && step.connection.None?;
    } else if bind.Refused? {
      assert step.store == kept && step.result.Failure?;
    } else {
      var rec := Record(cr.username, cr.password, client);
      assert step == AuthStep(Store(Cache.Put(kept.auth, token, rec, now), Cache.Put(kept.users, cr.username, token, now)),
                              Success(Grant(token, cr.username)), Some(ClientOptions(config)));
      NewSessionConsistent(kept, issued, token, rec, now);
    }
  }

  /**
   * Every token `authenticate` grants has the canonical length, and while its session is cached
   * that session belongs to the granted user.
   */
  lemma {:induction false} GrantedTokenNamesUser(s: Store, issued: set<Token>, ttl: int, config: map<string, JsValue>,
                                                 cr: Credentials, now: int, bind: BindReply, token: Token, client: ClientId)
    requires Consistent(s, issued)
    requires |token| == TOKEN_LENGTH
    ensures var step := Attempt(s, ttl, config, cr, now, bind, token, client);
      step.result.Success? ==>
        && step.result.value.user == cr.username
        && |step.result.value.auth| == TOKEN_LENGTH
        && step.result.value.auth in step.store.auth
        && step.store.auth[step.result.value.auth].value.username == cr.username
  {
    var step := Attempt(s, ttl, config, cr, now, bind, token, client);
    var hit := Reusable(s, ttl, cr, now);
    if hit.Some? {
      assert cr.username in s.users && s.users[cr.username].value == hit.value;
      assert hit.value in issued;
    }
  }

  /** Dropping entries keeps the invariant. */
  lemma SubStoreConsistent(s: Store, s': Store, issued: set<Token>)
    requires Consistent(s, issued)
    requires forall t :: t in s'.auth ==> t in s.auth && s'.auth[t] == s.auth[t]
    requires forall u :: u in s'.users ==> u in s.users && s'.users[u] == s.users[u]
    ensures Consistent(s', issued)
  {
  }

  /** Caching a session under a never-issued token, and pointing its user at it, keeps the invariant. */
  lemma NewSessionConsistent(s: Store, issued: set<Token>, token: Token, rec: Record, now: int)
    requires Consistent(s, issued)
    requires |token| == TOKEN_LENGTH && token !in issued
    ensures Consistent(Store(Cache.Put(s.auth, token, rec, now), Cache.Put(s.users, rec.username, token, now)), issued + {token})
  {
    var s' := Store(Cache.Put(s.auth, token, rec, now), Cache.Put(s.users, rec.username, token, now));
    forall u | u in s'.users && s'.users[u].value in s'.auth
      ensures s'.auth[s'.users[u].value].value.username == u
    {
      if u != rec.username {
        assert s.users[u].value in issued;
      }
    }
  }

  /**
   * The reuse guarantee: once a bind has made a session, the same credentials presented again
   * less than `ttl` later get the same token back and open no connection, whatever the
   * directory, the token generator and the connection factory would have answered.
   */
  lemma {:induction false} RepeatWithinTimeoutReuses(s: Store, ttl: int, config: map<string, JsValue>, credentials: JsValue,
                                                     now: int, token: Token, client: ClientId,
                                                     later: int, bind': BindReply, token': Token, client': ClientId)
    requires token != ""
    requires Authenticate(s, ttl, config, credentials, now, Bound, token, client).connection.Some?
    requires later - now < ttl
    ensures var first := Authenticate(s, ttl, config, credentials, now, Bound, token, client);
      var second := Authenticate(first.store, ttl, config, credentials, later, bind', token', client');
      && first.result.Success?
      && second == AuthStep(first.store, first.result, None)
  {
    var first := Authenticate(s, ttl, config, credentials, now, Bound, token, client);
    var cr := ResolveCredentials(credentials, config).value;
    assert first.store.users[cr.username] == Cache.Stamped(token, now);
    assert first.store.auth[token] == Cache.Stamped(Record(cr.username, cr.password, client), now);
    assert Reusable(first.store, ttl, cr, later) == Some(token);
  }

  /**
   * Once `ttl` has passed since the username's token was set, the cached session is no longer
   * reused: the call binds again, and on success grants the newly minted token.
   */
  lemma {:induction false} ExpiredSessionRebinds(s: Store, ttl: int, config: map<string, JsValue>, credentials: JsValue,
                                                 now: int, bind: BindReply, token: Token, client: ClientId)
    requires ResolveCredentials(credentials, config).Success?
    requires var u := ResolveCredentials(credentials, config).value.username;
      u in s.users ==> now - s.users[u].stamp >= ttl
    ensures var step := Authenticate(s, ttl, config, credentials, now, bind, token, client);
      && step.connection.Some?
      && (bind.Bound? ==> step.result == Success(Grant(token, ResolveCredentials(credentials, config).value.username)))
  {
    var cr := ResolveCredentials(credentials, config).value;
    assert cr.username !in LiveUsers(s, now, ttl);
    assert Reusable(s, ttl, cr, now).None?;
  }

  /** What `getItem` passes on: the session record, or `undefined` (`None`). */
  datatype ItemStep = ItemStep(store: Store, result: Result<Option<Record>, Error>, connection: Option<map<string, JsValue>>)

  /**
   * `getItem(args, cb)` (index.js:218-239): a truthy `args.auth` is looked up in `cacheAuth` and
   * nowhere else; without it the call authenticates with `args` and reads the session it got.
   */
  function GetItem(s: Store, ttl: int, config: map<string, JsValue>, args: JsValue,
                   now: int, bind: BindReply, token: Token, client: ClientId): (step: ItemStep)
    ensures Truthy(Prop(args, "auth")) ==>
      var key := ToText(Prop(args, "auth"));
      && step.connection == None
      && step.result == (if key.Some? && key.value in LiveAuth(s, now, ttl)
                         then Success(Some(LiveAuth(s, now, ttl)[key.value])) else Failure(InvalidToken))
      && LiveAuth(step.store, now, ttl) == LiveAuth(s, now, ttl)
      && step.store.users == s.users
    ensures !Truthy(Prop(args, "auth")) ==>
      var auth := Authenticate(s, ttl, config, args, now, bind, token, client);
      && step.connection == auth.connection
      && (auth.result.Failure? ==> step.result == Failure(auth.result.error))
      && step.store.users == auth.store.users
      && (auth.result.Failure? ==> step.store == auth.store)
      && (auth.result.Success? ==>
            var (item, cached) := Cache.Get(auth.store.auth, auth.result.value.auth, now, ttl);
            step.result == Success(item) && step.store.auth == cached)
  {
    var auth := Prop(args, "auth");
    if !Truthy(auth) then
      var step := Authenticate(s, ttl, config, args, now, bind, token, client);
      match step.result
      case Failure(e) => ItemStep(step.store, Failure(e), step.connection)
      case Success(grant) =>
        var (item, cached) := Cache.Get(step.store.auth, grant.auth, now, ttl);
        ItemStep(Store(cached, step.store.users), Success(item), step.connection)
    else
      // the cache is keyed by text, so the token is looked up under `String(args.auth)`
      var key := ToText(auth);
      var (item, cached) := if key.Some? then Cache.Get(s.auth, key.value, now, ttl) else (None, s.auth);
      if item.None? then ItemStep(Store(cached, s.users), Failure(InvalidToken), None)
      else ItemStep(Store(cached, s.users), Success(item), None)
  }

  /** A validated `query` argument: `base`, `options` (defaulted to `{}`) and the whole `args`. */
  datatype Request = Request(base: string, options: JsValue, args: JsValue)

  /** The argument checks of `query` (index.js:164-172), in the order the source makes them. */
  function ValidateQuery(args: JsValue): (r: Result<Request, Error>)
    ensures r.Success? <==>
      && ObjectLike(args)
      && IsNonEmptyString(Prop(args, "base"))
      && ObjectLike(Prop(args, "options"))
    ensures !ObjectLike(args) ==> r == Failure(InvalidArgument(ARGS_INVALID))
    ensures ObjectLike(args) && !IsNonEmptyString(Prop(args, "base")) ==> r == Failure(InvalidArgument(BASE_INVALID))
    ensures ObjectLike(args) && IsNonEmptyString(Prop(args, "base")) && !ObjectLike(Prop(args, "options")) ==>
      r == Failure(InvalidArgument(OPTIONS_INVALID))
    ensures r.Failure? ==> r.error.InvalidArgument?
    ensures r.Success? ==>
      && r.value.base == Prop(args, "base").s
      && (Truthy(Prop(args, "options")) ==> r.value.options == Prop(args, "options"))
      && (!Truthy(Prop(args, "options")) ==> r.value.options == Obj(map[]))
      && Prop(r.value.args, "auth") == Prop(args, "auth")
      && Prop(r.value.args, "username") == Prop(args, "username")
      && Prop(r.value.args, "password") == Prop(args, "password")
  {
    var a := Or(args, Obj(map[]));
    if TypeOf(a) != "object" then
      Failure(InvalidArgument(ARGS_INVALID))
    else if !Truthy(Prop(a, "base")) || TypeOf(Prop(a, "base")) != "string" then
      Failure(InvalidArgument(BASE_INVALID))
    else
      var options := Or(Prop(a, "options"), Obj(map[]));
      if TypeOf(options) != "object" then Failure(InvalidArgument(OPTIONS_INVALID))
      else Success(Request(Prop(a, "base").s, options, a))
  }

  /** What the directory client does with the search request. */
  datatype SearchReply =
    /** the search callback receives an error */
    | SearchRefused(cause: string)
    /** the search call throws synchronously */
    | SearchThrew
    /** the search runs and its result stream delivers these messages */
    | Streamed(stream: Search.Stream)

  /** The search the facade issues: on which connection, for which base, with which options. */
  datatype SearchCall = SearchCall(client: ClientId, base: string, options: JsValue)

  /** What the query callback receives: `(null, data)`, or `(error)` / `(error, data)`. */
  datatype QueryOutcome = Answered(data: Search.Data) | Rejected(error: Error, partial: Option<Search.Data>)

  datatype QueryStep = QueryStep(store: Store, outcome: QueryOutcome, connection: Option<map<string, JsValue>>,
                                 search: Option<SearchCall>)

  /**
   * What the query callback receives once the search request is out (index.js:178-214): the
   * collected results when the stream ends, the partial results with a stream error, the bare
   * error when the search is refused; a synchronous throw escapes.
   */
  function Searched(reply: SearchReply): (outcome: QueryOutcome)
    ensures outcome.Answered? <==> reply.Streamed? && Search.StreamOutcome(reply.stream).Completed?
    ensures outcome.Answered? ==> outcome.data == Search.StreamOutcome(reply.stream).data
    ensures outcome.Rejected? && outcome.partial.Some? <==> reply.Streamed? && Search.StreamOutcome(reply.stream).Errored?
    ensures reply.SearchRefused? ==> outcome == Rejected(SearchFailed(reply.cause), None)
    ensures reply.Streamed? && Search.StreamOutcome(reply.stream).Errored? ==>
      outcome == Rejected(StreamFailed(Search.StreamOutcome(reply.stream).cause), Some(Search.StreamOutcome(reply.stream).partial))
    ensures reply.Streamed? && Search.StreamOutcome(reply.stream).Errored? ==>
      reply.stream.termination == Search.StreamError(Search.StreamOutcome(reply.stream).cause)
      && Search.StreamOutcome(reply.stream).partial == Search.Collected(reply.stream.messages)
    ensures reply.SearchThrew? ==> outcome == Rejected(Uncaught, None)
  {
    match reply
    case SearchThrew => Rejected(Uncaught, None)
    case SearchRefused(cause) => Rejected(SearchFailed(cause), None)
    case Streamed(stream) =>
      match Search.StreamOutcome(stream)
      case Completed(data) => Answered(data)
      case Errored(cause, partial) => Rejected(StreamFailed(cause), Some(partial))
  }

  /**
   * `query(args, cb)` (index.js:151-216). The `catch` at index.js:212-214 names `Err` and
   * `Error.create`, which do not exist, so an exception raised while issuing the search escapes
   * as a new exception instead of reaching the callback: that is `Uncaught`.
   */
  function Query(s: Store, ttl: int, config: map<string, JsValue>, args: JsValue, now: int,
                 bind: BindReply, token: Token, client: ClientId, reply: SearchReply): (step: QueryStep)
    ensures ValidateQuery(args).Failure? ==>
      step == QueryStep(s, Rejected(ValidateQuery(args).error, None), None, None)
    ensures ValidateQuery(args).Success? ==>
      var item := GetItem(s, ttl, config, ValidateQuery(args).value.args, now, bind, token, client);
      && step.store == item.store
      && step.connection == item.connection
      && (item.result.Failure? ==> step.outcome == Rejected(item.result.error, None) && step.search == None)
      && (item.result == Success(None) ==> step.outcome == Rejected(Uncaught, None) && step.search == None)
      && (item.result.Success? && item.result.value.Some? ==>
            && step.search == Some(SearchCall(item.result.value.value.client, ValidateQuery(args).value.base,
                                              ValidateQuery(args).value.options))
            && step.outcome == Searched(reply))
  {
    match ValidateQuery(args)
    case Failure(e) => QueryStep(s, Rejected(e, None), None, None)
    case Success(request) =>
      var item := GetItem(s, ttl, config, request.args, now, bind, token, client);
      match item.result
      case Failure(e) => QueryStep(item.store, Rejected(e, None), item.connection, None)
      case Success(None) =>
        // `item.client` on `undefined` throws inside the `try`, and the `catch` throws again
        QueryStep(item.store, Rejected(Uncaught, None), item.connection, None)
      case Success(Some(record)) =>
        var call := Some(SearchCall(record.client, request.base, request.options));
        QueryStep(item.store, Searched(reply), item.connection, call)
  }

  /**
   * A query that presents a token the cache does not hold (never issued, or expired) fails with
   * "invalid 'auth' property." whatever its base, options and credentials: it neither binds nor
   * searches, and what lookups see is unchanged.
   */
  lemma {:induction false} UnknownTokenRejected(s: Store, ttl: int, config: map<string, JsValue>, args: JsValue, now: int,
                                                bind: BindReply, token: Token, client: ClientId, reply: SearchReply)
    requires ValidateQuery(args).Success?
    requires Truthy(Prop(args, "auth"))
    requires !(ToText(Prop(args, "auth")).Some? && ToText(Prop(args, "auth")).value in LiveAuth(s, now, ttl))
    ensures var step := Query(s, ttl, config, args, now, bind, token, client, reply);
      && step.outcome == Rejected(InvalidToken, None)
      && step.outcome.error.Message() == AUTH_INVALID
      && step.connection == None && step.search == None
      && LiveAuth(step.store, now, ttl) == LiveAuth(s, now, ttl)
      && LiveUsers(step.store, now, ttl) == LiveUsers(s, now, ttl)
  {
    var request := ValidateQuery(args).value;
    assert Prop(request.args, "auth") == Prop(args, "auth");
  }

  /** A query with a live token searches on that session's own connection and binds nothing. */
  lemma {:induction false} TokenQueryUsesSession(s: Store, ttl: int, config: map<string, JsValue>, args: JsValue, now: int,
                                                 bind: BindReply, token: Token, client: ClientId, stream: Search.Stream)
    requires ValidateQuery(args).Success?
    requires IsNonEmptyString(Prop(args, "auth")) && Prop(args, "auth").s in LiveAuth(s, now, ttl)
    ensures var step := Query(s, ttl, config, args, now, bind, token, client, Streamed(stream));
      var request := ValidateQuery(args).value;
      && step.connection == None
      && step.search == Some(SearchCall(LiveAuth(s, now, ttl)[Prop(args, "auth").s].client, request.base, request.options))
      && (stream.termination.End? ==> step.outcome == Answered(Search.Collected(stream.messages)))
      && (stream.termination.StreamError? ==>
            step.outcome == Rejected(StreamFailed(stream.termination.cause), Some(Search.Collected(stream.messages))))
  {
    var request := ValidateQuery(args).value;
    var record := LiveAuth(s, now, ttl)[Prop(args, "auth").s];
    assert Prop(request.args, "auth") == Prop(args, "auth");
    assert GetItem(s, ttl, config, request.args, now, bind, token, client).result == Success(Some(record));
  }

  /**
   * The round trip of authenticate-then-query: a session that a bind has just created serves any
   * query naming its token until it expires, on the connection of that bind, and the query answers
   * with everything the search streamed back.
   */
  lemma {:induction false} BoundSessionServesQueries(s: Store, ttl: int, config: map<string, JsValue>, cr: Credentials,
                                                     bindAt: int, token: Token, client: ClientId, args: JsValue,
                                                     queryAt: int, spare: Token, other: ClientId, stream: Search.Stream)
    requires Reusable(s, ttl, cr, bindAt).None?
    requires bindAt <= queryAt < bindAt + ttl
    requires ValidateQuery(args).Success? && Prop(args, "auth") == Str(token) && token != ""
    ensures var first := Attempt(s, ttl, config, cr, bindAt, Bound, token, client);
      var second := Query(first.store, ttl, config, args, queryAt, Bound, spare, other, Streamed(stream));
      && first.result == Success(Grant(token, cr.username))
      && second.connection == None
      && second.search == Some(SearchCall(client, ValidateQuery(args).value.base, ValidateQuery(args).value.options))
      && (stream.termination.End? ==> second.outcome == Answered(Search.Collected(stream.messages)))
  {
    var first := Attempt(s, ttl, config, cr, bindAt, Bound, token, client);
    assert first.store.auth[token] == Cache.Stamped(Record(cr.username, cr.password, client), bindAt);
    assert token in LiveAuth(first.store, queryAt, ttl);
    TokenQueryUsesSession(first.store, ttl, config, args, queryAt, Bound, spare, other, stream);
  }

  /**
   * Without a token, and with no username in the call or in the settings, the query fails with
   * the username message and nothing else happens.
   */
  lemma {:induction false} MissingUsernameRejected(s: Store, ttl: int, config: map<string, JsValue>, args: JsValue, now: int,
                                                   bind: BindReply, token: Token, client: ClientId, reply: SearchReply)
    requires ValidateQuery(args).Success?
    requires !Truthy(Prop(args, "auth"))
    requires !Truthy(Prop(args, "username")) && !Truthy(Prop(Obj(config), "username"))
    ensures var step := Query(s, ttl, config, args, now, bind, token, client, reply);
      && step == QueryStep(s, Rejected(InvalidArgument(USERNAME_INVALID), None), None, None)
      && Mentions(step.outcome.error.Message(), "username")
  {
    var request := ValidateQuery(args).value;
    assert Prop(request.args, "auth") == Prop(args, "auth");
    assert Prop(request.args, "username") == Prop(args, "username");
    assert ResolveCredentials(request.args, config) == Failure(InvalidArgument(USERNAME_INVALID));
    MissingPropertyNamesIt("username");
  }

  /**
   * Without a token, `getItem` with valid credentials hands on a session of the resolved user
   * with the presented password, whether it reused one or bound a new one.
   */
  lemma {:induction false} CredentialItemIsOwnSession(s: Store, issued: set<Token>, ttl: int, config: map<string, JsValue>,
                                                      args: JsValue, now: int, token: Token, client: ClientId)
    requires Consistent(s, issued) && |token| == TOKEN_LENGTH
    requires ttl > 0
    requires !Truthy(Prop(args, "auth"))
    requires ResolveCredentials(args, config).Success?
    ensures var item := GetItem(s, ttl, config, args, now, Bound, token, client);
      var cr := ResolveCredentials(args, config).value;
      && item.result.Success? && item.result.value.Some?
      && item.result.value.value.username == cr.username
      && item.result.value.value.password == cr.password
  {
    var cr := ResolveCredentials(args, config).value;
    var auth := Authenticate(s, ttl, config, args, now, Bound, token, client);
    assert auth == Attempt(s, ttl, config, cr, now, Bound, token, client);
    GrantedSessionIsLive(s, issued, ttl, config, cr, now, token, client);
  }

  /**
   * After a successful `authenticate`, a lookup at the same time finds the granted token's
   * session, and it holds the presented credentials.
   */
  lemma {:induction false} GrantedSessionIsLive(s: Store, issued: set<Token>, ttl: int, config: map<string, JsValue>,
                                                cr: Credentials, now: int, token: Token, client: ClientId)
    requires Consistent(s, issued) && |token| == TOKEN_LENGTH
    requires ttl > 0
    ensures var step := Attempt(s, ttl, config, cr, now, Bound, token, client);
      && step.result.Success?
      && step.result.value.auth in LiveAuth(step.store, now, ttl)
      && LiveAuth(step.store, now, ttl)[step.result.value.auth].username == cr.username
      && LiveAuth(step.store, now, ttl)[step.result.value.auth].password == cr.password
  {
    var step := Attempt(s, ttl, config, cr, now, Bound, token, client);
    var hit := Reusable(s, ttl, cr, now);
    if hit.Some? {
      assert cr.username in s.users && s.users[cr.username].value == hit.value;
      assert hit.value in issued;
    } else {
      assert step.store.auth[token] == Cache.Stamped(Record(cr.username, cr.password, client), now);
    }
  }

  /**
   * Without a token, a query with valid credentials searches on the session `getItem` obtained
   * (a session of the resolved user) and answers with the collected stream.
   */
  lemma {:induction false} CredentialQuerySearches(s: Store, ttl: int, config: map<string, JsValue>,
                                                   args: JsValue, now: int, token: Token, client: ClientId,
                                                   stream: Search.Stream)
    requires ValidateQuery(args).Success?
    requires var request := ValidateQuery(args).value;
      var item := GetItem(s, ttl, config, request.args, now, Bound, token, client);
      item.result.Success? && item.result.value.Some?
    ensures var request := ValidateQuery(args).value;
      var item := GetItem(s, ttl, config, request.args, now, Bound, token, client);
      var step := Query(s, ttl, config, args, now, Bound, token, client, Streamed(stream));
      && step.search == Some(SearchCall(item.result.value.value.client, request.base, request.options))
      && step.outcome == (match Search.StreamOutcome(stream)
                          case Completed(data) => Answered(data)
                          case Errored(cause, partial) => Rejected(StreamFailed(cause), Some(partial)))
  {
  }

  /**
   * The connections `close` unbinds (index.js:111-120): one per session a lookup still finds,
   * keyed by its token. Entries that have expired are dropped by that lookup without an unbind.
   */
  function Unbinds(s: Store, now: int, ttl: int): (unbound: map<Token, ClientId>)
    ensures unbound.Keys == LiveAuth(s, now, ttl).Keys
    ensures forall t :: t in unbound ==> unbound[t] == LiveAuth(s, now, ttl)[t].client
  {
    map t | t in LiveAuth(s, now, ttl) :: LiveAuth(s, now, ttl)[t].client
  }
}
