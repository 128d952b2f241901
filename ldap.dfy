/**
 * The `LDAP` object of index.js:28-240: the configuration it was built with and its two caches,
 * which `authenticate`, `getItem`, `query` and `close` update in place. Each method is proved to
 * do what the matching function of the Session module describes.
 */
module Facade {
  import opened Js
  import opened Wrappers
  import opened Errors
  import opened Settings
  import Cache
  import Search
  import opened Session

  class Ldap {
    /** The settings object, with `timeout` defaulted. */
    const config: map<string, JsValue>
    /** The lifetime of entries in both caches, in milliseconds. */
    const ttl: int
    /** token to session record */
    var cacheAuth: map<Token, Cache.Stamped<Record>>
    /** username to token */
    var cacheUser: map<string, Cache.Stamped<Token>>
    /** Every token the generator has handed out so far. */
    ghost var issued: set<Token>

    ghost predicate Valid()
      reads this
    {
      Consistent(State(), issued)
    }

    function State(): Store
      reads this
    {
      Store(cacheAuth, cacheUser)
    }

    /** `new LDAP(settings)` (index.js:28-51), for settings that pass the checks of `NewConfig`. */
    constructor (settings: JsValue)
      requires NewConfig(settings).Success?
      requires NewConfig(settings).value["timeout"].Num?
      ensures Valid()
      ensures config == NewConfig(settings).value && ttl == config["timeout"].n
      ensures State() == Store(map[], map[]) && issued == {}
    {
      config := NewConfig(settings).value;
      ttl := NewConfig(settings).value["timeout"].n;
      cacheAuth := map[];
      cacheUser := map[];
      issued := {};
    }

    /** `authenticate(credentials, cb)` (index.js:54-105). */
    method Authenticate(credentials: JsValue, now: int, bind: BindReply, token: Token, client: ClientId)
      returns (result: Result<Grant, Error>, connection: Option<map<string, JsValue>>)
      requires Valid()
      requires |token| == TOKEN_LENGTH && token !in issued
      modifies this
      ensures Valid()
      ensures var step := Session.Authenticate(old(State()), ttl, config, credentials, now, bind, token, client);
        State() == step.store && result == step.result && connection == step.connection
      ensures issued == if connection.Some? && result.Success? then old(issued) + {token} else old(issued)
    {
      var resolved := ResolveCredentials(credentials, config);
      if resolved.Failure? {
        result, connection := Failure(resolved.error), None;
        assert issued == old(issued);
      } else {
        ghost var step := Session.Attempt(State(), ttl, config, resolved.value, now, bind, token, client);
        assert step == Session.Authenticate(State(), ttl, config, credentials, now, bind, token, client);
        AttemptKeepsConsistent(State(), issued, ttl, config, resolved.value, now, bind, token, client);
        ghost var before := issued;
        result, connection := Attempt(resolved.value, now, bind, token, client);
        assert State() == step.store && result == step.result && connection == step.connection;
        assert issued == if connection.Some? && result.Success? then before + {token} else before;
      }
    }

    /** The part of `authenticate` after the argument checks (index.js:77-104). */
    method Attempt(cr: Credentials, now: int, bind: BindReply, token: Token, client: ClientId)
      returns (result: Result<Grant, Error>, connection: Option<map<string, JsValue>>)
      modifies this
      ensures var step := Session.Attempt(old(State()), ttl, config, cr, now, bind, token, client);
        State() == step.store && result == step.result && connection == step.connection
      ensures issued == if connection.Some? && result.Success? then old(issued) + {token} else old(issued)
    {
      var known := Cache.Get(cacheUser, cr.username, now, ttl);
      cacheUser := known.1;
      if known.0.Some? && known.0.value != "" {
        var item := Cache.Get(cacheAuth, known.0.value, now, ttl);
        cacheAuth := item.1;
        if item.0.Some? && item.0.value.password == cr.password {
          result, connection := Success(Grant(known.0.value, cr.username)), None;
          return;
        }
      }

      var options := Just(config, CLIENT_OPTION_NAMES);
      assert options == ClientOptions(config);
      connection := Some(options);
      match bind {
        case Refused(error) =>
          result := Failure(AuthenticationFailed(error));
        case Bound =>
          cacheAuth := Cache.Put(cacheAuth, token, Record(cr.username, cr.password, client), now);
          cacheUser := Cache.Put(cacheUser, cr.username, token, now);
          issued := issued + {token};
          result := Success(Grant(token, cr.username));
      }
    }

    /** `getItem(args, cb)` (index.js:218-239). */
    method GetItem(args: JsValue, now: int, bind: BindReply, token: Token, client: ClientId)
      returns (result: Result<Option<Record>, Error>, connection: Option<map<string, JsValue>>)
      requires Valid()
      requires |token| == TOKEN_LENGTH && token !in issued
      modifies this
      ensures Valid()
      ensures var step := Session.GetItem(old(State()), ttl, config, args, now, bind, token, client);
        State() == step.store && result == step.result && connection == step.connection
      ensures issued == if connection.Some? && result.Success? then old(issued) + {token} else old(issued)
    {
      ghost var before := State();
      var auth := Prop(args, "auth");
      if !Truthy(auth) {
        ghost var step := Session.Authenticate(before, ttl, config, args, now, bind, token, client);
        var granted;
        granted, connection := Authenticate(args, now, bind, token, client);
        if granted.Failure? {
          result := Failure(granted.error);
          return;
        }
        assert State() == step.store && granted == step.result;
        var item := Lookup(granted.value.auth, now);
        result := Success(item);
      } else {
        connection := None;
        var item := None;
        var key := ToText(auth);
        if key.Some? {
          item := Lookup(key.value, now);
        }
        if item.None? {
          result := Failure(InvalidToken);
        } else {
          result := Success(item);
        }
      }
    }

    /** `cacheAuth.get(key)`: the lookup every path of `getItem` ends with (index.js:228, 234). */
    method Lookup(key: Token, now: int) returns (item: Option<Record>)
      requires Valid()
      modifies this
      ensures Valid()
      ensures (item, cacheAuth) == Cache.Get(old(cacheAuth), key, now, ttl)
      ensures cacheUser == old(cacheUser) && issued == old(issued)
    {
      var found := Cache.Get(cacheAuth, key, now, ttl);
      SubStoreConsistent(State(), Store(found.1, cacheUser), issued);
      item, cacheAuth := found.0, found.1;
    }

    /** `query(args, cb)` (index.js:151-216). */
    method Query(args: JsValue, now: int, bind: BindReply, token: Token, client: ClientId, reply: SearchReply)
      returns (outcome: QueryOutcome, connection: Option<map<string, JsValue>>, search: Option<SearchCall>)
      requires Valid()
      requires |token| == TOKEN_LENGTH && token !in issued
      modifies this
      ensures Valid()
      ensures var step := Session.Query(old(State()), ttl, config, args, now, bind, token, client, reply);
        State() == step.store && outcome == step.outcome && connection == step.connection && search == step.search
      ensures issued <= old(issued) + {token}
    {
      var request := ValidateQuery(args);
      if request.Failure? {
        outcome, connection, search := Rejected(request.error, None), None, None;
        return;
      }
      var base, options := request.value.base, request.value.options;
      ghost var step := Session.GetItem(State(), ttl, config, request.value.args, now, bind, token, client);
      var item;
      item, connection := GetItem(request.value.args, now, bind, token, client);
      assert State() == step.store && item == step.result && connection == step.connection;
      if item.Failure? {
        outcome, search := Rejected(item.error, None), None;
        return;
      }
      if item.value.None? {
        outcome, search := Rejected(Uncaught, None), None;
        return;
      }
      search := Some(SearchCall(item.value.value.client, base, options));
      outcome := RunSearch(reply);
    }

    /** The search and the collection of its results (index.js:178-214); the caches are not touched. */
    method RunSearch(reply: SearchReply) returns (outcome: QueryOutcome)
      ensures outcome == Searched(reply)
    {
      match reply {
        case SearchThrew =>
          outcome := Rejected(Uncaught, None);
        case SearchRefused(cause) =>
          outcome := Rejected(SearchFailed(cause), None);
        case Streamed(stream) =>
          var collected := Search.CollectResults(stream);
          match collected {
            case Completed(data) => outcome := Answered(data);
            case Errored(cause, partial) => outcome := Rejected(StreamFailed(cause), Some(partial));
          }
      }
    }

    /**
     * `close(cb)` (index.js:107-134): look up every cached token, unbind the connection of each
     * session the lookup still finds, then empty both caches. `count` is the number of unbinds
     * the join waits for.
     */
    method Close(now: int) returns (unbound: map<Token, ClientId>, count: nat)
      requires Valid()
      modifies this
      ensures Valid()
      ensures unbound == Unbinds(old(State()), now, ttl) && count == |unbound|
      ensures State() == Store(map[], map[]) && issued == old(issued)
    {
      unbound, count := UnbindLive(cacheAuth, now, ttl);
      cacheAuth := map[];
      cacheUser := map[];
    }
  }

  /**
   * The loop of `close` (index.js:111-120): every cached token is looked up, and each session the
   * lookup still finds has its connection unbound. Returns the unbound connections by token and
   * how many unbinds were issued.
   */
  method UnbindLive(cache: map<Token, Cache.Stamped<Record>>, now: int, ttl: int)
    returns (unbound: map<Token, ClientId>, count: nat)
    ensures unbound.Keys == Cache.Live(cache, now, ttl).Keys
    ensures forall t :: t in unbound ==> unbound[t] == Cache.Live(cache, now, ttl)[t].client
    ensures count == |unbound|
  {
    var auth := cache;
    var keys := auth.Keys;
    unbound, count := map[], 0;
    while keys != {}
      invariant keys <= cache.Keys
      invariant forall t :: t in keys ==> t in auth && auth[t] == cache[t]
      invariant unbound == map t | t in cache.Keys - keys && Cache.Fresh(cache[t], now, ttl) :: cache[t].value.client
      invariant count == |unbound|
      decreases keys
    {
      var t :| t in keys;
      var item := Cache.Get(auth, t, now, ttl);
      auth := item.1;
      if item.0.Some? {
        assert t !in unbound;
        count := count + 1;
        unbound := unbound[t := item.0.value.client];
      }
      keys := keys - {t};
    }
  }
}
