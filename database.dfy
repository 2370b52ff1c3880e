/**
 * The memoized connection of lib/database/mongoose.ts: the `cached`
 * `{ conn, promise }` object, shared through `global.mongoose`, and
 * `connectToDatabase`. `mongoose.connect` is an oracle given as the way its
 * promise settles, and each `await` is one atomic step.
 */
module Database {
  import opened Wrappers

  /** A connected Mongoose instance. */
  datatype Mongoose = Mongoose(handle: nat)

  /** How a promise of `mongoose.connect` settles when awaited. */
  datatype Settlement = Resolves(connection: Mongoose) | Rejects(reason: string)

  /** The `{ conn, promise }` cache as a value; a promise is represented by how it settles. */
  datatype CacheState = CacheState(conn: Option<Mongoose>, promise: Option<Settlement>)

  const NoUrlMessage := "MONGODB_URL is not defined"

  /** A cached connection is always the value its cached promise resolved to. */
  predicate Consistent(s: CacheState)
  {
    s.conn.Some? ==> s.promise == Some(Resolves(s.conn.value))
  }

  /** What awaiting a promise of `mongoose.connect` gives: its connection, or a throw of its reason. */
  function Awaited(p: Settlement): (r: Result<Mongoose>)
    ensures r.Ok? <==> p.Resolves?
    ensures p.Resolves? ==> r.value == p.connection
    ensures p.Rejects? ==> r.message == p.reason
  {
    match p
    case Resolves(m) => Ok(m)
    case Rejects(reason) => Err(reason)
  }

  /** One call of `connectToDatabase`: the next cache, the result, and whether `mongoose.connect` was started. */
  datatype Step = Step(next: CacheState, result: Result<Mongoose>, started: bool)

  /**
   * `connectToDatabase` on the cache `s`. A cached connection is returned at
   * once, before the URL is checked. Otherwise a missing URL throws;
   * `mongoose.connect` is started only when no promise is cached; and awaiting
   * the cached promise either stores and returns its connection or throws its
   * reason. A cached promise is never replaced.
   */
  function Connect(s: CacheState, url: Option<string>, connect: Settlement): (step: Step)
    ensures s.conn.Some? ==> step == Step(s, Ok(s.conn.value), false)
    ensures s.conn.None? && !TruthyString(url) ==> step == Step(s, Err(NoUrlMessage), false)
    ensures step.started <==> s.conn.None? && TruthyString(url) && s.promise.None?
    ensures step.started ==> step.next.promise == Some(connect) && step.result == Awaited(connect)
    ensures s.promise.Some? ==> step.next.promise == s.promise
    ensures step.next.promise.Some?
            <==> s.promise.Some? || (s.conn.None? && TruthyString(url))
    ensures step.result.Ok? ==> step.next.conn == Some(step.result.value)
    ensures s.conn.None? && TruthyString(url) ==>
              (step.result.Ok? <==> step.next.promise.value.Resolves?)
              && (step.next.promise.value.Rejects? ==> step.result == Err(step.next.promise.value.reason))
    ensures Consistent(s) ==> Consistent(step.next)
  {
    if s.conn.Some? then Step(s, Ok(s.conn.value), false)
    else if !TruthyString(url) then Step(s, Err(NoUrlMessage), false)
    else
      var started := s.promise.None?;
      var promise := if started then connect else s.promise.value;
      match promise
      case Resolves(m) => Step(CacheState(Some(m), Some(promise)), Ok(m), started)
      case Rejects(reason) => Step(CacheState(None, Some(promise)), Err(reason), started)
  }

  /** The results of a sequence of calls, the final cache and how many connects were started. */
  datatype Trace = Trace(final: CacheState, results: seq<Result<Mongoose>>, starts: nat)

  /** Calls `connectToDatabase` once per element of `connects`, each a possible `mongoose.connect` answer. */
  function ConnectMany(s: CacheState, url: Option<string>, connects: seq<Settlement>): (t: Trace)
    ensures |t.results| == |connects|
    ensures Consistent(s) ==> Consistent(t.final)
    decreases |connects|
  {
    if connects == [] then Trace(s, [], 0)
    else
      var step := Connect(s, url, connects[0]);
      var rest := ConnectMany(step.next, url, connects[1..]);
      Trace(rest.final, [step.result] + rest.results, (if step.started then 1 else 0) + rest.starts)
  }

  /**
   * Across any sequence of calls `mongoose.connect` is started at most once,
   * and never again once a promise is cached, which then stays cached as it is.
   */
  lemma {:induction false} ConnectStartedAtMostOnce(s: CacheState, url: Option<string>, connects: seq<Settlement>)
    ensures ConnectMany(s, url, connects).starts <= 1
    ensures s.promise.Some? ==> ConnectMany(s, url, connects).starts == 0
                                && ConnectMany(s, url, connects).final.promise == s.promise
    decreases |connects|
  {
    if connects != [] {
      var step := Connect(s, url, connects[0]);
      ConnectStartedAtMostOnce(step.next, url, connects[1..]);
    }
  }

  /**
   * The first call on an empty cache with a URL starts `mongoose.connect` and
   * gives what its promise settles to; later calls start nothing more and keep
   * that promise cached.
   */
  lemma {:induction false} FirstCallAwaitsConnect(url: Option<string>, connects: seq<Settlement>)
    requires TruthyString(url) && |connects| > 0
    ensures var t := ConnectMany(CacheState(None, None), url, connects);
            && t.starts == 1 && t.results[0] == Awaited(connects[0])
            && t.final.promise == Some(connects[0])
  {
    var step := Connect(CacheState(None, None), url, connects[0]);
    ConnectStartedAtMostOnce(step.next, url, connects[1..]);
  }

  /**
   * A rejected promise is never reset: every later call throws its reason (or
   * the missing-URL error), nothing is retried, and the cache stays as it was.
   */
  lemma {:induction false} RejectionIsPermanent(s: CacheState, url: Option<string>, connects: seq<Settlement>)
    requires s.conn.None? && s.promise.Some? && s.promise.value.Rejects?
    ensures var t := ConnectMany(s, url, connects);
            && t.final == s && t.starts == 0
            && forall i :: 0 <= i < |t.results| ==>
                 t.results[i] == Err(if TruthyString(url) then s.promise.value.reason else NoUrlMessage)
    decreases |connects|
  {
    if connects != [] {
      var step := Connect(s, url, connects[0]);
      assert step.next == s;
      RejectionIsPermanent(s, url, connects[1..]);
    }
  }

  /** Once a connection is cached every call returns it, whatever the URL, and nothing changes. */
  lemma {:induction false} CachedConnectionIsFinal(s: CacheState, url: Option<string>, connects: seq<Settlement>)
    requires s.conn.Some?
    ensures var t := ConnectMany(s, url, connects);
            && t.final == s && t.starts == 0
            && forall i :: 0 <= i < |t.results| ==> t.results[i] == Ok(s.conn.value)
    decreases |connects|
  {
    if connects != [] {
      CachedConnectionIsFinal(s, url, connects[1..]);
    }
  }

  /** The `{ conn, promise }` object. `connectStarts` counts the `mongoose.connect` calls made for it. */
  class MongooseConnection {
    var conn: Option<Mongoose>
    var promise: Option<Settlement>
    ghost var connectStarts: nat

    constructor ()
      ensures conn == None && promise == None && connectStarts == 0
    {
      conn := None;
      promise := None;
      connectStarts := 0;
    }

    function State(): CacheState
      reads this
    {
      CacheState(conn, promise)
    }

    /** At most one connect was started, exactly when a promise is cached, and the cache is consistent. */
    ghost predicate Valid()
      reads this
    {
      && connectStarts <= 1
      && (promise.None? <==> connectStarts == 0)
      && Consistent(State())
    }
  }

  /** The process's `global` object with its `mongoose` slot. */
  class Global {
    var mongoose: MongooseConnection?

    constructor ()
      ensures mongoose == null
    {
      mongoose := null;
    }
  }

  /** The module once loaded: its `MONGODB_URL` and its `cached` object. */
  class DatabaseModule {
    const mongodbUrl: Option<string>
    const cached: MongooseConnection

    /**
     * Loading the module: `cached` is `global.mongoose` when that exists;
     * otherwise a fresh empty cache is created and installed there.
     */
    constructor (global: Global, mongodbUrl: Option<string>)
      requires global.mongoose != null ==> global.mongoose.Valid()
      modifies global
      ensures this.mongodbUrl == mongodbUrl
      ensures old(global.mongoose) != null ==> cached == old(global.mongoose)
      ensures old(global.mongoose) == null ==> fresh(cached) && cached.State() == CacheState(None, None)
      ensures global.mongoose == cached
      ensures cached.Valid()
    {
      this.mongodbUrl := mongodbUrl;
      if global.mongoose != null {
        cached := global.mongoose;
      } else {
        cached := new MongooseConnection();
      }
      new;
      if global.mongoose == null {
        global.mongoose := cached;
      }
    }

    /**
     * `connectToDatabase()`, given what `mongoose.connect` would answer if
     * called. It does what `Connect` says to the cache, starts at most one
     * connect over the cache's lifetime, and never resets a cached promise.
     */
    method ConnectToDatabase(connect: Settlement) returns (result: Result<Mongoose>)
      requires cached.Valid()
      modifies cached
      ensures cached.Valid()
      ensures var step := Connect(old(cached.State()), mongodbUrl, connect);
              result == step.result && cached.State() == step.next
              && cached.connectStarts == old(cached.connectStarts) + (if step.started then 1 else 0)
      ensures old(cached.promise).Some? ==> cached.promise == old(cached.promise)
    {
      if cached.conn.Some? {
        return Ok(cached.conn.value);
      }
      if !TruthyString(mongodbUrl) {
        return Err(NoUrlMessage);
      }
      if cached.promise.None? {
        cached.promise := Some(connect);
        cached.connectStarts := cached.connectStarts + 1;
      }
      match cached.promise.value
      case Resolves(m) =>
        cached.conn := Some(m);
        return Ok(m);
      case Rejects(reason) =>
        return Err(reason);
    }
  }

  /** Two loads of the module in one process share a single cache object. */
  method LoadTwice(mongodbUrl: Option<string>) returns (first: DatabaseModule, second: DatabaseModule)
    ensures first.cached == second.cached
    ensures first.cached.State() == CacheState(None, None)
  {
    var global := new Global();
    first := new DatabaseModule(global, mongodbUrl);
    second := new DatabaseModule(global, mongodbUrl);
  }
}
