/**
 * The process-wide database connection cache: `global.mongoose`, a record
 * `{conn, promise}` read and assigned by `connectToDatabase`.
 */
module MongoCache {
  import opened Wrappers

  /** A connected mongoose instance, the value `mongoose.connect` resolves to. */
  datatype Connection = Connection(id: nat)

  /** `cached.conn` (None for both `null` and `undefined`, which are only ever tested for truthiness)
      and `cached.promise`, represented by the value it settles to: `Some(None)` is a promise whose
      connect failed and whose catch handler resolved it to `undefined`. */
  datatype CacheState = CacheState(conn: Option<Connection>, promise: Option<Option<Connection>>)

  const Initial := CacheState(None, None)

  /** The outcome of one `connectToDatabase()` call: the new cache, the value returned, and whether
      this call started `mongoose.connect`. */
  datatype CallResult = CallResult(next: CacheState, result: Option<Connection>, connected: bool)

  /** One call, where `attempt` is what a connect started by this call would settle to. */
  function Step(s: CacheState, attempt: Option<Connection>): (r: CallResult)
    ensures r.result == r.next.conn
    ensures r.connected <==> s == Initial
    ensures s.conn.Some? ==> r.next == s
    ensures s.conn.None? ==> r.next.promise == Some(r.result)
  {
    if s.conn.Some? then CallResult(s, s.conn, false)
    else
      var p := if s.promise.Some? then s.promise.value else attempt;
      CallResult(CacheState(p, Some(p)), p, s.promise.None?)
  }

  /** The states a process can be in: fresh, or holding a settled promise whose value is also `conn`. */
  predicate Reachable(s: CacheState) {
    s == Initial || (s.promise.Some? && s.conn == s.promise.value)
  }

  datatype History = History(final: CacheState, results: seq<Option<Connection>>, connects: nat)

  /** A sequence of calls; `attempts[i]` is what a connect started by the i-th call would settle to. */
  function Calls(s: CacheState, attempts: seq<Option<Connection>>): (h: History)
    ensures |h.results| == |attempts|
    decreases |attempts|
  {
    if attempts == [] then History(s, [], 0)
    else
      var c := Step(s, attempts[0]);
      var rest := Calls(c.next, attempts[1..]);
      History(rest.final, [c.result] + rest.results, (if c.connected then 1 else 0) + rest.connects)
  }

  /** Every call preserves reachability, and only a call on the fresh cache connects. */
  lemma StepReachable(s: CacheState, attempt: Option<Connection>)
    requires Reachable(s)
    ensures Reachable(Step(s, attempt).next)
    ensures Step(s, attempt).connected <==> s == Initial
    ensures Step(s, attempt).result == Step(s, attempt).next.conn
  {
  }

  /** Once a promise has settled to `v`, every further call returns `v`, connects no more and leaves
      the cache as it is; for a failed connect, `v` is `None` for good. */
  lemma {:induction false} SettledForever(v: Option<Connection>, attempts: seq<Option<Connection>>)
    ensures var h := Calls(CacheState(v, Some(v)), attempts);
      && h.connects == 0
      && h.final == CacheState(v, Some(v))
      && forall i :: 0 <= i < |h.results| ==> h.results[i] == v
  {
    if attempts != [] {
      SettledForever(v, attempts[1..]);
    }
  }

  /** Over the life of a process, `mongoose.connect` runs at most once, and every call of
      `connectToDatabase` returns what that single attempt settled to. */
  lemma {:induction false} OneConnectPerProcess(attempts: seq<Option<Connection>>)
    ensures var h := Calls(Initial, attempts);
      && h.connects == (if attempts == [] then 0 else 1)
      && forall i :: 0 <= i < |h.results| ==> h.results[i] == attempts[0]
  {
    if attempts != [] {
      SettledForever(attempts[0], attempts[1..]);
    }
  }

  class ConnectionCache {
    var conn: Option<Connection>
    var promise: Option<Option<Connection>>
    /** Calls of `mongoose.connect` so far. */
    ghost var connects: nat

    function State(): CacheState
      reads this
    {
      CacheState(conn, promise)
    }

    ghost predicate Valid()
      reads this
    {
      Reachable(State()) && connects == (if promise.Some? then 1 else 0)
    }

    /** `{ conn: null, promise: null }` */
    constructor ()
      ensures Valid() && State() == Initial && connects == 0
    {
      conn := None;
      promise := None;
      connects := 0;
    }

    /** `connectToDatabase()`: a cached connection is returned at once; otherwise a connect is started
        only if no promise is cached, and the cached promise's value becomes `conn`. */
    method ConnectToDatabase(attempt: Option<Connection>) returns (r: Option<Connection>)
      requires Valid()
      modifies this
      ensures Valid()
      ensures var c := Step(old(State()), attempt);
        State() == c.next && r == c.result && connects == old(connects) + (if c.connected then 1 else 0)
      ensures connects <= 1
    {
      if conn.Some? {
        return conn;
      }
      if promise.None? {
        promise := Some(attempt);
        connects := connects + 1;
      }
      conn := promise.value;
      return conn;
    }
  }

  /** The `global` object that survives re-evaluation of the module. */
  class NodeGlobal {
    var mongoose: ConnectionCache?

    constructor ()
      ensures mongoose == null
    {
      mongoose := null;
    }
  }

  /** The module body: reuse `global.mongoose` when it is set, otherwise create and publish a fresh cache. */
  method LoadModule(g: NodeGlobal) returns (cached: ConnectionCache)
    modifies g
    ensures g.mongoose == cached
    ensures old(g.mongoose) != null ==> cached == old(g.mongoose)
    ensures old(g.mongoose) == null ==> fresh(cached) && cached.Valid() && cached.State() == Initial
  {
    if g.mongoose != null {
      cached := g.mongoose;
    } else {
      cached := new ConnectionCache();
      g.mongoose := cached;
    }
  }
}
