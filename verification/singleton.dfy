/** Closure singleton: `getInstance` creates the instance on the first call
    and returns that same object ever after. Objects are ids; `created`
    counts constructions. */
module ClosureSingleton {
  import opened Outcomes

  datatype Closure = Closure(instance: Option<nat>, created: nat)

  datatype Got = Got(instance: nat, after: Closure)

  function New(): (c: Closure)
    ensures c.instance.None? && c.created == 0
  {
    Closure(None, 0)
  }

  /** The closure state is consistent: an instance exists iff one was made. */
  predicate Valid(c: Closure)
  {
    (c.instance.None? && c.created == 0) || (c.instance.Some? && c.created == 1)
  }

  /** `getInstance`. */
  function GetInstance(c: Closure): (g: Got)
    ensures c.instance.None? ==> g.after.created == c.created + 1 && g.after.instance == Some(g.instance)
    ensures c.instance.Some? ==> g.after == c && g.instance == c.instance.value
    ensures Valid(c) ==> Valid(g.after)
  {
    if c.instance.None? then Got(c.created, Closure(Some(c.created), c.created + 1))
    else Got(c.instance.value, c)
  }

  /** Calling `getInstance` n times from the start: the results. */
  function Calls(c: Closure, n: nat): (rs: seq<nat>)
    decreases n
  {
    if n == 0 then [] else var g := GetInstance(c); [g.instance] + Calls(g.after, n - 1)
  }

  /** After the first call nothing more is created, and every call returns
      the instance the first call created. */
  lemma {:induction false} AllCallsSame(c: Closure, n: nat)
    requires c.instance.Some?
    ensures forall i :: 0 <= i < |Calls(c, n)| ==> Calls(c, n)[i] == c.instance.value
    ensures |Calls(c, n)| == n
    decreases n
  {
    if n > 0 {
      AllCallsSame(c, n - 1);
    }
  }

  /** From a fresh closure: one construction, n identical results. */
  lemma SameInstance(n: nat)
    requires n > 0
    ensures var rs := Calls(New(), n); |rs| == n && forall i :: 0 <= i < n ==> rs[i] == rs[0]
  {
    var g := GetInstance(New());
    AllCallsSame(g.after, n - 1);
  }

  /** The client run: `instance1 === instance2`. */
  lemma ClientRun()
    ensures var g1 := GetInstance(New()); var g2 := GetInstance(g1.after);
            g1.instance == g2.instance && g2.after.created == 1
  {
  }
}

/** Database connection singleton: the constructor returns the stored
    instance if there is one (ignoring the new config); otherwise it stores
    the config, connects, and becomes the instance. */
module DatabaseSingleton {
  import opened Outcomes

  datatype Config = Config(databaseName: string)

  datatype Connection = Connection(id: nat, config: Config, isConnected: bool)

  datatype Line = Connected(databaseName: string) | NotConnected | Executing(sql: string)

  /** The class's static slot plus the console. */
  datatype Static = Static(instance: Option<Connection>, created: nat, log: seq<Line>)

  datatype Built = Built(connection: Connection, after: Static)

  /** `connect`. */
  function Connect(c: Connection, log: seq<Line>): (r: (Connection, seq<Line>))
    ensures r.0 == c.(isConnected := true)
    ensures r.1 == log + [Connected(c.config.databaseName)]
  {
    (c.(isConnected := true), log + [Connected(c.config.databaseName)])
  }

  /** `new DatabaseConnection(config)`. */
  function Construct(s: Static, config: Config): (b: Built)
    ensures s.instance.Some? ==> b.connection == s.instance.value && b.after == s
    ensures s.instance.None? ==>
      b.connection == Connection(s.created, config, true) &&
      b.after.instance == Some(b.connection) && b.after.created == s.created + 1 &&
      b.after.log == s.log + [Connected(config.databaseName)]
  {
    match s.instance
    case Some(existing) => Built(existing, s)
    case None =>
      var unconnected := Connection(s.created, config, false);
      var (connected, log) := Connect(unconnected, s.log);
      Built(connected, Static(Some(connected), s.created + 1, log))
  }

  /** `query(sql)`. */
  function Query(c: Connection, sql: string, log: seq<Line>): (r: seq<Line>)
    ensures c.isConnected ==> r == log + [Executing(sql)]
    ensures !c.isConnected ==> r == log + [NotConnected]
  {
    if !c.isConnected then log + [NotConnected] else log + [Executing(sql)]
  }

  /** A second construction returns the first instance, whatever its config,
      and `connect` is not run again. */
  lemma SecondConstructionReturnsFirst(s: Static, c1: Config, c2: Config)
    requires s.instance.None?
    ensures var b1 := Construct(s, c1); var b2 := Construct(b1.after, c2);
            b2.connection == b1.connection && b2.connection.config == c1 &&
            b2.after.log == b1.after.log && b2.after.created == s.created + 1
  {
  }

  /** Every constructed connection is connected, so its queries run. */
  lemma ConstructedQueriesRun(s: Static, config: Config, sql: string, log: seq<Line>)
    requires s.instance.None? || s.instance.value.isConnected
    ensures Query(Construct(s, config).connection, sql, log) == log + [Executing(sql)]
  {
  }

  /** The client run. */
  lemma ClientRun()
    ensures var cfg := Config("mydb");
            var b1 := Construct(Static(None, 0, []), cfg);
            var l1 := Query(b1.connection, "SELECT * FROM users", b1.after.log);
            var b2 := Construct(b1.after.(log := l1), cfg);
            var l2 := Query(b2.connection, "INSERT INTO orders ...", b2.after.log);
            b1.connection == b2.connection &&
            l2 == [Connected("mydb"), Executing("SELECT * FROM users"), Executing("INSERT INTO orders ...")]
  {
  }
}

/** Logger singleton: every construction after the first returns the first
    logger, so all handles share one `logs` list. */
module LoggerSingleton {
  import opened Outcomes

  /** The static slot (the id of the one logger) and that logger's `logs`. */
  datatype Static = Static(instance: Option<nat>, logs: seq<string>)

  datatype Built = Built(handle: nat, after: Static)

  function Start(): (s: Static)
    ensures s.instance.None? && s.logs == []
  {
    Static(None, [])
  }

  /** `new Logger()`: a fresh logger with empty logs, or the stored one. */
  function Construct(s: Static, freshId: nat): (b: Built)
    ensures s.instance.Some? ==> b.handle == s.instance.value && b.after == s
    ensures s.instance.None? ==> b.handle == freshId && b.after == Static(Some(freshId), [])
  {
    match s.instance
    case Some(id) => Built(id, s)
    case None => Built(freshId, Static(Some(freshId), []))
  }

  /** `log(message)` through a handle: pushes onto the shared list. */
  function Log(s: Static, handle: nat, message: string): (r: Static)
    requires s.instance == Some(handle)
    ensures r.instance == s.instance && r.logs == s.logs + [message]
  {
    s.(logs := s.logs + [message])
  }

  /** Logging m1 via the first handle and m2 via a second construction gives
      [m1, m2], seen from either handle (they are the same logger). */
  lemma SharedLogs(m1: string, m2: string, id1: nat, id2: nat)
    ensures var b1 := Construct(Start(), id1);
            var s1 := Log(b1.after, b1.handle, m1);
            var b2 := Construct(s1, id2);
            b2.handle == b1.handle && Log(b2.after, b2.handle, m2).logs == [m1, m2]
  {
  }
}
