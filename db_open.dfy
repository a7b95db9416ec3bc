/** Opening a MySQL connection: Open fills the empty fields of *Options in place, builds the
    data source name when none is given, and hands it to the driver together with an event
    receiver named after the database. */
module DbOpen {
  import opened Wrappers
  import opened Strings
  import opened DbEvent

  const DefaultPort := 3306
  const DefaultHost := "localhost"
  const DefaultDriver := "mysql"

  /** The query parameters every generated data source name carries. */
  const DsnParams := "charset=utf8mb4&parseTime=true&loc=Local"

  /** The slow-query threshold Open asks for: 200 milliseconds, in nanoseconds. */
  const SlowQueryNanos := 200 * 1_000_000

  /** Options, as a value. */
  datatype Config = Config(driver: string, dataSource: string, dbName: string, userName: string,
                           password: string, host: string, port: int,
                           maxIdleConns: int, maxOpenConns: int)

  /** user:password@tcp(host:port)/dbname?charset=utf8mb4&parseTime=true&loc=Local */
  function DataSourceFor(userName: string, password: string, host: string, port: int, dbName: string): string
  {
    userName + ":" + password + "@tcp(" + host + ":" + IntToString(port) + ")" + "/" + dbName + "?" + DsnParams
  }

  /** The options as Open leaves them: every field Open defaults is filled, a field that was
      already set keeps its value, and the fields Open never defaults are untouched. */
  function Defaulted(c: Config): (r: Config)
    ensures r.port != 0 && r.host != "" && r.dataSource != "" && r.driver != ""
    ensures c.port != 0 ==> r.port == c.port
    ensures c.host != "" ==> r.host == c.host
    ensures c.dataSource != "" ==> r.dataSource == c.dataSource
    ensures c.driver != "" ==> r.driver == c.driver
    ensures c.port == 0 ==> r.port == DefaultPort
    ensures c.host == "" ==> r.host == DefaultHost
    ensures c.driver == "" ==> r.driver == DefaultDriver
    ensures c.dataSource == "" ==> r.dataSource == DataSourceFor(c.userName, c.password, r.host, r.port, c.dbName)
    ensures r.dbName == c.dbName && r.userName == c.userName && r.password == c.password
    ensures r.maxIdleConns == c.maxIdleConns && r.maxOpenConns == c.maxOpenConns
  {
    DriverStep(DataSourceStep(HostStep(PortStep(c))))
  }

  /** The four steps of Open, in its order: the data source is built from the host and port
      as already defaulted. */
  function PortStep(c: Config): Config
  {
    if c.port == 0 then c.(port := DefaultPort) else c
  }

  function HostStep(c: Config): Config
  {
    if c.host == "" then c.(host := DefaultHost) else c
  }

  function DataSourceStep(c: Config): Config
  {
    if c.dataSource == "" then c.(dataSource := DataSourceFor(c.userName, c.password, c.host, c.port, c.dbName))
    else c
  }

  function DriverStep(c: Config): Config
  {
    if c.driver == "" then c.(driver := DefaultDriver) else c
  }

  /** Defaulting twice is defaulting once. */
  lemma DefaultedIdempotent(c: Config)
    ensures Defaulted(Defaulted(c)) == Defaulted(c)
  {
  }

  /** A generated data source names its database: dbName reads back DBName, provided the
      user name, password and host hold no '/' and the database name holds no '?'. */
  lemma DataSourceRoundTrip(userName: string, password: string, host: string, port: int, dbName: string)
    requires '/' !in userName && '/' !in password && '/' !in host && '?' !in dbName
    ensures DbName(DataSourceFor(userName, password, host, port, dbName)) == Some(dbName)
  {
    var digits := IntToString(port);
    assert '/' !in digits by {
      forall i | 0 <= i < |digits| ensures digits[i] != '/' {
        assert IsDigit(digits[i]) || digits[i] == '-';
      }
    }
    var head := userName + ":" + password + "@tcp(" + host + ":" + digits + ")";
    assert '/' !in head by {
      assert '/' !in "@tcp(" && '/' !in ":" && '/' !in ")";
      NoCharConcat(userName, ":", '/');
      NoCharConcat(userName + ":", password, '/');
      NoCharConcat(userName + ":" + password, "@tcp(", '/');
      NoCharConcat(userName + ":" + password + "@tcp(", host, '/');
      NoCharConcat(userName + ":" + password + "@tcp(" + host, ":", '/');
      NoCharConcat(userName + ":" + password + "@tcp(" + host + ":", digits, '/');
      NoCharConcat(userName + ":" + password + "@tcp(" + host + ":" + digits, ")", '/');
    }
    DbNameOf(head, dbName, DsnParams);
  }

  lemma NoCharConcat(a: string, b: string, c: char)
    requires c !in a && c !in b
    ensures c !in a + b
  {
  }

  /** The database Open's event receiver is named after: with no data source given, and names
      free of '/' and '?', it is DBName itself. */
  lemma DefaultedNamesDatabase(c: Config)
    requires c.dataSource == "" && '/' !in c.host && '/' !in c.userName && '/' !in c.password && '?' !in c.dbName
    ensures DbName(Defaulted(c).dataSource) == Some(c.dbName)
  {
    var r := Defaulted(c);
    assert '/' !in DefaultHost;
    DataSourceRoundTrip(c.userName, c.password, r.host, r.port, c.dbName);
  }

  /** The connection Open hands back: the driver, the data source, the event receiver and the
      two pool sizes it sets. */
  datatype Connection = Connection(driver: string, dataSource: string, receiver: EventReceiver,
                                   maxIdleConns: int, maxOpenConns: int)

  /** What Open returns for defaulted options; None stands for its panics: dbName finding no
      '/' or '?', and the driver reporting an error. */
  function Opened(c: Config, driverFails: bool): (conn: Option<Connection>)
    ensures conn.Some? <==> DbName(c.dataSource).Some? && !driverFails
    ensures conn.Some? ==> conn.value.dataSource == c.dataSource && conn.value.driver == c.driver
    ensures conn.Some? ==> conn.value.receiver.costThreshold == 0
  {
    match DbName(c.dataSource)
    case None => None
    case Some(name) =>
      if driverFails then None
      else Some(Connection(c.driver, c.dataSource, NewEventReceiver(name, SlowQueryNanos),
                           c.maxIdleConns, c.maxOpenConns))
  }

  /** db.Options: the struct Open fills in place. */
  class Options {
    var driver: string
    var dataSource: string
    var dbName: string
    var userName: string
    var password: string
    var host: string
    var port: int
    var maxIdleConns: int
    var maxOpenConns: int

    constructor (c: Config)
      ensures Snapshot() == c
    {
      driver, dataSource, dbName := c.driver, c.dataSource, c.dbName;
      userName, password, host, port := c.userName, c.password, c.host, c.port;
      maxIdleConns, maxOpenConns := c.maxIdleConns, c.maxOpenConns;
    }

    function Snapshot(): Config
      reads this
    {
      Config(driver, dataSource, dbName, userName, password, host, port, maxIdleConns, maxOpenConns)
    }
  }

  /** Open: default the options in place, then open; `driverFails` is what dbr.Open reports. */
  method Open(option: Options, driverFails: bool) returns (conn: Option<Connection>)
    modifies option
    ensures option.Snapshot() == Defaulted(old(option.Snapshot()))
    ensures conn == Opened(option.Snapshot(), driverFails)
  {
    FillDefaults(option);
    var c := option.Snapshot();
    var name := DbName(c.dataSource);
    if name.None? || driverFails {
      return None;
    }
    conn := Some(Connection(c.driver, c.dataSource, NewEventReceiver(name.value, SlowQueryNanos),
                            c.maxIdleConns, c.maxOpenConns));
  }

  /** The first half of Open: port, host, data source and driver defaulted in place, in that
      order, so that the generated data source sees the defaulted host and port. */
  method FillDefaults(option: Options)
    modifies option
    ensures option.Snapshot() == Defaulted(old(option.Snapshot()))
  {
    ghost var c := option.Snapshot();
    if option.port == 0 {
      option.port := DefaultPort;
    }
    assert option.Snapshot() == PortStep(c);
    if option.host == "" {
      option.host := DefaultHost;
    }
    assert option.Snapshot() == HostStep(PortStep(c));
    if option.dataSource == "" {
      option.dataSource := DataSourceFor(option.userName, option.password, option.host, option.port, option.dbName);
    }
    assert option.Snapshot() == DataSourceStep(HostStep(PortStep(c)));
    if option.driver == "" {
      option.driver := DefaultDriver;
    }
  }
}
