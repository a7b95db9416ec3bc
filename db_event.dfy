/** The SQL event receiver handed to the database library: the table name it reads out of a
    query, the database name it reads out of a data source, and its logging decisions. The log
    calls themselves are reduced to the record they would write. */
module DbEvent {
  import opened Wrappers
  import opened Seqs
  import opened Strings

  // ---- table ----

  /** The first index `m >= i` of a token `kw` that is not the last token. */
  function FindToken(qs: seq<string>, kw: string, i: nat): (r: Option<nat>)
    requires i <= |qs|
    ensures r.Some? ==> i <= r.value && r.value + 1 < |qs| && qs[r.value] == kw
    ensures r.Some? ==> forall m :: i <= m < r.value ==> qs[m] != kw
    ensures r.None? ==> forall m :: i <= m && m + 1 < |qs| ==> qs[m] != kw
    decreases |qs| - i
  {
    if i + 1 >= |qs| then None
    else if qs[i] == kw then Some(i)
    else FindToken(qs, kw, i + 1)
  }

  /** The first index `m >= i` of "INSERT" followed by "INTO" and one more token. */
  function FindInsert(qs: seq<string>, i: nat): (r: Option<nat>)
    requires i <= |qs|
    ensures r.Some? ==> i <= r.value && r.value + 2 < |qs| && qs[r.value] == "INSERT" && qs[r.value + 1] == "INTO"
    ensures r.Some? ==> forall m :: i <= m < r.value ==> !(qs[m] == "INSERT" && qs[m + 1] == "INTO")
    ensures r.None? ==> forall m :: i <= m && m + 2 < |qs| ==> !(qs[m] == "INSERT" && qs[m + 1] == "INTO")
    decreases |qs| - i
  {
    if i + 2 >= |qs| then None
    else if qs[i] == "INSERT" && qs[i + 1] == "INTO" then Some(i)
    else FindInsert(qs, i + 1)
  }

  /** table over the tokens of `query`: the three searches in their order of priority. */
  function TableOf(qs: seq<string>, query: string): (name: string)
    ensures name == query || name in qs || exists m :: 0 <= m < |qs| && name == RemoveChar(qs[m], '`')
  {
    match FindToken(qs, "FROM", 0)
    case Some(f) => qs[f + 1]
    case None =>
      match FindToken(qs, "UPDATE", 0)
      case Some(u) => RemoveChar(qs[u + 1], '`')
      case None =>
        match FindInsert(qs, 0)
        case Some(n) => RemoveChar(qs[n + 2], '`')
        case None => query
  }

  /** table: the query split on single spaces. The name is the query itself or holds no space. */
  function Table(query: string): (name: string)
    ensures name == query || ' ' !in name
  {
    var qs := Split(query, ' ');
    TokensHaveNoSpace(qs, query);
    TableOf(qs, query)
  }

  /** Table is TableOf over the query's space-separated tokens. */
  lemma TableIs(query: string, qs: seq<string>)
    requires Split(query, ' ') == qs
    ensures Table(query) == TableOf(qs, query)
  {
  }

  lemma TokensHaveNoSpace(qs: seq<string>, query: string)
    requires forall i :: 0 <= i < |qs| ==> ' ' !in qs[i]
    ensures TableOf(qs, query) == query || ' ' !in TableOf(qs, query)
  {
    var name := TableOf(qs, query);
    if name != query && name !in qs {
      var m :| 0 <= m < |qs| && name == RemoveChar(qs[m], '`');
      assert ' ' !in qs[m];
    }
  }

  /** The token after the first non-final FROM wins, backticks and all. */
  lemma TableFrom(qs: seq<string>, query: string, f: nat)
    requires f + 1 < |qs| && qs[f] == "FROM"
    requires forall m :: 0 <= m < f ==> qs[m] != "FROM"
    ensures TableOf(qs, query) == qs[f + 1]
  {
  }

  /** Without a usable FROM, the token after the first non-final UPDATE, without backticks. */
  lemma TableUpdate(qs: seq<string>, query: string, u: nat)
    requires forall m :: 0 <= m && m + 1 < |qs| ==> qs[m] != "FROM"
    requires u + 1 < |qs| && qs[u] == "UPDATE"
    requires forall m :: 0 <= m < u ==> qs[m] != "UPDATE"
    ensures TableOf(qs, query) == RemoveChar(qs[u + 1], '`')
  {
    var r := FindToken(qs, "UPDATE", 0);
    assert r == Some(u);
  }

  /** Without FROM or UPDATE, the token after the first INSERT INTO, without backticks. */
  lemma TableInsert(qs: seq<string>, query: string, n: nat)
    requires forall m :: 0 <= m && m + 1 < |qs| ==> qs[m] != "FROM" && qs[m] != "UPDATE"
    requires n + 2 < |qs| && qs[n] == "INSERT" && qs[n + 1] == "INTO"
    requires forall m :: 0 <= m < n ==> !(qs[m] == "INSERT" && qs[m + 1] == "INTO")
    ensures TableOf(qs, query) == RemoveChar(qs[n + 2], '`')
  {
    var r := FindInsert(qs, 0);
    assert r == Some(n);
  }

  /** With none of the three, the query comes back unchanged. */
  lemma TableFallback(qs: seq<string>, query: string)
    requires forall m :: 0 <= m && m + 1 < |qs| ==> qs[m] != "FROM" && qs[m] != "UPDATE"
    requires forall m :: 0 <= m && m + 2 < |qs| ==> !(qs[m] == "INSERT" && qs[m + 1] == "INTO")
    ensures TableOf(qs, query) == query
  {
  }

  /** FROM wins over an earlier UPDATE: position in the query does not matter. */
  lemma FromBeatsUpdate(a: string, b: string, query: string)
    requires a != "FROM"
    ensures TableOf(["UPDATE", a, "FROM", b], query) == b
  {
    assert |"UPDATE"| != |"FROM"|;
    TableFrom(["UPDATE", a, "FROM", b], query, 2);
  }

  /** A backquoted name loses its backticks. */
  lemma Unquote(t: string)
    requires '`' !in t
    ensures RemoveChar("`" + t + "`", '`') == t
  {
    RemoveCharAppend("`" + t, "`", '`');
    RemoveCharAppend("`", t, '`');
    RemoveCharAbsent(t, '`');
    assert RemoveChar("`", '`') == [];
  }

  /** Two separator-free words joined by one separator split back into those words. */
  lemma SplitTwo(c: string, d: string, sep: char)
    requires sep !in c && sep !in d
    ensures Split(c + [sep] + d, sep) == [c, d]
  {
    SplitFirst(c, d, sep);
    SplitNone(d, sep);
  }

  /** Four separator-free words joined by single separators split back into those words. */
  lemma SplitFour(a: string, b: string, c: string, d: string, sep: char)
    requires sep !in a && sep !in b && sep !in c && sep !in d
    ensures Split(a + [sep] + b + [sep] + c + [sep] + d, sep) == [a, b, c, d]
  {
    SplitFirstThree(a, b, c, d, sep);
    SplitNone(d, sep);
  }

  /** UPDATE `t` SET a names t: the backticks are stripped. */
  lemma TableUpdateStatement(t: string, assignment: string)
    requires ' ' !in t && '`' !in t && ' ' !in assignment
    ensures Table("UPDATE" + " " + "`" + t + "`" + " " + "SET" + " " + assignment) == t
  {
    var quoted := "`" + t + "`";
    var q := "UPDATE" + " " + "`" + t + "`" + " " + "SET" + " " + assignment;
    UpdateTokens(t, assignment);
    var qs := ["UPDATE", quoted, "SET", assignment];
    TableIs(q, qs);
    assert |"UPDATE"| != |"FROM"| && |"SET"| != |"FROM"|;
    assert quoted != "FROM" by { assert quoted[0] == '`'; }
    TableUpdate(qs, q, 0);
    Unquote(t);
  }

  /** The tokens of UPDATE `t` SET a. */
  lemma UpdateTokens(t: string, assignment: string)
    requires ' ' !in t && '`' !in t && ' ' !in assignment
    ensures Split("UPDATE" + " " + "`" + t + "`" + " " + "SET" + " " + assignment, ' ') == ["UPDATE", "`" + t + "`", "SET", assignment]
  {
    var quoted := "`" + t + "`";
    var p := "UPDATE" + [' '];
    AppendAssoc(p, "`", t);
    AppendAssoc(p, "`" + t, "`");
    assert ' ' !in quoted;
    SplitFour("UPDATE", quoted, "SET", assignment, ' ');
  }

  /** INSERT INTO `t` c names t when nothing else matches. */
  lemma TableInsertStatement(t: string, columns: string)
    requires ' ' !in t && '`' !in t && ' ' !in columns
    ensures Table("INSERT" + " " + "INTO" + " " + "`" + t + "`" + " " + columns) == t
  {
    var quoted := "`" + t + "`";
    var q := "INSERT" + " " + "INTO" + " " + "`" + t + "`" + " " + columns;
    InsertTokens(t, columns);
    var qs := ["INSERT", "INTO", quoted, columns];
    InsertKeywords(quoted);
    TableIs(q, qs);
    TableInsert(qs, q, 0);
    Unquote(t);
  }

  /** The tokens of INSERT INTO `t` c. */
  lemma InsertTokens(t: string, columns: string)
    requires ' ' !in t && '`' !in t && ' ' !in columns
    ensures Split("INSERT" + " " + "INTO" + " " + "`" + t + "`" + " " + columns, ' ') == ["INSERT", "INTO", "`" + t + "`", columns]
  {
    var quoted := "`" + t + "`";
    var p := "INSERT" + [' '] + "INTO" + [' '];
    AppendAssoc(p, "`", t);
    AppendAssoc(p, "`" + t, "`");
    assert ' ' !in quoted;
    SplitFour("INSERT", "INTO", quoted, columns, ' ');
  }

  /** None of INSERT, INTO and a quoted name is FROM or UPDATE. */
  lemma InsertKeywords(quoted: string)
    requires |quoted| > 0 && quoted[0] == '`'
    ensures "INSERT" != "FROM" && "INSERT" != "UPDATE" && "INTO" != "FROM" && "INTO" != "UPDATE"
    ensures quoted != "FROM" && quoted != "UPDATE"
  {
    assert |"INSERT"| != |"FROM"| && |"INTO"| != |"UPDATE"|;
    assert "INTO" != "FROM" by { assert "INTO"[0] != "FROM"[0]; }
    assert "INSERT" != "UPDATE" by { assert "INSERT"[0] != "UPDATE"[0]; }
    assert quoted != "FROM" && quoted != "UPDATE" by { assert "FROM"[0] != '`' && "UPDATE"[0] != '`'; }
  }

  /** The tokens of SELECT c FROM, two spaces, t: an empty token sits between FROM and t. */
  lemma DoubleSpaceTokens(columns: string, t: string)
    requires ' ' !in columns && ' ' !in t
    ensures Split("SELECT" + " " + columns + " " + "FROM" + " " + " " + t, ' ') == ["SELECT", columns, "FROM", "", t]
  {
    assert "SELECT" + " " + columns + " " + "FROM" + " " + " " + t ==
           "SELECT" + [' '] + columns + [' '] + "FROM" + [' '] + ("" + [' '] + t);
    SplitFirstThree("SELECT", columns, "FROM", "" + [' '] + t, ' ');
    SplitTwo("", t, ' ');
  }

  /** Two spaces after FROM make an empty token, and that empty token is the table name. */
  lemma TableDoubleSpace(columns: string, t: string)
    requires ' ' !in columns && ' ' !in t && columns != "FROM"
    ensures Table("SELECT" + " " + columns + " " + "FROM" + " " + " " + t) == ""
  {
    var q := "SELECT" + " " + columns + " " + "FROM" + " " + " " + t;
    DoubleSpaceTokens(columns, t);
    TableIs(q, ["SELECT", columns, "FROM", "", t]);
    assert |"SELECT"| != |"FROM"|;
    TableFrom(["SELECT", columns, "FROM", "", t], q, 2);
  }

  /** Two separator-free words in front of any text split off one by one. */
  lemma SplitFirstTwo(b: string, c: string, rest: string, sep: char)
    requires sep !in b && sep !in c
    ensures Split(b + [sep] + (c + [sep] + rest), sep) == [b, c] + Split(rest, sep)
  {
    SplitFirst(b, c + [sep] + rest, sep);
    SplitFirst(c, rest, sep);
  }

  /** Three separator-free words in front of any text split off one by one. */
  lemma SplitFirstThree(a: string, b: string, c: string, rest: string, sep: char)
    requires sep !in a && sep !in b && sep !in c
    ensures Split(a + [sep] + b + [sep] + c + [sep] + rest, sep) == [a, b, c] + Split(rest, sep)
  {
    var tail := b + [sep] + (c + [sep] + rest);
    Regroup(a, b, c, rest, sep);
    SplitFirst(a, tail, sep);
    SplitFirstTwo(b, c, rest, sep);
    ConsPair(a, b, c, Split(rest, sep));
  }

  // ---- dbName ----

  /** dbName: the text between the first '/' and the first '?' after it; None stands for the
      panic when either is missing. */
  function DbName(dataSource: string): (r: Option<string>)
    ensures r.Some? <==> '/' in dataSource && '?' in dataSource[IndexOf(dataSource, '/') + 1..]
    ensures r.Some? ==> '?' !in r.value
  {
    var idx := IndexOf(dataSource, '/');
    if idx == -1 then None
    else
      var rest := dataSource[idx + 1..];
      var j := IndexOf(rest, '?');
      if j == -1 then None
      else
        assert '?' !in rest[..j];
        Some(rest[..j])
  }

  /** The name read back sits between a '/'-free head and a '?'. */
  lemma DbNameFramed(dataSource: string) returns (head: string, tail: string)
    requires DbName(dataSource).Some?
    ensures '/' !in head
    ensures dataSource == head + "/" + DbName(dataSource).value + "?" + tail
  {
    var idx := IndexOf(dataSource, '/');
    var rest := dataSource[idx + 1..];
    var j := IndexOf(rest, '?');
    head, tail := dataSource[..idx], rest[j + 1..];
    Reassemble(dataSource, idx, j);
  }

  lemma Reassemble(s: string, idx: nat, j: nat)
    requires idx < |s| && s[idx] == '/' && idx + 1 + j < |s| && s[idx + 1 + j] == '?'
    ensures s == s[..idx] + "/" + s[idx + 1..][..j] + "?" + s[idx + 1..][j + 1..]
  {
    var rest := s[idx + 1..];
    calc {
      s[..idx] + "/" + rest[..j] + "?" + rest[j + 1..];
      s[..idx] + "/" + (rest[..j] + "?" + rest[j + 1..]);
      { assert rest == rest[..j] + [rest[j]] + rest[j + 1..]; }
      s[..idx] + "/" + rest;
      { assert s == s[..idx] + [s[idx]] + s[idx + 1..]; }
      s;
    }
  }

  /** Any name framed by a '/'-free head and a '?' is read back. */
  lemma DbNameOf(head: string, name: string, tail: string)
    requires '/' !in head && '?' !in name
    ensures DbName(head + "/" + name + "?" + tail) == Some(name)
  {
    var ds := head + "/" + name + "?" + tail;
    assert ds[..|head|] == head;
    IndexOfAt(ds, '/', |head|);
    var rest := ds[|head| + 1..];
    assert rest == name + "?" + tail;
    assert rest[..|name|] == name;
    IndexOfAt(rest, '?', |name|);
  }

  // ---- the receiver ----

  /** sqlEventReceiver: its only field. */
  datatype EventReceiver = EventReceiver(costThreshold: int)

  datatype Level = InfoLevel | ErrorLevel

  /** The log record a receiver method writes: its level, the message kind and the event name. */
  datatype Record = Record(level: Level, kind: string, eventName: string)

  /** NewEventReceiver: both arguments are dropped, so the threshold is always 0. */
  function NewEventReceiver(dbname: string, costThreshold: int): (r: EventReceiver)
    ensures r.costThreshold == 0
  {
    EventReceiver(0)
  }

  /** Go's integer division, which truncates toward zero. */
  function TruncDiv(a: int, b: int): (q: int)
    requires b > 0
    ensures a >= 0 ==> q * b <= a < q * b + b
    ensures a < 0 ==> q * b - b < a <= q * b
  {
    if a >= 0 then a / b else -((-a) / b)
  }

  /** The whole milliseconds in a duration of `nanoseconds`, truncated toward zero. */
  function Millis(nanoseconds: int): int
  {
    TruncDiv(nanoseconds, 1_000_000)
  }

  /** Timing: a record exactly when the whole milliseconds exceed the threshold. */
  function Timing(r: EventReceiver, eventName: string, nanoseconds: int): (log: Option<Record>)
    ensures log.Some? <==> Millis(nanoseconds) > r.costThreshold
    ensures log.Some? ==> log.value.level == InfoLevel && log.value.eventName == eventName
  {
    if Millis(nanoseconds) > r.costThreshold then Some(Record(InfoLevel, "DB Timing", eventName)) else None
  }

  /** TimingKv: the same test, with the key/value data in the record. */
  function TimingKv(r: EventReceiver, eventName: string, nanoseconds: int, kvs: map<string, string>): (log: Option<Record>)
    ensures log.Some? <==> Timing(r, eventName, nanoseconds).Some?
    ensures log.Some? ==> log.value.level == InfoLevel && log.value.eventName == eventName
  {
    if Millis(nanoseconds) > r.costThreshold then Some(Record(InfoLevel, "DB TimingKv", eventName)) else None
  }

  /** With the receiver NewEventReceiver builds, whatever threshold was asked for, every event
      of at least one millisecond is logged and every shorter one is not. */
  lemma TimingOfNewReceiver(dbname: string, costThreshold: int, eventName: string, nanoseconds: int)
    ensures Timing(NewEventReceiver(dbname, costThreshold), eventName, nanoseconds).Some? <==> nanoseconds >= 1_000_000
  {
    var q := Millis(nanoseconds);
    if nanoseconds >= 1_000_000 {
      assert q * 1_000_000 > 0;
    } else if nanoseconds >= 0 {
      assert q * 1_000_000 < 1_000_000;
    } else {
      assert q * 1_000_000 >= nanoseconds;
    }
  }

  /** Truncation toward zero: a negative duration above -1ms counts as 0ms, not -1ms. */
  lemma MillisTruncates()
    ensures Millis(-1) == 0 && Millis(-1_000_000) == -1 && Millis(1_999_999) == 1
  {
  }

  /** A longer event is logged whenever a shorter one is. */
  lemma TimingMonotone(r: EventReceiver, eventName: string, a: int, b: int)
    requires a <= b && Timing(r, eventName, a).Some?
    ensures Timing(r, eventName, b).Some?
  {
    var qa, qb := Millis(a), Millis(b);
    if qb < qa {
      assert qb * 1_000_000 < qa * 1_000_000;
    }
  }

  /** EventErr: the error comes back unchanged, with an error-level record. */
  function EventErr<E>(r: EventReceiver, eventName: string, err: E): (out: (E, Record))
    ensures out.0 == err && out.1.level == ErrorLevel && out.1.eventName == eventName
  {
    (err, Record(ErrorLevel, "DB EventErr", eventName))
  }

  /** EventErrKv: the same, with the key/value data in the record. */
  function EventErrKv<E>(r: EventReceiver, eventName: string, err: E, kvs: map<string, string>): (out: (E, Record))
    ensures out.0 == err && out.1.level == ErrorLevel && out.1.eventName == eventName
  {
    (err, Record(ErrorLevel, "DB EventErr", eventName))
  }
}
