// Readings as rows, and the query for them: its text, what the text means, and the values
// bound to it (src/database/sensor_repository.cpp).
module SensorQuery {
  import opened Common

  // Time points count nanoseconds; rows hold milliseconds.
  const NS_PER_MS: int := 1_000_000
  const INT64: nat := 0x1_0000_0000_0000_0000

  datatype Reading = Reading(
    deviceId: string, sensor: string, value: real, unit: string, timestamp: int, quality: Option<string>)

  datatype Row = Row(
    deviceId: string, sensorType: string, value: real, unit: string, timestampMs: int, quality: Option<string>)

  // duration_cast<milliseconds>: truncation toward zero.
  function ToUnixMs(ts: int): int {
    if ts >= 0 then ts / NS_PER_MS else -(-ts / NS_PER_MS)
  }

  function FromUnixMs(ms: int): int { ms * NS_PER_MS }

  function ToRow(r: Reading): Row {
    Row(r.deviceId, r.sensor, r.value, r.unit, ToUnixMs(r.timestamp), r.quality)
  }

  // ── The table's columns ────────────────────────────────────────────────────

  datatype Column = DeviceId | SensorType | SensorValue | Unit | TimestampMs | Quality

  datatype Value = NullValue | TextValue(text: string) | IntValue(number: int) | RealValue(value: real)

  function Name(c: Column): string {
    match c
    case DeviceId => "device_id"
    case SensorType => "sensor_type"
    case SensorValue => "value"
    case Unit => "unit"
    case TimestampMs => "timestamp_ms"
    case Quality => "quality"
  }

  function Cell(row: Row, c: Column): Value {
    match c
    case DeviceId => TextValue(row.deviceId)
    case SensorType => TextValue(row.sensorType)
    case SensorValue => RealValue(row.value)
    case Unit => TextValue(row.unit)
    case TimestampMs => IntValue(row.timestampMs)
    case Quality => match row.quality case Some(q) => TextValue(q) case None => NullValue
  }

  // The columns selected, in order.
  const COLUMNS: seq<Column> := [DeviceId, SensorType, SensorValue, Unit, TimestampMs, Quality]

  function Cells(row: Row): seq<Value> { seq(|COLUMNS|, i requires 0 <= i < |COLUMNS| => Cell(row, COLUMNS[i])) }

  // sqlite3_column_*.
  function GetText(v: Value): string { if v.TextValue? then v.text else "" }

  function GetInt(v: Value): int { if v.IntValue? then v.number else 0 }

  function GetReal(v: Value): real { if v.RealValue? then v.value else 0.0 }

  function RowToReading(cells: seq<Value>): Reading
    requires |cells| == |COLUMNS|
  {
    Reading(GetText(cells[0]), GetText(cells[1]), GetReal(cells[2]), GetText(cells[3]), FromUnixMs(GetInt(cells[4])),
            if cells[5].NullValue? then None else Some(GetText(cells[5])))
  }

  lemma {:induction false} CellsAre(row: Row)
    ensures RowToReading(Cells(row)) ==
      Reading(row.deviceId, row.sensorType, row.value, row.unit, row.timestampMs * 1_000_000, row.quality)
  {
  }

  // A stored reading comes back whole, but for the part of a millisecond in its time.
  lemma {:induction false} ReadBack(r: Reading)
    ensures var back := RowToReading(Cells(ToRow(r)));
      && back == r.(timestamp := back.timestamp)
      && (r.timestamp >= 0 ==> 0 <= r.timestamp - back.timestamp < 1_000_000)
      && (r.timestamp <= 0 ==> 0 <= back.timestamp - r.timestamp < 1_000_000)
      && ToRow(back) == ToRow(r)
  {
    CellsAre(ToRow(r));
  }

  // ── The statement and its text ─────────────────────────────────────────────

  datatype Comparison = Equal | AtLeast | AtMost

  // One condition of the WHERE clause; each has one placeholder.
  datatype Clause = Clause(column: Column, comparison: Comparison)

  // All columns of the rows that meet the conditions, by time, up to a limit.
  datatype Select = Select(clauses: seq<Clause>, newestFirst: bool)

  function Names(cs: seq<Column>): string {
    if cs == [] then ""
    else if |cs| == 1 then Name(cs[0])
    else Names(cs[..|cs| - 1]) + ", " + Name(cs[|cs| - 1])
  }

  const WHERE: string := " FROM sensor_readings " + "WHERE "

  function SelectText(): string { "SELECT " + Names(COLUMNS) + WHERE }

  function Symbol(c: Comparison): string {
    match c case Equal => " = ?" case AtLeast => " >= ?" case AtMost => " <= ?"
  }

  function ClauseText(c: Clause): string { Name(c.column) + Symbol(c.comparison) }

  function WhereText(cs: seq<Clause>): string {
    if cs == [] then SelectText()
    else if |cs| == 1 then SelectText() + ClauseText(cs[0])
    else WhereText(cs[..|cs| - 1]) + " AND " + ClauseText(cs[|cs| - 1])
  }

  const LIMIT: string := " LIMIT ?;"

  function Direction(newestFirst: bool): string { if newestFirst then " DESC" else " ASC" }

  function OrderText(newestFirst: bool): string {
    " ORDER BY " + Name(TimestampMs) + Direction(newestFirst) + LIMIT
  }

  function SqlText(s: Select): string { WhereText(s.clauses) + OrderText(s.newestFirst) }

  // ── What it means ──────────────────────────────────────────────────────────

  // Binding a value of the wrong kind would not be this query at all.
  predicate Fits(c: Clause, v: Value) {
    match c.column
    case SensorValue => v.RealValue?
    case TimestampMs => v.IntValue?
    case _ => v.TextValue? && c.comparison == Equal
  }

  predicate Holds(c: Clause, v: Value, row: Row) {
    var cell := Cell(row, c.column);
    match (cell, v)
    case (TextValue(a), TextValue(b)) => c.comparison == Equal && a == b
    case (IntValue(a), IntValue(b)) => (match c.comparison case Equal => a == b case AtLeast => a >= b case AtMost => a <= b)
    case (RealValue(a), RealValue(b)) =>
      (match c.comparison case Equal => a == b case AtLeast => a >= b case AtMost => a <= b)
    case _ => false
  }

  // Parameter i belongs to the placeholder that comes i-th in the text.
  predicate LinesUp(cs: seq<Clause>, params: seq<Value>) {
    && |params| == |cs| + 1
    && (forall i | 0 <= i < |cs| :: Fits(cs[i], params[i]))
    && params[|cs|].IntValue?
  }

  predicate Selects(cs: seq<Clause>, params: seq<Value>, row: Row) {
    LinesUp(cs, params) && forall i | 0 <= i < |cs| :: Holds(cs[i], params[i], row)
  }

  ghost function Filter(table: seq<Row>, keep: Row -> bool): seq<Row> {
    if table == [] then []
    else Filter(table[..|table| - 1], keep) + (if keep(table[|table| - 1]) then [table[|table| - 1]] else [])
  }

  predicate Before(newestFirst: bool, a: Row, b: Row) {
    if newestFirst then a.timestampMs >= b.timestampMs else a.timestampMs <= b.timestampMs
  }

  // `rows` is some choice of the first `limit` of `matching` in this order, in this order.
  ghost predicate Leading(newestFirst: bool, matching: seq<Row>, limit: Option<nat>, rows: seq<Row>) {
    && multiset(rows) <= multiset(matching)
    && |rows| == (if limit.Some? && limit.value < |matching| then limit.value else |matching|)
    && (forall i, j | 0 <= i < j < |rows| :: Before(newestFirst, rows[i], rows[j]))
    && (forall r, i | r in multiset(matching) - multiset(rows) && 0 <= i < |rows| :: Before(newestFirst, rows[i], r))
  }

  // What SQLite may answer; a negative LIMIT is none.
  ghost predicate Answers(table: seq<Row>, s: Select, params: seq<Value>, rows: seq<Row>) {
    && LinesUp(s.clauses, params)
    && var limit := params[|s.clauses|].number;
       Leading(s.newestFirst, Filter(table, row => Selects(s.clauses, params, row)),
               if limit < 0 then None else Some(limit), rows)
  }

  // ... to a text: the cells of an answer to the statement that the text stands for.
  ghost predicate MayAnswer(table: seq<Row>, sql: string, params: seq<Value>, cells: seq<seq<Value>>) {
    exists s, rows :: SqlText(s) == sql && Answers(table, s, params, rows) && cells == AllCells(rows)
  }

  function AllCells(rows: seq<Row>): seq<seq<Value>> { seq(|rows|, i requires 0 <= i < |rows| => Cells(rows[i])) }

  // ── A text stands for one statement ────────────────────────────────────────

  // The last two letters tell the columns apart.
  lemma {:induction false} NameEnd(c: Column)
    ensures var t := Name(c); var n := |t|;
      && n >= 4
      && (t[n - 2] == 'i' && t[n - 1] == 'd' <==> c == DeviceId)
      && (t[n - 2] == 'p' <==> c == SensorType) && (t[n - 2] == 'u' <==> c == SensorValue)
      && (t[n - 2] == 'i' && t[n - 1] == 't' <==> c == Unit)
      && (t[n - 2] == 'm' <==> c == TimestampMs) && (t[n - 2] == 't' <==> c == Quality)
  {
  }

  function FromEnd(s: string, i: int): char
    requires 1 <= i <= |s|
  {
    s[|s| - i]
  }

  // The same last n characters.
  predicate EndsAlike(s: string, t: string, n: nat) {
    n <= |s| && n <= |t| && forall i | 1 <= i <= n :: FromEnd(s, i) == FromEnd(t, i)
  }

  lemma {:induction false} SameEnd(x: string, s: string, y: string, t: string, n: nat)
    requires x + s == y + t && n <= |s| && n <= |t|
    ensures EndsAlike(s, t, n)
    ensures |s| == |t| ==> s == t && x == y
  {
    var u := x + s;
    forall i | 1 <= i <= n ensures FromEnd(s, i) == FromEnd(t, i) {
      assert u[|u| - i] == s[|s| - i] && u[|u| - i] == t[|t| - i];
    }
    if |s| == |t| {
      assert s == u[|x|..] && t == u[|y|..] && x == u[..|x|] && y == u[..|y|];
    }
  }

  lemma {:induction false} ClauseEnd(c: Clause)
    ensures var t, n, name := ClauseText(c), |ClauseText(c)|, Name(c.column); var m := |name|;
      && n >= 8 && t[n - 1] == '?'
      && (t[n - 4] == '>' <==> c.comparison == AtLeast) && (t[n - 4] == '<' <==> c.comparison == AtMost)
      && (c.comparison == Equal ==> t[n - 5] == name[m - 1] && t[n - 6] == name[m - 2])
      && (c.comparison != Equal ==> t[n - 6] == name[m - 1] && t[n - 7] == name[m - 2])
  {
    hide Name;
    NameEnd(c.column);
    var name := Name(c.column);
    assert ClauseText(c)[..|name|] == name;
    assert forall i | 0 <= i < |name| :: ClauseText(c)[i] == name[i];
  }

  lemma {:induction false} ClausesAlike(a: Clause, b: Clause)
    requires EndsAlike(ClauseText(a), ClauseText(b), 7)
    ensures a == b
  {
    hide ClauseText, Name;
    ClauseEnd(a);
    ClauseEnd(b);
    NameEnd(a.column);
    NameEnd(b.column);
    var s, t := ClauseText(a), ClauseText(b);
    assert FromEnd(s, 4) == FromEnd(t, 4) && FromEnd(s, 5) == FromEnd(t, 5);
    assert FromEnd(s, 6) == FromEnd(t, 6) && FromEnd(s, 7) == FromEnd(t, 7);
  }

  // The text before the last condition.
  function BeforeLast(cs: seq<Clause>): string
    requires cs != []
  {
    if |cs| == 1 then SelectText() else WhereText(cs[..|cs| - 1]) + " AND "
  }

  lemma {:induction false} BeforeLastEnds(cs: seq<Clause>)
    requires cs != []
    ensures var t := BeforeLast(cs);
      |t| >= 2 && t[|t| - 1] == ' ' && t[|t| - 2] == if |cs| == 1 then 'E' else 'D'
  {
    SelectEnds();
  }

  lemma {:induction false} SelectEnds()
    ensures var t := SelectText(); |t| >= 2 && t[|t| - 1] == ' ' && t[|t| - 2] == 'E'
  {
    hide Names;
    assert SelectText() == ("SELECT " + Names(COLUMNS) + " FROM sensor_readings ") + "WHERE ";
  }

  lemma {:induction false} WhereTextEnds(cs: seq<Clause>)
    requires cs != []
    ensures WhereText(cs) == BeforeLast(cs) + ClauseText(cs[|cs| - 1])
  {
    hide SelectText, ClauseText;
  }

  lemma {:induction false} LastAlike(a: seq<Clause>, b: seq<Clause>)
    requires a != [] && b != [] && WhereText(a) == WhereText(b)
    ensures a[|a| - 1] == b[|b| - 1] && BeforeLast(a) == BeforeLast(b)
  {
    hide ClauseText, WhereText, BeforeLast, Name, EndsAlike;
    var c, d := a[|a| - 1], b[|b| - 1];
    WhereTextEnds(a);
    WhereTextEnds(b);
    ClauseEnd(c);
    ClauseEnd(d);
    SameEnd(BeforeLast(a), ClauseText(c), BeforeLast(b), ClauseText(d), 7);
    ClausesAlike(c, d);
  }

  lemma {:induction false} SingleAlike(a: seq<Clause>, b: seq<Clause>)
    requires a != [] && b != [] && BeforeLast(a) == BeforeLast(b)
    ensures |a| == 1 <==> |b| == 1
  {
    hide BeforeLast;
    BeforeLastEnds(a);
    BeforeLastEnds(b);
  }

  lemma {:induction false} EmptyEnds(cs: seq<Clause>)
    ensures var t := WhereText(cs); |t| > 0 && (t[|t| - 1] == ' ' <==> cs == [])
  {
    hide ClauseText, SelectText, BeforeLast;
    SelectEnds();
    if cs != [] {
      WhereTextEnds(cs);
      ClauseEnd(cs[|cs| - 1]);
    }
  }

  // The conditions can be read off the text, the last one first.
  lemma {:induction false} WhereTextIsInjective(a: seq<Clause>, b: seq<Clause>)
    requires WhereText(a) == WhereText(b)
    ensures a == b
    decreases |a|
  {
    hide ClauseText, SelectText, WhereText;
    EmptyEnds(a);
    EmptyEnds(b);
    if a != [] {
      LastAlike(a, b);
      SingleAlike(a, b);
      if |a| > 1 {
        SameEnd(WhereText(a[..|a| - 1]), " AND ", WhereText(b[..|b| - 1]), " AND ", 1);
        WhereTextIsInjective(a[..|a| - 1], b[..|b| - 1]);
      }
    }
  }

  lemma {:induction false} OrderEnd(newestFirst: bool)
    ensures var t := OrderText(newestFirst); |t| >= 12 && (FromEnd(t, 12) == 'E' <==> newestFirst)
  {
    hide Name;
    var head := " ORDER BY " + Name(TimestampMs);
    var tail := Direction(newestFirst) + LIMIT;
    assert OrderText(newestFirst) == head + tail;
    assert FromEnd(OrderText(newestFirst), 12) == FromEnd(head + tail, 12);
  }

  // Conditions and direction can be read off the text.
  lemma {:induction false} SqlTextIsInjective(a: Select, b: Select)
    ensures SqlText(a) == SqlText(b) <==> a == b
  {
    hide OrderText, WhereText;
    if SqlText(a) == SqlText(b) {
      OrderEnd(a.newestFirst);
      OrderEnd(b.newestFirst);
      SameEnd(WhereText(a.clauses), OrderText(a.newestFirst), WhereText(b.clauses), OrderText(b.newestFirst), 12);
      assert FromEnd(OrderText(a.newestFirst), 12) == FromEnd(OrderText(b.newestFirst), 12);
      WhereTextIsInjective(a.clauses, b.clauses);
    }
  }

  // ── The query chosen ───────────────────────────────────────────────────────

  datatype Options = Options(deviceId: string, sensorType: string, from: int, to: int, limit: nat)

  // static_cast<int64_t> of a size_t.
  function ToInt64(n: nat): int { if n < INT64 / 2 then n else n - INT64 }

  const DEVICE_IS := Clause(DeviceId, Equal)
  const TYPE_IS := Clause(SensorType, Equal)
  const SINCE := Clause(TimestampMs, AtLeast)
  const UNTIL := Clause(TimestampMs, AtMost)

  function ClausesOf(o: Options): seq<Clause> {
    [DEVICE_IS]
    + (if o.sensorType != "" then [TYPE_IS] else [])
    + (if ToUnixMs(o.from) > 0 then [SINCE] else [])
    + (if ToUnixMs(o.to) > 0 then [UNTIL] else [])
  }

  function SelectOf(o: Options): Select { Select(ClausesOf(o), true) }

  function ValueOf(o: Options, c: Clause): Value {
    if c == DEVICE_IS then TextValue(o.deviceId)
    else if c == TYPE_IS then TextValue(o.sensorType)
    else if c == SINCE then IntValue(ToUnixMs(o.from))
    else IntValue(ToUnixMs(o.to))
  }

  function ParamsOf(o: Options): seq<Value> {
    var cs := ClausesOf(o);
    seq(|cs|, i requires 0 <= i < |cs| => ValueOf(o, cs[i])) + [IntValue(ToInt64(o.limit))]
  }

  // What the caller asks for.
  predicate Wanted(o: Options, row: Row) {
    && row.deviceId == o.deviceId
    && (o.sensorType != "" ==> row.sensorType == o.sensorType)
    && (o.from >= 1_000_000 ==> o.from / 1_000_000 <= row.timestampMs)
    && (o.to >= 1_000_000 ==> row.timestampMs <= o.to / 1_000_000)
  }

  // The newest of them, newest first.
  ghost predicate Newest(o: Options, table: seq<Row>, rows: seq<Row>) {
    var matching := Filter(table, row => Wanted(o, row));
    && multiset(rows) <= multiset(matching)
    && |rows| == (if o.limit < |matching| then o.limit else |matching|)
    && (forall i, j | 0 <= i < j < |rows| :: rows[i].timestampMs >= rows[j].timestampMs)
    && (forall r, i | r in multiset(matching) - multiset(rows) && 0 <= i < |rows| :: r.timestampMs <= rows[i].timestampMs)
  }

  lemma {:induction false} ParamsLineUp(o: Options)
    ensures LinesUp(ClausesOf(o), ParamsOf(o))
    ensures ParamsOf(o)[|ClausesOf(o)|] == IntValue(ToInt64(o.limit))
  {
  }

  lemma {:induction false} HoldsIff(o: Options, row: Row)
    ensures Holds(DEVICE_IS, ValueOf(o, DEVICE_IS), row) <==> row.deviceId == o.deviceId
    ensures Holds(TYPE_IS, ValueOf(o, TYPE_IS), row) <==> row.sensorType == o.sensorType
    ensures Holds(SINCE, ValueOf(o, SINCE), row) <==> ToUnixMs(o.from) <= row.timestampMs
    ensures Holds(UNTIL, ValueOf(o, UNTIL), row) <==> row.timestampMs <= ToUnixMs(o.to)
  {
  }

  lemma {:induction false} ClausesAre(o: Options)
    ensures forall c :: c in ClausesOf(o) <==>
      c == DEVICE_IS || (c == TYPE_IS && o.sensorType != "")
      || (c == SINCE && o.from >= 1_000_000) || (c == UNTIL && o.to >= 1_000_000)
  {
    hide DEVICE_IS, TYPE_IS, SINCE, UNTIL;
  }

  lemma {:induction false} SelectsWanted(o: Options, row: Row)
    ensures Selects(ClausesOf(o), ParamsOf(o), row) <==> Wanted(o, row)
  {
    hide ClausesOf, Holds, ValueOf, DEVICE_IS, TYPE_IS, SINCE, UNTIL, LinesUp;
    var cs, params := ClausesOf(o), ParamsOf(o);
    ParamsLineUp(o);
    assert forall i | 0 <= i < |cs| :: params[i] == ValueOf(o, cs[i]) && cs[i] in cs;
    assert Selects(cs, params, row) <==> forall c | c in cs :: Holds(c, ValueOf(o, c), row);
    ClausesAre(o);
    HoldsIff(o, row);
  }

  // A reading is wanted by its own device, type and time, in whole milliseconds.
  lemma {:induction false} ReadingIsWantedIff(o: Options, r: Reading)
    requires r.timestamp >= 0
    ensures Wanted(o, ToRow(r)) <==>
      && r.deviceId == o.deviceId && (o.sensorType == "" || r.sensor == o.sensorType)
      && (o.from >= 1_000_000 ==> o.from - o.from % 1_000_000 <= r.timestamp)
      && (o.to >= 1_000_000 ==> r.timestamp < o.to - o.to % 1_000_000 + 1_000_000)
  {
  }

  lemma {:induction false} FilterSame(table: seq<Row>, p: Row -> bool, q: Row -> bool)
    requires forall row :: p(row) <==> q(row)
    ensures Filter(table, p) == Filter(table, q)
    decreases |table|
  {
    if table != [] {
      FilterSame(table[..|table| - 1], p, q);
    }
  }

  lemma {:induction false} FilterLength(table: seq<Row>, p: Row -> bool)
    ensures |Filter(table, p)| <= |table|
    decreases |table|
  {
    if table != [] {
      FilterLength(table[..|table| - 1], p);
    }
  }

  // The answers to the statement built are exactly the newest m_limit rows that match the
  // device, the optional type and the optional inclusive time window. A limit of 2^63 or
  // more turns negative and lifts the limit, which only a larger table could show.
  lemma {:induction false} QueryMeansNewest(o: Options, table: seq<Row>, rows: seq<Row>)
    requires o.limit < INT64 && (o.limit < INT64 / 2 || |table| <= o.limit)
    ensures Answers(table, SelectOf(o), ParamsOf(o), rows) <==> Newest(o, table, rows)
  {
    hide ClausesOf, ParamsOf, Selects, Wanted, LinesUp;
    var cs, params := ClausesOf(o), ParamsOf(o);
    ParamsLineUp(o);
    forall row ensures Selects(cs, params, row) <==> Wanted(o, row) {
      SelectsWanted(o, row);
    }
    FilterSame(table, row => Selects(cs, params, row), row => Wanted(o, row));
    FilterLength(table, row => Wanted(o, row));
  }

  // So the text and parameters sent have one meaning: the newest rows wanted.
  lemma {:induction false} TextMeansNewest(o: Options, table: seq<Row>, cells: seq<seq<Value>>)
    requires o.limit < INT64 && (o.limit < INT64 / 2 || |table| <= o.limit)
    ensures MayAnswer(table, SqlText(SelectOf(o)), ParamsOf(o), cells) <==>
      exists rows :: Newest(o, table, rows) && cells == AllCells(rows)
  {
    hide SqlText, SelectOf, ParamsOf, Answers, Newest, AllCells;
    if MayAnswer(table, SqlText(SelectOf(o)), ParamsOf(o), cells) {
      var s, rows :| SqlText(s) == SqlText(SelectOf(o)) && Answers(table, s, ParamsOf(o), rows) && cells == AllCells(rows);
      SqlTextIsInjective(s, SelectOf(o));
      QueryMeansNewest(o, table, rows);
    }
    if rows :| Newest(o, table, rows) && cells == AllCells(rows) {
      QueryMeansNewest(o, table, rows);
    }
  }

  // ── Placeholders ───────────────────────────────────────────────────────────

  function Marks(text: string): nat { multiset(text)['?'] }

  lemma {:induction false} MarksAdd(s: string, t: string)
    ensures Marks(s + t) == Marks(s) + Marks(t)
  {
  }

  lemma {:induction false} NoMark(text: string)
    requires '?' !in text
    ensures Marks(text) == 0
  {
  }

  lemma {:induction false} OneMark(text: string)
    requires text != "" && text[|text| - 1] == '?' && '?' !in text[..|text| - 1]
    ensures Marks(text) == 1
  {
    assert text == text[..|text| - 1] + "?";
  }

  lemma {:induction false} NameHasNoMark(c: Column)
    ensures Marks(Name(c)) == 0
  {
    hide Marks;
    NoMark(Name(c));
  }

  lemma {:induction false} NamesHaveNoMark(cs: seq<Column>)
    ensures Marks(Names(cs)) == 0
  {
    hide Name, Marks;
    NoMark("");
    NoMark(", ");
    if cs != [] {
      var last := cs[|cs| - 1];
      NameHasNoMark(last);
      NamesHaveNoMark(cs[..|cs| - 1]);
      MarksAdd(Names(cs[..|cs| - 1]), ", ");
      MarksAdd(Names(cs[..|cs| - 1]) + ", ", Name(last));
    }
  }

  lemma {:induction false} SelectHasNoMark()
    ensures Marks(SelectText()) == 0
  {
    hide Names, Marks;
    NamesHaveNoMark(COLUMNS);
    MarksAdd("SELECT ", Names(COLUMNS));
    MarksAdd("SELECT " + Names(COLUMNS), WHERE);
    NoMark("SELECT ");
    NoMark(WHERE);
  }

  lemma {:induction false} ClauseMark(c: Clause)
    ensures Marks(ClauseText(c)) == 1
  {
    hide Name, Marks;
    NameHasNoMark(c.column);
    OneMark(Symbol(c.comparison));
    MarksAdd(Name(c.column), Symbol(c.comparison));
  }

  lemma {:induction false} OrderHasOneMark()
    ensures Marks(OrderText(true)) == 1
  {
    hide Name, Marks;
    NoMark(";");
    NoMark(Direction(true));
    NoMark(" ORDER BY ");
    var order := " ORDER BY ";
    NameHasNoMark(TimestampMs);
    OneMark(" LIMIT ?");
    MarksAdd(" LIMIT ?", ";");
    MarksAdd(order, Name(TimestampMs));
    MarksAdd(order + Name(TimestampMs), Direction(true));
    MarksAdd(order + Name(TimestampMs) + Direction(true), LIMIT);
    assert LIMIT == " LIMIT ?" + ";";
  }

  lemma {:induction false} WherePlaceholders(cs: seq<Clause>)
    ensures Marks(WhereText(cs)) == |cs|
  {
    hide SelectText, ClauseText, Marks, BeforeLast;
    SelectHasNoMark();
    if cs != [] {
      ClauseMark(cs[|cs| - 1]);
      WhereTextEnds(cs);
      BeforeLastMarks(cs);
      MarksAdd(BeforeLast(cs), ClauseText(cs[|cs| - 1]));
    }
  }

  lemma {:induction false} BeforeLastMarks(cs: seq<Clause>)
    requires cs != []
    ensures Marks(BeforeLast(cs)) == |cs| - 1
    decreases |cs|, 0
  {
    hide SelectText, ClauseText, WhereText, Marks;
    SelectHasNoMark();
    if |cs| > 1 {
      var rest := cs[..|cs| - 1];
      BeforeLastMarks(rest);
      ClauseMark(rest[|rest| - 1]);
      WhereTextEnds(rest);
      MarksAdd(BeforeLast(rest), ClauseText(rest[|rest| - 1]));
      MarksAdd(WhereText(rest), " AND ");
      NoMark(" AND ");
    }
  }

  // As many placeholders as parameters.
  lemma {:induction false} PlaceholderCount(cs: seq<Clause>)
    ensures Marks(SqlText(Select(cs, true))) == |cs| + 1
  {
    hide OrderText, WhereText, Marks;
    WherePlaceholders(cs);
    OrderHasOneMark();
    MarksAdd(WhereText(cs), OrderText(true));
  }

  // ── What the caller gets ───────────────────────────────────────────────────

  // The readings that rows stand for.
  function ReadingsOf(rows: seq<Row>): seq<Reading> {
    seq(|rows|, i requires 0 <= i < |rows| =>
      var row := rows[i];
      Reading(row.deviceId, row.sensorType, row.value, row.unit, row.timestampMs * 1_000_000, row.quality))
  }

  lemma {:induction false} ReadingsAre(rows: seq<Row>)
    ensures forall i | 0 <= i < |rows| :: RowToReading(AllCells(rows)[i]) == ReadingsOf(rows)[i]
  {
    forall i | 0 <= i < |rows| ensures RowToReading(AllCells(rows)[i]) == ReadingsOf(rows)[i] {
      CellsAre(rows[i]);
    }
  }

  lemma {:induction false} CellsOfAnswer(table: seq<Row>, sql: string, params: seq<Value>, cells: seq<seq<Value>>)
    requires MayAnswer(table, sql, params, cells)
    ensures forall i | 0 <= i < |cells| :: |cells[i]| == |COLUMNS|
  {
  }

  // The limit is bound as the 64-bit pattern it has as a size_t.
  lemma {:induction false} LimitFits(o: Options)
    requires o.limit < 0x1_0000_0000_0000_0000
    ensures var bound := ParamsOf(o)[|ClausesOf(o)|];
      && bound.IntValue? && -0x8000_0000_0000_0000 <= bound.number < 0x8000_0000_0000_0000
      && (bound.number == o.limit || bound.number == o.limit - 0x1_0000_0000_0000_0000)
  {
    ParamsLineUp(o);
  }

  lemma {:induction false} SelectIs(o: Options)
    ensures SelectOf(o) == Select(ClausesOf(o), true)
  {
  }

  lemma {:induction false} NamesNext(cs: seq<Column>, c: Column)
    requires cs != []
    ensures Names(cs + [c]) == Names(cs) + ", " + Name(c)
  {
    hide Name;
    assert (cs + [c])[..|cs|] == cs;
  }

  // The columns as they stand in the code.
  lemma {:induction false} NamesAre()
    ensures Names(COLUMNS) ==
      "device_id" + ", " + "sensor_type" + ", " + "value" + ", " + "unit" + ", " + "timestamp_ms" + ", " + "quality"
  {
    var two := [DeviceId] + [SensorType];
    var four := two + [SensorValue] + [Unit];
    NamesNext([DeviceId], SensorType);
    NamesNext(two, SensorValue);
    NamesNext(two + [SensorValue], Unit);
    NamesNext(four, TimestampMs);
    NamesNext(four + [TimestampMs], Quality);
    assert COLUMNS == four + [TimestampMs] + [Quality];
  }

  // sqlite3_bind_*: parameters are numbered from 1.
  function Bound(params: seq<Value>, index: int, v: Value): seq<Value> {
    if 1 <= index <= |params| then params[index - 1 := v] else params
  }
}
