// Sensor reading persistence (src/database/sensor_repository.cpp).
module Sensor {
  import opened Common
  import opened Sqlite
  import opened SensorQuery

  // What the repository relies on: the device ids referred to by the foreign key, and its
  // own table in insertion order.
  datatype Tables = Tables(devices: set<string>, readings: seq<Row>)

  type Database = Connection<Tables>

  // ── Add and AddBatch ───────────────────────────────────────────────────────

  // The insert, whose failure on an unknown device is not looked at.
  function Inserted(t: Tables, r: Reading): Tables {
    if r.deviceId in t.devices then t.(readings := t.readings + [ToRow(r)]) else t
  }

  function InsertedAll(t: Tables, rs: seq<Reading>): Tables {
    if rs == [] then t else Inserted(InsertedAll(t, rs[..|rs| - 1]), rs[|rs| - 1])
  }

  function Added(db: Database, r: Reading): Database { Write(db, Inserted(Visible(db), r)) }

  // `prepared`: preparing the statement does not throw.
  function AddResult(db: Database, r: Reading, prepared: bool): (Database, Outcome<()>) {
    if prepared then (Added(db, r), Returned(Ok(()))) else (db, Threw)
  }

  // A prepared Add reports success. Outside a transaction it appends exactly the row of a
  // known device to the committed ones, inside one to the pending; an unknown device changes
  // nothing.
  lemma {:induction false} AddAppends(db: Database, r: Reading, prepared: bool)
    ensures var (next, outcome) := AddResult(db, r, prepared);
      var t := if db.tx.Some? then db.tx.value else db.committed;
      var ms := if r.timestamp >= 0 then r.timestamp / 1_000_000 else -(-r.timestamp / 1_000_000);
      var row := Row(r.deviceId, r.sensor, r.value, r.unit, ms, r.quality);
      var rows := if r.deviceId in t.devices then t.readings + [row] else t.readings;
      && (!prepared ==> outcome == Threw && next == db)
      && (prepared ==> outcome == Returned(Ok(())))
      && (prepared && db.tx.None? ==> next == Connection(Tables(t.devices, rows), None))
      && (prepared && db.tx.Some? ==> next == Connection(db.committed, Some(Tables(t.devices, rows))))
  {
  }

  // Add called on each reading in order.
  function AddedEach(db: Database, rs: seq<Reading>): Database
    decreases |rs|
  {
    if rs == [] then db else AddedEach(AddResult(db, rs[0], true).0, rs[1..])
  }

  // How BEGIN, preparing the insert, COMMIT and ROLLBACK go.
  datatype Faults = Faults(begin: bool, prepare: bool, commit: bool, rollback: bool)

  function BatchResult(db: Database, rs: seq<Reading>, ok: Faults): (Database, Outcome<()>) {
    if rs == [] then (db, Returned(Ok(())))
    else if db.tx.Some? || !ok.begin then (db, Returned(Err(DatabaseError)))
    else if !ok.prepare then (db.(tx := Some(db.committed)), Threw)
    else Ended(db, InsertedAll(db.committed, rs), ok)
  }

  // The end of a transaction that has come to contents t.
  function Ended(db: Database, t: Tables, ok: Faults): (Database, Outcome<()>) {
    if ok.commit then (Connection(t, None), Returned(Ok(())))
    else (if ok.rollback then db else db.(tx := Some(t)), Returned(Err(DatabaseError)))
  }

  lemma {:induction false} InsertedAllFirst(t: Tables, rs: seq<Reading>)
    requires rs != []
    ensures InsertedAll(t, rs) == InsertedAll(Inserted(t, rs[0]), rs[1..])
    decreases |rs|
  {
    if |rs| > 1 {
      InsertedAllFirst(t, rs[..|rs| - 1]);
      assert rs[..|rs| - 1][1..] == rs[1..][..|rs| - 2];
    } else {
      assert rs[..0] == [] && rs[1..] == [];
    }
  }

  lemma {:induction false} AddedEachIsInsertedAll(db: Database, rs: seq<Reading>)
    ensures AddedEach(db, rs) == Write(db, InsertedAll(Visible(db), rs))
    decreases |rs|
  {
    if rs != [] {
      AddedEachIsInsertedAll(AddResult(db, rs[0], true).0, rs[1..]);
      InsertedAllFirst(Visible(db), rs);
    }
  }

  // The readings that refer to a known device.
  function Known(devices: set<string>, rs: seq<Reading>): seq<Row> {
    if rs == [] then []
    else
      var r := rs[|rs| - 1];
      Known(devices, rs[..|rs| - 1]) + (if r.deviceId in devices then [ToRow(r)] else [])
  }

  lemma {:induction false} InsertedAllKeepsKnown(t: Tables, rs: seq<Reading>)
    ensures InsertedAll(t, rs) == Tables(t.devices, t.readings + Known(t.devices, rs))
    decreases |rs|
  {
    if rs != [] {
      InsertedAllKeepsKnown(t, rs[..|rs| - 1]);
    }
  }

  // A batch reports success iff nothing failed and no transaction was open, and then leaves
  // what single inserts leave: the old rows and those of known devices, in order. Any other
  // batch has committed nothing, and leaves nothing pending unless ROLLBACK fails or an
  // exception leaves the transaction open.
  lemma {:induction false} BatchRefinesAdds(db: Database, rs: seq<Reading>, ok: Faults)
    ensures var (next, outcome) := BatchResult(db, rs, ok);
      && (outcome == Returned(Ok(())) <==> rs == [] || (db.tx.None? && ok.begin && ok.prepare && ok.commit))
      && (outcome == Returned(Ok(())) ==> next == AddedEach(db, rs))
      && (outcome == Returned(Ok(())) && db.tx.None? ==>
            next.committed.readings == db.committed.readings + Known(db.committed.devices, rs))
      && (outcome != Returned(Ok(())) ==> next.committed == db.committed)
      && (outcome == Threw <==> rs != [] && db.tx.None? && ok.begin && !ok.prepare)
      && (outcome == Threw ==> next.tx == Some(db.committed))
      && outcome in {Returned(Ok(())), Returned(Err(DatabaseError)), Threw}
      && (db.tx.None? && rs != [] && ok == Faults(true, true, false, false) ==>
            next.tx == Some(Tables(db.committed.devices, db.committed.readings + Known(db.committed.devices, rs))))
      && (outcome == Returned(Err(DatabaseError)) ==>
            (next == db <==> db.tx.Some? || !ok.begin || ok.rollback))
  {
    AddedEachIsInsertedAll(db, rs);
    InsertedAllKeepsKnown(db.committed, rs);
  }

  datatype Operation = Add(reading: Reading, prepared: bool) | AddBatch(readings: seq<Reading>, ok: Faults)

  function Run(db: Database, ops: seq<Operation>): Database
    decreases |ops|
  {
    if ops == [] then db
    else
      var next := match ops[0]
        case Add(r, prepared) => AddResult(db, r, prepared).0
        case AddBatch(rs, ok) => BatchResult(db, rs, ok).0;
      Run(next, ops[1..])
  }

  // Once a batch has left its transaction open, nothing is committed any more, though single
  // inserts still report success; closing the connection loses them.
  lemma {:induction false} OpenTransactionSwallows(db: Database, ops: seq<Operation>)
    requires db.tx.Some?
    ensures Run(db, ops).tx.Some? && Reopened(Run(db, ops)) == Reopened(db)
    decreases |ops|
  {
    if ops != [] {
      var next := match ops[0]
        case Add(r, prepared) => AddResult(db, r, prepared).0
        case AddBatch(rs, ok) => BatchResult(db, rs, ok).0;
      OpenTransactionSwallows(next, ops[1..]);
    }
  }

  // ── Sharing the connection ─────────────────────────────────────────────────

  // The device repository uses the same connection under a mutex of its own, so that its
  // statements may fall between those of a batch.
  datatype Statement = InsertReading(reading: Reading) | InsertDevice(id: string) | DeleteDevice(id: string)

  function OfOthers(rows: seq<Row>, id: string): seq<Row> {
    if rows == [] then []
    else
      var row := rows[|rows| - 1];
      OfOthers(rows[..|rows| - 1], id) + (if row.deviceId == id then [] else [row])
  }

  // Deleting a device deletes its readings (src/database/schema.hpp:41).
  function Executed(t: Tables, s: Statement): Tables {
    match s
    case InsertReading(r) => Inserted(t, r)
    case InsertDevice(id) => t.(devices := t.devices + {id})
    case DeleteDevice(id) => Tables(t.devices - {id}, OfOthers(t.readings, id))
  }

  function ExecutedAll(t: Tables, ss: seq<Statement>): Tables {
    if ss == [] then t else Executed(ExecutedAll(t, ss[..|ss| - 1]), ss[|ss| - 1])
  }

  // Every reading has its device.
  ghost predicate ForeignKeysHold(t: Tables) { forall row | row in t.readings :: row.deviceId in t.devices }

  // The rows of one device.
  function Of(rows: seq<Row>, id: string): seq<Row> {
    if rows == [] then []
    else
      var row := rows[|rows| - 1];
      Of(rows[..|rows| - 1], id) + (if row.deviceId == id then [row] else [])
  }

  lemma {:induction false} OfOthersAre(rows: seq<Row>, id: string)
    ensures forall row :: row in OfOthers(rows, id) <==> row in rows && row.deviceId != id
  {
    if rows != [] {
      OfOthersAre(rows[..|rows| - 1], id);
      assert rows == rows[..|rows| - 1] + [rows[|rows| - 1]];
    }
  }

  lemma {:induction false} OfOne(rows: seq<Row>, row: Row, id: string)
    ensures Of(rows + [row], id) == Of(rows, id) + (if row.deviceId == id then [row] else [])
  {
    assert (rows + [row])[..|rows|] == rows;
  }

  // Deleting the rows of a device leaves those of every other one, in order.
  lemma {:induction false} OfOthersKeeps(rows: seq<Row>, id: string, other: string)
    ensures Of(OfOthers(rows, id), other) == if other == id then [] else Of(rows, other)
  {
    if rows != [] {
      var before, row := rows[..|rows| - 1], rows[|rows| - 1];
      assert rows == before + [row];
      OfOthersKeeps(before, id, other);
      OfOne(OfOthers(before, id), row, other);
      assert OfOthers(rows, id) == if row.deviceId == id then OfOthers(before, id) else OfOthers(before, id) + [row];
    }
  }

  lemma {:induction false} StatementsKeepForeignKeys(t: Tables, ss: seq<Statement>)
    requires ForeignKeysHold(t)
    ensures ForeignKeysHold(ExecutedAll(t, ss))
  {
    if ss != [] {
      StatementsKeepForeignKeys(t, ss[..|ss| - 1]);
      if ss[|ss| - 1].DeleteDevice? {
        OfOthersAre(ExecutedAll(t, ss[..|ss| - 1]).readings, ss[|ss| - 1].id);
      }
    }
  }

  // Each statement committed by itself.
  function ExecutedEach(db: Database, ss: seq<Statement>): Database {
    if ss == [] then db
    else var before := ExecutedEach(db, ss[..|ss| - 1]); Write(before, Executed(Visible(before), ss[|ss| - 1]))
  }

  // A batch between whose BEGIN and COMMIT these statements run, its own and others.
  function SharedBatch(db: Database, ss: seq<Statement>, ok: Faults): (Database, Outcome<()>) {
    Ended(db, ExecutedAll(db.committed, ss), ok)
  }

  function Inserts(rs: seq<Reading>): seq<Statement> { seq(|rs|, i requires 0 <= i < |rs| => InsertReading(rs[i])) }

  lemma {:induction false} InsertsOnly(t: Tables, rs: seq<Reading>)
    ensures ExecutedAll(t, Inserts(rs)) == InsertedAll(t, rs)
  {
    if rs != [] {
      assert Inserts(rs)[..|rs| - 1] == Inserts(rs[..|rs| - 1]);
      InsertsOnly(t, rs[..|rs| - 1]);
    }
  }

  lemma {:induction false} EachIsAll(db: Database, ss: seq<Statement>)
    ensures ExecutedEach(db, ss) == Write(db, ExecutedAll(Visible(db), ss))
  {
    if ss != [] {
      EachIsAll(db, ss[..|ss| - 1]);
    }
  }

  lemma {:induction false} InsertedDeviceStays(t: Tables, ss: seq<Statement>, id: string)
    requires DeleteDevice(id) !in ss
    ensures id in ExecutedAll(t, ss).devices <==> id in t.devices || InsertDevice(id) in ss
  {
    if ss != [] {
      assert ss == ss[..|ss| - 1] + [ss[|ss| - 1]];
      InsertedDeviceStays(t, ss[..|ss| - 1], id);
    }
  }

  // With the statements of others in between, a batch that commits still leaves what all of
  // them leave one by one; one that fails takes the others' statements back with its own. So
  // a device added in between, with success reported, is stored iff the batch commits.
  lemma {:induction false} SharedBatchIff(db: Database, rs: seq<Reading>, ss: seq<Statement>, id: string, ok: Faults)
    requires db.tx.None? && ok.begin && ok.prepare
    ensures rs != [] ==> BatchResult(db, rs, ok) == SharedBatch(db, Inserts(rs), ok)
    ensures ok.commit ==> SharedBatch(db, ss, ok).0 == ExecutedEach(db, ss)
    ensures !ok.commit ==> SharedBatch(db, ss, ok).0.committed == db.committed
    ensures InsertDevice(id) in ss && DeleteDevice(id) !in ss && id !in db.committed.devices ==>
      (id in SharedBatch(db, ss, ok).0.committed.devices <==> ok.commit)
  {
    InsertsOnly(db.committed, rs);
    EachIsAll(db, ss);
    if DeleteDevice(id) !in ss {
      InsertedDeviceStays(db.committed, ss, id);
    }
  }

  // ── The repository object ──────────────────────────────────────────────────

  class SqliteSensorRepository {
    var conn: Database

    constructor (conn: Database)
      ensures this.conn == conn
    {
      this.conn := conn;
    }

    method Add(reading: Reading, prepared: bool) returns (outcome: Outcome<()>)
      modifies this
      ensures (conn, outcome) == AddResult(old(conn), reading, prepared)
    {
      if !prepared {
        return Threw;
      }
      if reading.deviceId in Visible(conn).devices {
        var t := Visible(conn);
        conn := Write(conn, t.(readings := t.readings + [ToRow(reading)]));
      }
      return Returned(Ok(()));
    }

    method AddBatch(readings: seq<Reading>, ok: Faults) returns (outcome: Outcome<()>)
      modifies this
      ensures (conn, outcome) == BatchResult(old(conn), readings, ok)
    {
      if readings == [] {
        return Returned(Ok(()));
      }
      if conn.tx.Some? || !ok.begin {
        return Returned(Err(DatabaseError));
      }
      conn := conn.(tx := Some(conn.committed));
      if !ok.prepare {
        return Threw;
      }
      for i := 0 to |readings|
        invariant conn == Connection(old(conn).committed, Some(InsertedAll(old(conn).committed, readings[..i])))
      {
        assert readings[..i + 1][..i] == readings[..i];
        if readings[i].deviceId in conn.tx.value.devices {
          var t := conn.tx.value;
          conn := conn.(tx := Some(t.(readings := t.readings + [ToRow(readings[i])])));
        }
      }
      assert readings[..|readings|] == readings;
      if !ok.commit {
        if ok.rollback {
          conn := conn.(tx := None);
        }
        return Returned(Err(DatabaseError));
      }
      conn := Connection(conn.tx.value, None);
      return Returned(Ok(()));
    }

    // The text that Query builds.
    method BuildSql(opts: Options) returns (sql: string)
      ensures sql == SqlText(SelectOf(opts))
    {
      hide Names;
      NamesAre();
      sql := "SELECT "
        + ("device_id" + ", " + "sensor_type" + ", " + "value" + ", " + "unit" + ", " + "timestamp_ms" + ", " + "quality")
        + (" FROM sensor_readings " + "WHERE ");
      sql := sql + ("device_id" + " = ?");
      ghost var cs := [DEVICE_IS];
      assert sql == WhereText(cs);
      ghost var before := cs;
      if opts.sensorType != "" {
        sql, cs := sql + " AND " + ("sensor_type" + " = ?"), cs + [TYPE_IS];
        assert cs[..|cs| - 1] == before && sql == WhereText(cs);
      }
      before := cs;
      if ToUnixMs(opts.from) > 0 {
        sql, cs := sql + " AND " + ("timestamp_ms" + " >= ?"), cs + [SINCE];
        assert cs[..|cs| - 1] == before && sql == WhereText(cs);
      }
      before := cs;
      if ToUnixMs(opts.to) > 0 {
        sql, cs := sql + " AND " + ("timestamp_ms" + " <= ?"), cs + [UNTIL];
        assert cs[..|cs| - 1] == before && sql == WhereText(cs);
      }
      sql := sql + (" ORDER BY " + "timestamp_ms" + " DESC" + " LIMIT ?;");
      assert cs == ClausesOf(opts);
    }

    // Binding by running index; an index without a placeholder would have no effect.
    method BindParams(opts: Options, count: nat) returns (params: seq<Value>)
      requires count == |ClausesOf(opts)| + 1
      ensures params == ParamsOf(opts)
    {
      params := seq(count, _ => NullValue);
      var paramIdx := 1;
      params := Bound(params, paramIdx, TextValue(opts.deviceId));
      paramIdx := paramIdx + 1;
      if opts.sensorType != "" {
        params := Bound(params, paramIdx, TextValue(opts.sensorType));
        paramIdx := paramIdx + 1;
      }
      if ToUnixMs(opts.from) > 0 {
        params := Bound(params, paramIdx, IntValue(ToUnixMs(opts.from)));
        paramIdx := paramIdx + 1;
      }
      if ToUnixMs(opts.to) > 0 {
        params := Bound(params, paramIdx, IntValue(ToUnixMs(opts.to)));
        paramIdx := paramIdx + 1;
      }
      params := Bound(params, paramIdx, IntValue(ToInt64(opts.limit)));
    }

    // Query, given the rows that stepping through its statement yields, column by column.
    method Query(opts: Options, cursor: seq<seq<Value>>) returns (sql: string, params: seq<Value>, result: seq<Reading>)
      requires opts.limit < INT64 && MayAnswer(Visible(conn).readings, SqlText(SelectOf(opts)), ParamsOf(opts), cursor)
      ensures sql == SqlText(SelectOf(opts)) && params == ParamsOf(opts) && Marks(sql) == |params|
      ensures |result| == |cursor|
      ensures opts.limit < INT64 / 2 || |Visible(conn).readings| <= opts.limit ==>
        exists rows :: Newest(opts, Visible(conn).readings, rows) && result == ReadingsOf(rows)
    {
      hide SqlText, ParamsOf, SelectOf, MayAnswer, Newest;
      sql := BuildSql(opts);
      PlaceholderCount(ClausesOf(opts));
      assert SelectOf(opts) == Select(ClausesOf(opts), true) by { SelectIs(opts); }
      ParamsLineUp(opts);
      params := BindParams(opts, Marks(sql));
      CellsOfAnswer(Visible(conn).readings, SqlText(SelectOf(opts)), params, cursor);
      result := [];
      for i := 0 to |cursor|
        invariant |result| == i && forall j | 0 <= j < i :: result[j] == RowToReading(cursor[j])
      {
        result := result + [RowToReading(cursor[i])];
      }
      if opts.limit < INT64 / 2 || |Visible(conn).readings| <= opts.limit {
        TextMeansNewest(opts, Visible(conn).readings, cursor);
        ghost var rows :| Newest(opts, Visible(conn).readings, rows) && cursor == AllCells(rows);
        ReadingsAre(rows);
        assert result == ReadingsOf(rows);
      }
    }
  }
}
