// The schema migration runner under failures and crashes
// (src/database/migration_manager.cpp).
module Migration {
  import opened Common
  import opened Sqlite

  datatype Migration = Migration(version: int, description: string, sql: string)

  // The scripts that took effect, in order, and the rows of schema_version.
  datatype Schema = Schema(applied: seq<string>, versions: seq<int>)

  type Database = Connection<Schema>

  // What can befall the attempt to apply one migration.
  datatype Fault =
    | NoFault
    | BeginFails
    | SqlFails(left: Option<Schema>)   // Some(t): ROLLBACK fails too, and t stays in the open transaction
    | InsertThrows                     // preparing the version insert throws
    | InsertFails                      // the version insert fails: its result is ignored
    | CommitFails(rolledBack: bool)
    | DiesInTransaction
    | DiesAfterCommit

  // What can befall the query for the current version.
  datatype Read =
    | ReadOk
    | ReadFails     // stepping fails: its result is taken for that of an empty table
    | ReadThrows    // preparing it throws, as when creating the table has failed

  datatype Outcome = Done | Failed(error: Error) | Thrown | Died

  // SELECT MAX(version), or 0 without a row.
  function MaxVersion(versions: seq<int>): int {
    if versions == [] then 0
    else if |versions| == 1 then versions[0]
    else
      var m := MaxVersion(versions[..|versions| - 1]);
      if versions[|versions| - 1] > m then versions[|versions| - 1] else m
  }

  // CurrentVersion: None when it throws.
  function Current(db: Database, read: Read): Option<int> {
    match read
    case ReadOk => Some(MaxVersion(Visible(db).versions))
    case ReadFails => Some(0)
    case ReadThrows => None
  }

  function AppliedTo(s: Schema, m: Migration, recorded: bool): Schema {
    Schema(s.applied + [m.sql], if recorded then s.versions + [m.version] else s.versions)
  }

  // One pass through the loop body; BEGIN fails inside an open transaction.
  function Attempt(db: Database, m: Migration, fault: Fault): (Database, Outcome) {
    var next := AppliedTo(db.committed, m, fault != InsertFails);
    if db.tx.Some? then (db, Failed(DatabaseError)) else
    match fault
    case BeginFails => (db, Failed(DatabaseError))
    case SqlFails(left) => (db.(tx := left), Failed(DatabaseError))
    case InsertThrows => (db.(tx := Some(AppliedTo(db.committed, m, false))), Thrown)
    case CommitFails(rolledBack) => (if rolledBack then db else db.(tx := Some(next)), Failed(DatabaseError))
    case DiesInTransaction => (db, Died)
    case DiesAfterCommit => (Connection(next, None), Died)
    case _ => (Connection(next, None), Done)
  }

  function First(faults: seq<Fault>): Fault { if faults == [] then NoFault else faults[0] }

  function Rest(faults: seq<Fault>): seq<Fault> { if faults == [] then [] else faults[1..] }

  // The loop over the migrations not yet seen; each pending one meets the next fault.
  function RunFrom(db: Database, ms: seq<Migration>, current: int, faults: seq<Fault>): (Database, Outcome)
    decreases |ms|
  {
    if ms == [] then (db, Done)
    else if ms[0].version <= current then RunFrom(db, ms[1..], current, faults)
    else
      var (next, outcome) := Attempt(db, ms[0], First(faults));
      if outcome == Done then RunFrom(next, ms[1..], current, Rest(faults)) else (next, outcome)
  }

  function MigrateResult(db: Database, ms: seq<Migration>, read: Read, faults: seq<Fault>): (Database, Outcome) {
    match Current(db, read)
    case None => (db, Thrown)
    case Some(current) => RunFrom(db, ms, current, faults)
  }

  // How many applied migrations went unrecorded because their insert failed.
  function LostFrom(db: Database, ms: seq<Migration>, current: int, faults: seq<Fault>): nat
    decreases |ms|
  {
    if ms == [] then 0
    else if ms[0].version <= current then LostFrom(db, ms[1..], current, faults)
    else
      var (next, outcome) := Attempt(db, ms[0], First(faults));
      var lost := if First(faults) == InsertFails && db.tx.None? then 1 else 0;
      lost + (if outcome == Done then LostFrom(next, ms[1..], current, Rest(faults)) else 0)
  }

  function Lost(db: Database, ms: seq<Migration>, read: Read, faults: seq<Fault>): nat {
    match Current(db, read)
    case None => 0
    case Some(current) => LostFrom(db, ms, current, faults)
  }

  predicate Commits(f: Fault) { f.NoFault? || f.InsertFails? || f.DiesAfterCommit? }

  // A failed read starts over from the first migration, and that one is committed.
  predicate Repeats(db: Database, read: Read, faults: seq<Fault>) {
    read == ReadFails && db.tx == None && db.committed.versions != [] && Commits(First(faults))
  }

  // What the ignored results have to spare: no version insert failed, no migration was
  // started over.
  predicate Intact(db: Database, ms: seq<Migration>, read: Read, faults: seq<Fault>) {
    Lost(db, ms, read, faults) == 0 && !Repeats(db, read, faults)
  }

  // ── What the runner promises ───────────────────────────────────────────────

  // Register is to be called in ascending version order; versions start at 1.
  predicate Ascending(ms: seq<Migration>) {
    && (forall i | 0 <= i < |ms| :: ms[i].version > 0)
    && (forall i, j | 0 <= i < j < |ms| :: ms[i].version < ms[j].version)
  }

  // The first n migrations applied and recorded, once each and in order.
  function Prefix(ms: seq<Migration>, n: nat): Schema
    requires n <= |ms|
  {
    Schema(seq(n, i requires 0 <= i < |ms| => ms[i].sql), seq(n, i requires 0 <= i < |ms| => ms[i].version))
  }

  ghost predicate IsPrefix(ms: seq<Migration>, s: Schema) {
    exists n: nat :: n <= |ms| && s == Prefix(ms, n)
  }

  lemma {:induction false} MaxOfPrefix(ms: seq<Migration>, n: nat)
    requires Ascending(ms) && n <= |ms|
    ensures MaxVersion(Prefix(ms, n).versions) == if n == 0 then 0 else ms[n - 1].version
  {
    if n > 1 {
      var vs := Prefix(ms, n).versions;
      assert vs[..n - 1] == Prefix(ms, n - 1).versions;
      MaxOfPrefix(ms, n - 1);
    }
  }

  lemma {:induction false} PrefixGrows(ms: seq<Migration>, n: nat)
    requires n < |ms|
    ensures AppliedTo(Prefix(ms, n), ms[n], true) == Prefix(ms, n + 1)
  {
    assert Prefix(ms, n).applied + [ms[n].sql] == Prefix(ms, n + 1).applied;
    assert Prefix(ms, n).versions + [ms[n].version] == Prefix(ms, n + 1).versions;
  }

  // From position k of the loop on, when the first n migrations were recorded at the start.
  lemma {:induction false} LoopKeepsPrefix(db: Database, ms: seq<Migration>, n: nat, k: nat, faults: seq<Fault>)
    returns (m: nat)
    requires Ascending(ms) && n <= |ms| && k <= |ms|
    requires db == Connection(Prefix(ms, if k < n then n else k), None)
    requires LostFrom(db, ms[k..], MaxVersion(Prefix(ms, n).versions), faults) == 0
    ensures var (next, outcome) := RunFrom(db, ms[k..], MaxVersion(Prefix(ms, n).versions), faults);
      && n <= m <= |ms| && next.committed == Prefix(ms, m)
      && (outcome == Done ==> m == |ms| && next.tx == None)
    decreases |ms| - k
  {
    MaxOfPrefix(ms, n);
    if k == |ms| {
      return k;
    }
    assert ms[k..][0] == ms[k] && ms[k..][1..] == ms[k + 1..];
    if k < n {
      m := LoopKeepsPrefix(db, ms, n, k + 1, faults);
    } else {
      PrefixGrows(ms, k);
      var (next, outcome) := Attempt(db, ms[k], First(faults));
      if outcome == Done {
        m := LoopKeepsPrefix(next, ms, n, k + 1, Rest(faults));
      } else {
        m := if next.committed == db.committed then k else k + 1;
      }
    }
  }

  // Inside a transaction left open by a failed ROLLBACK nothing more is changed.
  lemma {:induction false} OpenTransactionIsKept(db: Database, ms: seq<Migration>, current: int, faults: seq<Fault>)
    requires db.tx.Some?
    ensures RunFrom(db, ms, current, faults).0 == db && LostFrom(db, ms, current, faults) == 0
    ensures RunFrom(db, ms, current, faults).1 ==
      if exists m :: m in ms && m.version > current then Failed(DatabaseError) else Done
  {
    if ms != [] && ms[0].version <= current {
      OpenTransactionIsKept(db, ms[1..], current, faults);
      assert ms == [ms[0]] + ms[1..];
    }
  }

  // A run on a recorded prefix, spelled out: its migrations from n on were applied up to m.
  lemma {:induction false} PrefixRun(db: Database, ms: seq<Migration>, n: nat, read: Read, faults: seq<Fault>) returns (m: nat)
    requires Ascending(ms) && n <= |ms| && db.committed == Prefix(ms, n)
    requires Intact(db, ms, read, faults)
    ensures var (next, outcome) := MigrateResult(db, ms, read, faults);
      && n <= m <= |ms| && next.committed == Prefix(ms, m)
      && (db.tx == None && outcome == Done ==> m == |ms| && next.tx == None)
  {
    m := n;
    if db.tx.Some? {
      if read != ReadThrows {
        OpenTransactionIsKept(db, ms, Current(db, read).value, faults);
      }
    } else if read == ReadOk || (read == ReadFails && n == 0) {
      assert ms[0..] == ms;
      MaxOfPrefix(ms, n);
      m := LoopKeepsPrefix(db, ms, n, 0, faults);
    }
  }

  lemma {:induction false} MigrateKeepsPrefix(db: Database, ms: seq<Migration>, read: Read, faults: seq<Fault>)
    requires Ascending(ms) && IsPrefix(ms, db.committed) && Intact(db, ms, read, faults)
    ensures IsPrefix(ms, MigrateResult(db, ms, read, faults).0.committed)
    ensures |db.committed.applied| <= |MigrateResult(db, ms, read, faults).0.committed.applied|
  {
    var n: nat :| n <= |ms| && db.committed == Prefix(ms, n);
    var m := PrefixRun(db, ms, n, read, faults);
  }

  // ── What the ignored results cost ──────────────────────────────────────────

  lemma {:induction false} RunOnlyAdds(db: Database, ms: seq<Migration>, current: int, faults: seq<Fault>)
    ensures var s, t := db.committed, RunFrom(db, ms, current, faults).0.committed;
      && s.versions <= t.versions
      && |t.applied| - |t.versions| == |s.applied| - |s.versions| + LostFrom(db, ms, current, faults)
    decreases |ms|
  {
    if ms != [] {
      if ms[0].version <= current {
        RunOnlyAdds(db, ms[1..], current, faults);
      } else {
        var (next, outcome) := Attempt(db, ms[0], First(faults));
        if outcome == Done {
          RunOnlyAdds(next, ms[1..], current, Rest(faults));
        }
      }
    }
  }

  // Every script has its own version row.
  predicate Sound(s: Schema) {
    |s.applied| <= |s.versions| && forall i, j | 0 <= i < j < |s.versions| :: s.versions[i] < s.versions[j]
  }

  lemma {:induction false} UnsoundStays(db: Database, ms: seq<Migration>, read: Read, faults: seq<Fault>)
    requires !Sound(db.committed)
    ensures !Sound(MigrateResult(db, ms, read, faults).0.committed)
  {
    if read != ReadThrows {
      RunOnlyAdds(db, ms, Current(db, read).value, faults);
    }
  }

  // Starting over gives the first migration a second row.
  lemma {:induction false} RepeatIsUnsound(db: Database, ms: seq<Migration>, faults: seq<Fault>)
    requires Ascending(ms) && IsPrefix(ms, db.committed)
    requires Repeats(db, ReadFails, faults) && First(faults) != InsertFails
    ensures !Sound(MigrateResult(db, ms, ReadFails, faults).0.committed)
  {
    var n: nat :| n <= |ms| && db.committed == Prefix(ms, n);
    var (next, outcome) := Attempt(db, ms[0], First(faults));
    if outcome == Done {
      RunOnlyAdds(next, ms[1..], 0, Rest(faults));
    }
    var after := MigrateResult(db, ms, ReadFails, faults).0.committed;
    assert next.committed.versions <= after.versions;
    assert after.versions[0] == ms[0].version == after.versions[n];
  }

  lemma {:induction false} NotIntactIsUnsound(db: Database, ms: seq<Migration>, read: Read, faults: seq<Fault>)
    requires Ascending(ms) && IsPrefix(ms, db.committed) && !Intact(db, ms, read, faults)
    ensures !Sound(MigrateResult(db, ms, read, faults).0.committed)
  {
    var n: nat :| n <= |ms| && db.committed == Prefix(ms, n);
    if Repeats(db, read, faults) && First(faults) != InsertFails {
      RepeatIsUnsound(db, ms, faults);
    } else {
      RunOnlyAdds(db, ms, Current(db, read).value, faults);
    }
  }

  // The record matches the schema after a run iff no version insert failed in it and it did
  // not start over.
  lemma {:induction false} PrefixIffIntact(db: Database, ms: seq<Migration>, read: Read, faults: seq<Fault>)
    requires Ascending(ms) && IsPrefix(ms, db.committed)
    ensures IsPrefix(ms, MigrateResult(db, ms, read, faults).0.committed) <==> Intact(db, ms, read, faults)
  {
    if Intact(db, ms, read, faults) {
      MigrateKeepsPrefix(db, ms, read, faults);
    } else {
      NotIntactIsUnsound(db, ms, read, faults);
    }
  }

  // ── Runs ───────────────────────────────────────────────────────────────────

  // Runs of Migrate on one database, with the process restarting at will.
  datatype Event = Run(read: Read, faults: seq<Fault>) | Restart

  function Step(db: Database, ms: seq<Migration>, e: Event): Database {
    match e
    case Restart => Reopened(db)
    case Run(read, faults) => MigrateResult(db, ms, read, faults).0
  }

  function Exec(db: Database, ms: seq<Migration>, es: seq<Event>): Database
    decreases |es|
  {
    if es == [] then db else Exec(Step(db, ms, es[0]), ms, es[1..])
  }

  predicate AllIntact(db: Database, ms: seq<Migration>, es: seq<Event>)
    decreases |es|
  {
    es == []
    || ((es[0].Run? ==> Intact(db, ms, es[0].read, es[0].faults)) && AllIntact(Step(db, ms, es[0]), ms, es[1..]))
  }

  const EMPTY: Database := Connection(Schema([], []), None)

  lemma {:induction false} UnsoundForGood(db: Database, ms: seq<Migration>, es: seq<Event>)
    requires !Sound(db.committed)
    ensures !Sound(Exec(db, ms, es).committed)
    decreases |es|
  {
    if es != [] {
      if es[0].Run? {
        UnsoundStays(db, ms, es[0].read, es[0].faults);
      }
      UnsoundForGood(Step(db, ms, es[0]), ms, es[1..]);
    }
  }

  lemma {:induction false} RunsPrefixIff(db: Database, ms: seq<Migration>, es: seq<Event>)
    requires Ascending(ms) && IsPrefix(ms, db.committed)
    ensures IsPrefix(ms, Exec(db, ms, es).committed) <==> AllIntact(db, ms, es)
    decreases |es|
  {
    hide MigrateResult, Intact, Sound;
    if es != [] {
      var next := Step(db, ms, es[0]);
      if es[0].Run? && !Intact(db, ms, es[0].read, es[0].faults) {
        NotIntactIsUnsound(db, ms, es[0].read, es[0].faults);
        UnsoundForGood(next, ms, es[1..]);
        PrefixesAreSound(ms, Exec(next, ms, es[1..]).committed);
      } else {
        if es[0].Run? {
          MigrateKeepsPrefix(db, ms, es[0].read, es[0].faults);
        }
        RunsPrefixIff(next, ms, es[1..]);
      }
    }
  }

  lemma {:induction false} PrefixesAreSound(ms: seq<Migration>, s: Schema)
    requires Ascending(ms)
    ensures IsPrefix(ms, s) ==> Sound(s)
  {
  }

  // After any runs with BEGIN, SQL, COMMIT, ROLLBACK or the version query failing or the
  // process dying at any step, a prefix of the list is applied and exactly that prefix is
  // recorded, iff no run lost a version insert or started over.
  lemma {:induction false} CrashSafe(ms: seq<Migration>, es: seq<Event>)
    requires Ascending(ms)
    ensures IsPrefix(ms, Exec(EMPTY, ms, es).committed) <==> AllIntact(EMPTY, ms, es)
  {
    assert EMPTY.committed == Prefix(ms, 0);
    RunsPrefixIff(EMPTY, ms, es);
  }

  // ── Success ────────────────────────────────────────────────────────────────

  // A successful run outside a stale transaction completes the list, and every later run
  // that can read the version, whatever would befall it, succeeds without touching the
  // database.
  lemma {:induction false} SuccessCompletes(db: Database, ms: seq<Migration>, read: Read, faults: seq<Fault>, later: seq<Fault>)
    requires Ascending(ms) && IsPrefix(ms, db.committed) && db.tx == None
    requires Intact(db, ms, read, faults) && MigrateResult(db, ms, read, faults).1 == Done
    ensures MigrateResult(db, ms, read, faults).0 == Connection(Prefix(ms, |ms|), None)
    ensures MigrateResult(Connection(Prefix(ms, |ms|), None), ms, ReadOk, later)
      == (Connection(Prefix(ms, |ms|), None), Done)
  {
    var n: nat :| n <= |ms| && db.committed == Prefix(ms, n);
    var m := PrefixRun(db, ms, n, read, faults);
    assert ms[0..] == ms;
    CompletedIsKept(ms, 0, later);
  }

  lemma {:induction false} CompletedIsKept(ms: seq<Migration>, k: nat, faults: seq<Fault>)
    requires Ascending(ms) && k <= |ms|
    ensures var db := Connection(Prefix(ms, |ms|), None);
      RunFrom(db, ms[k..], MaxVersion(db.committed.versions), faults) == (db, Done)
    decreases |ms| - k
  {
    MaxOfPrefix(ms, |ms|);
    if k < |ms| {
      assert ms[k..][0] == ms[k] && ms[k..][1..] == ms[k + 1..];
      CompletedIsKept(ms, k + 1, faults);
    }
  }

  // A run that reports success has the whole list committed iff it met no open transaction
  // or the list was complete before.
  lemma {:induction false} SuccessIsCommittedIff(db: Database, ms: seq<Migration>, read: Read, faults: seq<Fault>)
    requires Ascending(ms) && IsPrefix(ms, db.committed)
    requires Intact(db, ms, read, faults) && MigrateResult(db, ms, read, faults).1 == Done
    ensures MigrateResult(db, ms, read, faults).0.committed == Prefix(ms, |ms|)
      <==> db.tx == None || db.committed == Prefix(ms, |ms|)
  {
    if db.tx == None {
      SuccessCompletes(db, ms, read, faults, []);
    } else {
      OpenTransactionIsKept(db, ms, Current(db, read).value, faults);
    }
  }

  // ── What a failed run leaves ───────────────────────────────────────────────

  function FaultAt(faults: seq<Fault>, i: nat): Fault { if i < |faults| then faults[i] else NoFault }

  // The first j pending migrations go through, the next one meets a fault that stops the run.
  predicate StopsAt(faults: seq<Fault>, j: nat) {
    && (forall i: nat | i < j :: FaultAt(faults, i) == NoFault)
    && FaultAt(faults, j) != NoFault && FaultAt(faults, j) != InsertFails
  }

  // What is left when the migration at position m meets this fault: that migration is
  // committed only if the process dies after COMMIT, and the transaction is open only if
  // ROLLBACK was not reached or failed.
  predicate LeftBy(ms: seq<Migration>, m: nat, fault: Fault, next: Database, outcome: Outcome)
    requires m < |ms|
  {
    match fault
    case BeginFails => next == Connection(Prefix(ms, m), None) && outcome == Failed(DatabaseError)
    case SqlFails(left) => next == Connection(Prefix(ms, m), left) && outcome == Failed(DatabaseError)
    case InsertThrows =>
      && next == Connection(Prefix(ms, m), Some(Schema(Prefix(ms, m + 1).applied, Prefix(ms, m).versions)))
      && outcome == Thrown
    case CommitFails(rolledBack) =>
      && next == Connection(Prefix(ms, m), if rolledBack then None else Some(Prefix(ms, m + 1)))
      && outcome == Failed(DatabaseError)
    case DiesInTransaction => next == Connection(Prefix(ms, m), None) && outcome == Died
    case DiesAfterCommit => next == Connection(Prefix(ms, m + 1), None) && outcome == Died
    case _ => false
  }

  lemma {:induction false} AttemptGoesThrough(ms: seq<Migration>, k: nat)
    requires k < |ms|
    ensures Attempt(Connection(Prefix(ms, k), None), ms[k], NoFault) == (Connection(Prefix(ms, k + 1), None), Done)
  {
    PrefixGrows(ms, k);
  }

  lemma {:induction false} AttemptStops(ms: seq<Migration>, k: nat, fault: Fault)
    requires k < |ms| && fault != NoFault && fault != InsertFails
    ensures var (next, outcome) := Attempt(Connection(Prefix(ms, k), None), ms[k], fault);
      outcome != Done && LeftBy(ms, k, fault, next, outcome)
  {
    PrefixGrows(ms, k);
    assert Prefix(ms, k).applied + [ms[k].sql] == Prefix(ms, k + 1).applied;
  }

  lemma {:induction false} LoopStops(db: Database, ms: seq<Migration>, n: nat, k: nat, j: nat, faults: seq<Fault>)
    requires Ascending(ms) && n <= |ms| && k <= |ms|
    requires db == Connection(Prefix(ms, if k < n then n else k), None)
    requires StopsAt(faults, j) && (if k < n then n else k) + j < |ms|
    ensures var (next, outcome) := RunFrom(db, ms[k..], MaxVersion(Prefix(ms, n).versions), faults);
      LeftBy(ms, (if k < n then n else k) + j, FaultAt(faults, j), next, outcome)
    decreases |ms| - k
  {
    hide Attempt, LeftBy, Prefix, MaxVersion;
    MaxOfPrefix(ms, n);
    assert ms[k..][0] == ms[k] && ms[k..][1..] == ms[k + 1..];
    if k < n {
      LoopStops(db, ms, n, k + 1, j, faults);
    } else {
      assert First(faults) == FaultAt(faults, 0);
      if j > 0 {
        AttemptGoesThrough(ms, k);
        assert FaultAt(faults, 0) == NoFault;
        assert forall i: nat :: FaultAt(Rest(faults), i) == FaultAt(faults, i + 1);
        LoopStops(Attempt(db, ms[k], NoFault).0, ms, n, k + 1, j - 1, Rest(faults));
      } else {
        AttemptStops(ms, k, First(faults));
      }
    }
  }

  // A run outside an open transaction that is stopped at its j-th pending migration has
  // committed exactly those before it, and leaves what that fault leaves.
  lemma {:induction false} RunStops(db: Database, ms: seq<Migration>, n: nat, read: Read, j: nat, faults: seq<Fault>)
    requires Ascending(ms) && n <= |ms| && db == Connection(Prefix(ms, n), None)
    requires read == ReadOk || (read == ReadFails && n == 0)
    requires StopsAt(faults, j) && n + j < |ms|
    ensures var (next, outcome) := MigrateResult(db, ms, read, faults);
      LeftBy(ms, n + j, FaultAt(faults, j), next, outcome)
  {
    assert ms[0..] == ms;
    MaxOfPrefix(ms, n);
    LoopStops(db, ms, n, 0, j, faults);
  }

  // Neither a failed ROLLBACK nor an exception, which goes without one.
  predicate LeavesNothingOpen(f: Fault) {
    f != CommitFails(false) && !(f.SqlFails? && f.left.Some?) && f != InsertThrows
  }

  lemma {:induction false} LoopStaysClosed(db: Database, ms: seq<Migration>, current: int, faults: seq<Fault>)
    requires db.tx == None && forall f | f in faults :: LeavesNothingOpen(f)
    ensures RunFrom(db, ms, current, faults).0.tx == None && RunFrom(db, ms, current, faults).1 != Thrown
    decreases |ms|
  {
    if ms != [] {
      if ms[0].version <= current {
        LoopStaysClosed(db, ms[1..], current, faults);
      } else {
        assert LeavesNothingOpen(First(faults));
        var (next, outcome) := Attempt(db, ms[0], First(faults));
        assert next.tx == None;
        if outcome == Done {
          LoopStaysClosed(next, ms[1..], current, Rest(faults));
        }
      }
    }
  }

  // When every ROLLBACK needed succeeds, a run leaves no transaction open, and a faultless
  // retry completes the list.
  lemma {:induction false} RetryCompletes(db: Database, ms: seq<Migration>, read: Read, faults: seq<Fault>)
    requires Ascending(ms) && IsPrefix(ms, db.committed) && db.tx == None
    requires Intact(db, ms, read, faults) && forall f | f in faults :: LeavesNothingOpen(f)
    ensures var next := MigrateResult(db, ms, read, faults).0;
      && next.tx == None && IsPrefix(ms, next.committed)
      && MigrateResult(next, ms, ReadOk, []) == (Connection(Prefix(ms, |ms|), None), Done)
  {
    hide Intact;
    var next := MigrateResult(db, ms, read, faults).0;
    if read != ReadThrows {
      LoopStaysClosed(db, ms, Current(db, read).value, faults);
    }
    MigrateKeepsPrefix(db, ms, read, faults);
    FaultlessMigrate(next, ms);
    SuccessCompletes(next, ms, ReadOk, [], []);
  }

  lemma {:induction false} ExecAppend(db: Database, ms: seq<Migration>, a: seq<Event>, b: seq<Event>)
    ensures Exec(db, ms, a + b) == Exec(Exec(db, ms, a), ms, b)
    decreases |a|
  {
    hide Step;
    if a == [] {
      assert a + b == b;
    } else {
      assert (a + b)[1..] == a[1..] + b;
      ExecAppend(Step(db, ms, a[0]), ms, a[1..], b);
    }
  }

  // Whatever went before, a restart and a faultless run complete the list.
  lemma {:induction false} RestartRecovers(ms: seq<Migration>, es: seq<Event>)
    requires Ascending(ms) && AllIntact(EMPTY, ms, es)
    ensures Exec(EMPTY, ms, es + [Restart, Run(ReadOk, [])]) == Connection(Prefix(ms, |ms|), None)
  {
    hide AllIntact, Intact, MigrateResult, Prefix;
    CrashSafe(ms, es);
    var db := Exec(EMPTY, ms, es);
    var last := [Restart, Run(ReadOk, [])];
    ExecAppend(EMPTY, ms, es, last);
    assert last[1..] == [Run(ReadOk, [])] && last[1..][1..] == [];
    var reopened := Step(db, ms, Restart);
    FaultlessMigrate(reopened, ms);
    SuccessCompletes(reopened, ms, ReadOk, [], []);
    assert Exec(db, ms, last) == Exec(reopened, ms, last[1..]) == Step(reopened, ms, Run(ReadOk, []));
  }

  predicate ReadsSucceed(es: seq<Event>) { forall e | e in es :: e.Run? ==> e.read != ReadFails }

  ghost predicate OpenMeansUnfinished(db: Database, ms: seq<Migration>) {
    db.tx.Some? ==> db.committed != Prefix(ms, |ms|)
  }

  lemma {:induction false} RunLeavesUnfinished(db: Database, ms: seq<Migration>, read: Read, faults: seq<Fault>)
    requires Ascending(ms) && IsPrefix(ms, db.committed) && Intact(db, ms, read, faults)
    requires read != ReadFails && OpenMeansUnfinished(db, ms)
    ensures OpenMeansUnfinished(MigrateResult(db, ms, read, faults).0, ms)
  {
    if read == ReadOk {
      if db.tx.Some? {
        OpenTransactionIsKept(db, ms, Current(db, read).value, faults);
      } else {
        var n: nat :| n <= |ms| && db.committed == Prefix(ms, n);
        assert ms[0..] == ms;
        MaxOfPrefix(ms, n);
        LoopLeavesUnfinished(db, ms, n, 0, faults);
      }
    }
  }

  lemma {:induction false} LoopLeavesUnfinished(db: Database, ms: seq<Migration>, n: nat, k: nat, faults: seq<Fault>)
    requires Ascending(ms) && n <= |ms| && k <= |ms|
    requires db == Connection(Prefix(ms, if k < n then n else k), None)
    requires LostFrom(db, ms[k..], MaxVersion(Prefix(ms, n).versions), faults) == 0
    ensures OpenMeansUnfinished(RunFrom(db, ms[k..], MaxVersion(Prefix(ms, n).versions), faults).0, ms)
    decreases |ms| - k
  {
    MaxOfPrefix(ms, n);
    if k < |ms| {
      assert ms[k..][0] == ms[k] && ms[k..][1..] == ms[k + 1..];
      if k < n {
        LoopLeavesUnfinished(db, ms, n, k + 1, faults);
      } else {
        PrefixGrows(ms, k);
        var (next, outcome) := Attempt(db, ms[k], First(faults));
        if outcome == Done {
          LoopLeavesUnfinished(next, ms, n, k + 1, Rest(faults));
        } else if next.tx.Some? {
          assert |next.committed.applied| == k;
        }
      }
    }
  }

  lemma {:induction false} RunsLeaveUnfinished(db: Database, ms: seq<Migration>, es: seq<Event>)
    requires Ascending(ms) && IsPrefix(ms, db.committed) && OpenMeansUnfinished(db, ms)
    requires AllIntact(db, ms, es) && ReadsSucceed(es)
    ensures OpenMeansUnfinished(Exec(db, ms, es), ms)
    decreases |es|
  {
    hide MigrateResult, Intact;
    if es != [] {
      assert es[0] in es;
      if es[0].Run? {
        MigrateKeepsPrefix(db, ms, es[0].read, es[0].faults);
        RunLeavesUnfinished(db, ms, es[0].read, es[0].faults);
      }
      RunsLeaveUnfinished(Step(db, ms, es[0]), ms, es[1..]);
    }
  }

  // So over runs whose version queries succeed: success means committed iff no open
  // transaction was left by the runs before.
  lemma {:induction false} SuccessAfterRunsIff(ms: seq<Migration>, es: seq<Event>, faults: seq<Fault>)
    requires Ascending(ms) && AllIntact(EMPTY, ms, es) && ReadsSucceed(es)
    requires var db := Exec(EMPTY, ms, es);
      Intact(db, ms, ReadOk, faults) && MigrateResult(db, ms, ReadOk, faults).1 == Done
    ensures var db := Exec(EMPTY, ms, es);
      MigrateResult(db, ms, ReadOk, faults).0.committed == Prefix(ms, |ms|) <==> db.tx == None
  {
    hide Intact, MigrateResult;
    assert EMPTY.committed == Prefix(ms, 0);
    CrashSafe(ms, es);
    RunsLeaveUnfinished(EMPTY, ms, es);
    SuccessIsCommittedIff(Exec(EMPTY, ms, es), ms, ReadOk, faults);
  }

  // ── Registration order ─────────────────────────────────────────────────────

  // How many migrations a run that reads `current` finds to do.
  function Pending(ms: seq<Migration>, current: int): nat {
    if ms == [] then 0
    else
      var last := |ms| - 1;
      Pending(ms[..last], current) + (if ms[last].version > current then 1 else 0)
  }

  lemma {:induction false} PendingOfPrefix(ms: seq<Migration>, k: nat, low: int, high: int)
    requires k <= |ms| && low <= high
    ensures 0 <= Pending(ms, high) - Pending(ms[..k], high) <= Pending(ms, low) - Pending(ms[..k], low) <= |ms| - k
    ensures Pending(ms[..k], high) <= Pending(ms[..k], low) <= k
  {
    if k < |ms| {
      PendingOfPrefix(ms[..|ms| - 1], k, low, high);
      assert ms[..|ms| - 1][..k] == ms[..k];
    } else {
      assert ms[..k] == ms;
      if k > 0 {
        PendingOfPrefix(ms[..k - 1], k - 1, low, high);
        assert ms[..k - 1][..k - 1] == ms[..k - 1];
      }
    }
  }

  lemma {:induction false} PendingNext(ms: seq<Migration>, k: nat, current: int)
    requires k < |ms|
    ensures Pending(ms[..k + 1], current) == Pending(ms[..k], current) + (if ms[k].version > current then 1 else 0)
  {
    assert ms[..k + 1][..k] == ms[..k];
  }

  // The scripts applied, and those that a run on these records would still find to do.
  function InReach(ms: seq<Migration>, s: Schema): nat { |s.applied| + Pending(ms, MaxVersion(s.versions)) }

  lemma {:induction false} MaxVersionGrows(versions: seq<int>, v: int)
    ensures MaxVersion(versions + [v]) == if versions == [] || v > MaxVersion(versions) then v else MaxVersion(versions)
  {
    assert (versions + [v])[..|versions|] == versions;
  }

  // At position k of a loop that read `current`, what the rest of the loop may still apply
  // counts as pending against `current`, what lies behind against the records.
  function LoopBound(s: Schema, ms: seq<Migration>, k: nat, current: int): int
    requires k <= |ms|
  {
    |s.applied| + Pending(ms[..k], MaxVersion(s.versions)) + Pending(ms, current) - Pending(ms[..k], current)
  }

  lemma {:induction false} ReachWithinBound(s: Schema, ms: seq<Migration>, k: nat, current: int)
    requires k <= |ms| && current <= MaxVersion(s.versions)
    ensures InReach(ms, s) <= LoopBound(s, ms, k, current)
  {
    PendingOfPrefix(ms, k, current, MaxVersion(s.versions));
  }

  lemma {:induction false} SkippingKeepsBound(s: Schema, ms: seq<Migration>, k: nat, current: int)
    requires k < |ms| && ms[k].version <= current <= MaxVersion(s.versions)
    ensures LoopBound(s, ms, k + 1, current) == LoopBound(s, ms, k, current)
  {
    PendingNext(ms, k, current);
    PendingNext(ms, k, MaxVersion(s.versions));
  }

  lemma {:induction false} ApplyingKeepsBound(s: Schema, ms: seq<Migration>, k: nat, current: int)
    requires k < |ms| && ms[k].version > current && current <= MaxVersion(s.versions)
    requires s.versions == [] ==> current == 0
    ensures var t := AppliedTo(s, ms[k], true);
      && current <= MaxVersion(t.versions)
      && LoopBound(t, ms, k + 1, current) <= LoopBound(s, ms, k, current)
  {
    var high, higher := MaxVersion(s.versions), MaxVersion(s.versions + [ms[k].version]);
    MaxVersionGrows(s.versions, ms[k].version);
    PendingNext(ms, k, current);
    PendingNext(ms, k, higher);
    PendingOfPrefix(ms, k, high, higher);
  }

  // A loop brings nothing new into reach.
  lemma {:induction false} LoopReach(db: Database, ms: seq<Migration>, k: nat, current: int, faults: seq<Fault>)
    requires k <= |ms| && LostFrom(db, ms[k..], current, faults) == 0
    requires current <= MaxVersion(db.committed.versions)
    requires db.committed.versions == [] ==> current == 0
    ensures InReach(ms, RunFrom(db, ms[k..], current, faults).0.committed) <= LoopBound(db.committed, ms, k, current)
    decreases |ms| - k
  {
    hide LoopBound, InReach, MaxVersion;
    ReachWithinBound(db.committed, ms, k, current);
    if k < |ms| {
      assert ms[k..][0] == ms[k] && ms[k..][1..] == ms[k + 1..];
      if ms[k].version <= current {
        SkippingKeepsBound(db.committed, ms, k, current);
        LoopReach(db, ms, k + 1, current, faults);
      } else {
        var (next, outcome) := Attempt(db, ms[k], First(faults));
        assert next.committed == db.committed || next.committed == AppliedTo(db.committed, ms[k], true);
        ApplyingKeepsBound(db.committed, ms, k, current);
        if outcome == Done {
          LoopReach(next, ms, k + 1, current, Rest(faults));
        } else if next.committed != db.committed {
          ReachWithinBound(next.committed, ms, k + 1, current);
        }
      }
    }
  }

  lemma {:induction false} RunReach(db: Database, ms: seq<Migration>, read: Read, faults: seq<Fault>)
    requires read != ReadFails && Lost(db, ms, read, faults) == 0
    ensures InReach(ms, MigrateResult(db, ms, read, faults).0.committed) <= InReach(ms, db.committed)
  {
    if read == ReadOk {
      var current := Current(db, read).value;
      if db.tx.Some? {
        OpenTransactionIsKept(db, ms, current, faults);
      } else {
        assert ms[0..] == ms;
        LoopReach(db, ms, 0, current, faults);
      }
    }
  }

  // Once less than the whole list is in reach, no runs will ever have applied it.
  lemma {:induction false} NeverCompletes(db: Database, ms: seq<Migration>, es: seq<Event>)
    requires AllIntact(db, ms, es) && ReadsSucceed(es) && InReach(ms, db.committed) < |ms|
    ensures |Exec(db, ms, es).committed.applied| < |ms|
    decreases |es|
  {
    hide MigrateResult, Lost;
    if es != [] {
      assert es[0] in es;
      if es[0].Run? {
        RunReach(db, ms, es[0].read, es[0].faults);
      }
      NeverCompletes(Step(db, ms, es[0]), ms, es[1..]);
    }
  }

  lemma {:induction false} FaultlessRun(db: Database, ms: seq<Migration>, current: int)
    requires db.tx == None
    ensures RunFrom(db, ms, current, []).1 == Done && LostFrom(db, ms, current, []) == 0
    decreases |ms|
  {
    if ms != [] {
      var next := if ms[0].version <= current then db else Attempt(db, ms[0], NoFault).0;
      FaultlessRun(next, ms[1..], current);
    }
  }

  // What an earlier release leaves that registered the first n migrations only.
  function Released(ms: seq<Migration>, n: nat): Database
    requires n <= |ms|
  {
    MigrateResult(EMPTY, ms[..n], ReadOk, []).0
  }

  lemma {:induction false} ReleasedPrefix(ms: seq<Migration>, n: nat)
    requires n <= |ms| && Ascending(ms[..n])
    ensures Released(ms, n) == Connection(Prefix(ms, n), None)
  {
    assert EMPTY.committed == Prefix(ms[..n], 0);
    FaultlessRun(EMPTY, ms[..n], 0);
    SuccessCompletes(EMPTY, ms[..n], ReadOk, [], []);
    assert Prefix(ms[..n], n) == Prefix(ms, n);
  }

  // How far a list ascends.
  lemma {:induction false} AscendsUpTo(ms: seq<Migration>, k: nat) returns (n: nat)
    requires k <= |ms| && !Ascending(ms[..k])
    ensures n < |ms| && Ascending(ms[..n])
    ensures ms[n].version <= if n == 0 then 0 else ms[n - 1].version
  {
    if Ascending(ms[..k - 1]) {
      n := k - 1;
      if ms[n].version > (if n == 0 then 0 else ms[n - 1].version) {
        assert Ascending(ms[..k]);
      }
    } else {
      n := AscendsUpTo(ms, k - 1);
    }
  }

  lemma {:induction false} OutOfReach(ms: seq<Migration>, n: nat)
    requires n < |ms| && Ascending(ms[..n])
    requires ms[n].version <= if n == 0 then 0 else ms[n - 1].version
    ensures InReach(ms, Prefix(ms, n)) < |ms|
  {
    assert Prefix(ms[..n], n) == Prefix(ms, n);
    MaxOfPrefix(ms[..n], n);
    var current := MaxVersion(Prefix(ms, n).versions);
    NonePending(ms[..n + 1], current);
    PendingOfPrefix(ms, n + 1, current, current);
  }

  // Not in ascending order, or with a version below 1, some release n exists after which
  // the list is never completed, whatever runs follow that read the version and record what
  // they apply.
  lemma {:induction false} SkippedForGood(ms: seq<Migration>) returns (n: nat)
    requires !Ascending(ms)
    ensures n < |ms|
    ensures forall es | AllIntact(Released(ms, n), ms, es) && ReadsSucceed(es) ::
      |Exec(Released(ms, n), ms, es).committed.applied| < |ms|
  {
    hide Exec, AllIntact, Released, InReach;
    assert ms[..|ms|] == ms;
    n := AscendsUpTo(ms, |ms|);
    ReleasedPrefix(ms, n);
    var db := Released(ms, n);
    OutOfReach(ms, n);
    forall es | AllIntact(db, ms, es) && ReadsSucceed(es) ensures |Exec(db, ms, es).committed.applied| < |ms| {
      NeverCompletes(db, ms, es);
    }
  }

  lemma {:induction false} NonePending(ms: seq<Migration>, current: int)
    requires forall i | 0 <= i < |ms| :: ms[i].version <= current
    ensures Pending(ms, current) == 0
  {
    if ms != [] {
      NonePending(ms[..|ms| - 1], current);
    }
  }

  // A list may be released in any two parts and still be applied once each in order iff it
  // is ascending from 1 on.
  lemma {:induction false} CompletesIffAscending(ms: seq<Migration>)
    ensures (forall n: nat | n <= |ms| ::
        MigrateResult(Released(ms, n), ms, ReadOk, []).0.committed == Prefix(ms, |ms|)) <==> Ascending(ms)
  {
    hide MigrateResult, Released;
    if Ascending(ms) {
      forall n: nat | n <= |ms|
        ensures MigrateResult(Released(ms, n), ms, ReadOk, []).0.committed == Prefix(ms, |ms|)
      {
        ReleasedPrefix(ms, n);
        FaultlessMigrate(Released(ms, n), ms);
        SuccessCompletes(Released(ms, n), ms, ReadOk, [], []);
      }
    } else {
      var n := SkippedForGood(ms);
      var es := [Run(ReadOk, [])];
      FaultlessMigrate(Released(ms, n), ms);
      assert es[1..] == [];
      assert Exec(Released(ms, n), ms, es) == Step(Released(ms, n), ms, es[0]);
      assert |Prefix(ms, |ms|).applied| == |ms|;
    }
  }

  lemma {:induction false} FaultlessMigrate(db: Database, ms: seq<Migration>)
    ensures db.tx == None ==> MigrateResult(db, ms, ReadOk, []).1 == Done
    ensures Intact(db, ms, ReadOk, [])
  {
    var current := Current(db, ReadOk).value;
    if db.tx == None {
      FaultlessRun(db, ms, current);
    } else {
      OpenTransactionIsKept(db, ms, current, []);
    }
  }

  // ── Witnesses ──────────────────────────────────────────────────────────────

  // With the insert of its version lost, a migration is applied again by the next run.
  lemma {:induction false} LostInsertAppliesTwice(m: Migration)
    requires m.version > 0
    ensures Exec(EMPTY, [m], [Run(ReadOk, [InsertFails]), Run(ReadOk, [])]).committed
      == Schema([m.sql, m.sql], [m.version])
  {
    var db := Connection(Schema([m.sql], []), None);
    assert [] + [m.sql] == [m.sql] && [] + [m.version] == [m.version] && [m.sql] + [m.sql] == [m.sql, m.sql];
    assert RunFrom(EMPTY, [m], 0, [InsertFails]) == (db, Done);
    assert RunFrom(db, [m], 0, []) == (Connection(Schema([m.sql, m.sql], [m.version]), None), Done);
    var es := [Run(ReadOk, [InsertFails]), Run(ReadOk, [])];
    assert es[1..] == [Run(ReadOk, [])];
    assert Exec(db, [m], [Run(ReadOk, [])]) == Step(db, [m], Run(ReadOk, []));
  }

  // With the read of the version failed, a recorded migration is applied and recorded again.
  lemma {:induction false} FailedReadAppliesTwice(m: Migration)
    requires m.version > 0
    ensures MigrateResult(Released([m], 1), [m], ReadFails, [])
      == (Connection(Schema([m.sql, m.sql], [m.version, m.version]), None), Done)
  {
    var db := Connection(Schema([m.sql], [m.version]), None);
    assert [] + [m.sql] == [m.sql] && [] + [m.version] == [m.version];
    assert [m.sql] + [m.sql] == [m.sql, m.sql] && [m.version] + [m.version] == [m.version, m.version];
    assert [m][..1] == [m];
    assert RunFrom(EMPTY, [m], 0, []) == (db, Done);
    var twice := Connection(Schema([m.sql, m.sql], [m.version, m.version]), None);
    assert Attempt(db, m, NoFault) == (twice, Done) && [m][1..] == [];
    assert RunFrom(twice, [], 0, []) == (twice, Done);
    assert RunFrom(db, [m], 0, []) == (twice, Done);
  }

  // A stale transaction: after COMMIT and ROLLBACK both failed, the next run sees its own
  // uncommitted version and reports success.
  lemma {:induction false} StaleTransactionHidesFailure(m: Migration, later: seq<Fault>)
    requires m.version > 0
    ensures var db := MigrateResult(EMPTY, [m], ReadOk, [CommitFails(false)]).0;
      MigrateResult(db, [m], ReadOk, later) == (db, Done) && Reopened(db) == EMPTY
  {
    var open := Connection(Schema([], []), Some(Schema([m.sql], [m.version])));
    assert [] + [m.sql] == [m.sql] && [] + [m.version] == [m.version];
    assert RunFrom(EMPTY, [m], 0, [CommitFails(false)]) == (open, Failed(DatabaseError));
    assert RunFrom(open, [m], m.version, later) == (open, Done);
  }

  // Out of ascending order, a list applied whole in one release loses a migration in two.
  lemma {:induction false} DescendingIsSkipped(late: Migration, early: Migration)
    requires late.version >= early.version > 0
    ensures Released([late, early], 2).committed == Schema([late.sql, early.sql], [late.version, early.version])
    ensures MigrateResult(Released([late, early], 1), [late, early], ReadOk, []).0.committed
      == Schema([late.sql], [late.version])
  {
    var one := Connection(Schema([late.sql], [late.version]), None);
    assert [] + [late.sql] == [late.sql] && [] + [late.version] == [late.version];
    assert [late.sql] + [early.sql] == [late.sql, early.sql];
    assert [late, early][..1] == [late] && [late, early][..2] == [late, early];
    assert RunFrom(EMPTY, [late], 0, []) == (one, Done);
    assert [late, early][1..] == [early];
    assert RunFrom(one, [early], 0, []).0.committed == Schema([late.sql, early.sql], [late.version, early.version]);
    assert RunFrom(one, [early], late.version, []) == (one, Done);
  }

  // ── The runner object ──────────────────────────────────────────────────────

  class MigrationManager {
    var conn: Database
    var migrations: seq<Migration>

    constructor (conn: Database)
      ensures this.conn == conn && migrations == []
    {
      this.conn, migrations := conn, [];
    }

    method Register(migration: Migration)
      modifies this`migrations
      ensures migrations == old(migrations) + [migration]
    {
      migrations := migrations + [migration];
    }

    // None when preparing the query throws.
    method CurrentVersion(read: Read) returns (version: Option<int>)
      ensures version == Current(conn, read)
    {
      if read == ReadThrows {
        return None;
      }
      if read == ReadOk && Visible(conn).versions != [] {
        return Some(MaxVersion(Visible(conn).versions));
      }
      return Some(0);
    }

    method Migrate(read: Read, faults: seq<Fault>) returns (outcome: Outcome)
      modifies this`conn
      ensures (conn, outcome) == MigrateResult(old(conn), migrations, read, faults)
      ensures read == ReadThrows ==> outcome == Thrown && conn == old(conn)
    {
      var version := CurrentVersion(read);
      if version.None? {
        return Thrown;
      }
      var current := version.value;
      ghost var goal := RunFrom(conn, migrations, current, faults);
      var pending := faults;
      assert migrations[0..] == migrations;
      outcome := Done;
      for i := 0 to |migrations|
        invariant RunFrom(conn, migrations[i..], current, pending) == goal && outcome == Done
      {
        var migration := migrations[i];
        assert migrations[i..][0] == migration && migrations[i..][1..] == migrations[i + 1..];
        if migration.version <= current {
          continue;
        }
        var fault := First(pending);
        pending := Rest(pending);
        if conn.tx.Some? || fault.BeginFails? {
          return Failed(DatabaseError);
        }
        ghost var before := conn;
        conn := conn.(tx := Some(conn.committed));
        if fault.SqlFails? {
          conn := conn.(tx := fault.left);
          return Failed(DatabaseError);
        }
        conn := conn.(tx := Some(AppliedTo(conn.tx.value, migration, false)));
        if fault.InsertThrows? {
          return Thrown;
        }
        if !fault.InsertFails? {
          conn := conn.(tx := Some(conn.tx.value.(versions := conn.tx.value.versions + [migration.version])));
        }
        if fault.DiesInTransaction? {
          conn := Reopened(conn);
          return Died;
        }
        if fault.CommitFails? {
          if fault.rolledBack {
            conn := conn.(tx := None);
          }
          return Failed(DatabaseError);
        }
        conn := Connection(conn.tx.value, None);
        if fault.DiesAfterCommit? {
          return Died;
        }
        assert Attempt(before, migration, fault) == (conn, Done);
      }
    }
  }
}
