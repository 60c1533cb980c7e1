/** The PDPA data-retention job: five tables are purged of rows older than their retention
    period, an "expiring" count looks 30 days ahead, and a manual run can be a dry run that
    only reports. Times are milliseconds; a day is 86 400 000 ms. */
module DataRetention {

  const DayMs: int := 86_400_000
  const WarningDays: int := 30

  /** The tables the job purges, in the order it purges them. */
  datatype Table = Journals | Evidence | AuditLogs | AiActivities | Assessments

  /** A stored row; `isReviewed` is only read for AI activities. */
  datatype Row = Row(id: string, createdAt: int, isReviewed: bool)

  /** `RETENTION_PERIODS`, in days. */
  function RetentionDays(t: Table): (d: nat)
    ensures d >= 365 && d % 365 == 0
  {
    match t
    case Journals => 5 * 365
    case Evidence => 5 * 365
    case AuditLogs => 3 * 365
    case AiActivities => 1 * 365
    case Assessments => 7 * 365
  }

  /** The deletion cutoff: `now` moved back by the table's retention. */
  function Cutoff(t: Table, now: int): int {
    now - RetentionDays(t) * DayMs
  }

  /** The warning cutoff: `now` moved back by the retention less 30 days. */
  function WarningCutoff(t: Table, now: int): int {
    now - (RetentionDays(t) - WarningDays) * DayMs
  }

  /** The `where` of both the delete and the count: older than the cutoff, and for AI activities
      also reviewed. */
  predicate Selected(t: Table, r: Row, cutoff: int) {
    r.createdAt < cutoff && (t == AiActivities ==> r.isReviewed)
  }

  /** The rows a `deleteMany` leaves, in their order. */
  function Remaining(t: Table, rows: seq<Row>, cutoff: int): (r: seq<Row>)
    ensures |r| <= |rows|
    ensures forall x :: x in r <==> x in rows && !Selected(t, x, cutoff)
  {
    if rows == [] then []
    else
      var rest := Remaining(t, rows[..|rows| - 1], cutoff);
      var last := rows[|rows| - 1];
      assert rows == rows[..|rows| - 1] + [last];
      if Selected(t, last, cutoff) then rest else rest + [last]
  }

  /** The number of rows a `count` with the same `where` reports. */
  function CountSelected(t: Table, rows: seq<Row>, cutoff: int): nat {
    if rows == [] then 0
    else CountSelected(t, rows[..|rows| - 1], cutoff) + (if Selected(t, rows[|rows| - 1], cutoff) then 1 else 0)
  }

  /** A delete removes exactly the rows a count with the same cutoff reports. */
  lemma {:induction false} RemainingCount(t: Table, rows: seq<Row>, cutoff: int)
    ensures |Remaining(t, rows, cutoff)| + CountSelected(t, rows, cutoff) == |rows|
  {
    if rows != [] {
      RemainingCount(t, rows[..|rows| - 1], cutoff);
    }
  }

  /** A later cutoff selects at least as many rows. */
  lemma {:induction false} CountMonotone(t: Table, rows: seq<Row>, early: int, late: int)
    requires early <= late
    ensures CountSelected(t, rows, early) <= CountSelected(t, rows, late)
  {
    if rows != [] {
      CountMonotone(t, rows[..|rows| - 1], early, late);
    }
  }

  /** The warning cutoff lies 30 days after the deletion cutoff. */
  lemma WarningAfterCutoff(t: Table, now: int)
    ensures WarningCutoff(t, now) == Cutoff(t, now) + WarningDays * DayMs
  {
  }

  /** Per-table figures, as in `results` and `warnings`. */
  datatype Counts = Counts(journals: nat, evidence: nat, auditLogs: nat, aiActivities: nat, assessments: nat)

  function Of(c: Counts, t: Table): nat {
    match t
    case Journals => c.journals
    case Evidence => c.evidence
    case AuditLogs => c.auditLogs
    case AiActivities => c.aiActivities
    case Assessments => c.assessments
  }

  /** `Object.values(results).reduce((a, b) => a + b, 0)`. */
  function Total(c: Counts): nat {
    c.journals + c.evidence + c.auditLogs + c.aiActivities + c.assessments
  }

  /** The database: every table is present. */
  ghost predicate Complete(db: map<Table, seq<Row>>) {
    forall t: Table :: t in db
  }

  /** The counts `cleanupExpiredData` reports for a database. */
  function DeletedCounts(db: map<Table, seq<Row>>, now: int): Counts
    requires Complete(db)
  {
    Counts(CountSelected(Journals, db[Journals], Cutoff(Journals, now)),
           CountSelected(Evidence, db[Evidence], Cutoff(Evidence, now)),
           CountSelected(AuditLogs, db[AuditLogs], Cutoff(AuditLogs, now)),
           CountSelected(AiActivities, db[AiActivities], Cutoff(AiActivities, now)),
           CountSelected(Assessments, db[Assessments], Cutoff(Assessments, now)))
  }

  /** The counts `checkExpiringData` reports for a database. */
  function ExpiringCounts(db: map<Table, seq<Row>>, now: int): Counts
    requires Complete(db)
  {
    Counts(CountSelected(Journals, db[Journals], WarningCutoff(Journals, now)),
           CountSelected(Evidence, db[Evidence], WarningCutoff(Evidence, now)),
           CountSelected(AuditLogs, db[AuditLogs], WarningCutoff(AuditLogs, now)),
           CountSelected(AiActivities, db[AiActivities], WarningCutoff(AiActivities, now)),
           CountSelected(Assessments, db[Assessments], WarningCutoff(Assessments, now)))
  }

  /** Every row deletable now is also counted as expiring, table by table. */
  lemma ExpiringCoversDeleted(db: map<Table, seq<Row>>, now: int)
    requires Complete(db)
    ensures forall t: Table :: Of(DeletedCounts(db, now), t) <= Of(ExpiringCounts(db, now), t)
    ensures Total(DeletedCounts(db, now)) <= Total(ExpiringCounts(db, now))
  {
    forall t: Table
      ensures CountSelected(t, db[t], Cutoff(t, now)) <= CountSelected(t, db[t], WarningCutoff(t, now))
    {
      CountMonotone(t, db[t], Cutoff(t, now), WarningCutoff(t, now));
    }
  }

  /** The number of rows over all tables. */
  function Size(db: map<Table, seq<Row>>): nat
    requires Complete(db)
  {
    |db[Journals]| + |db[Evidence]| + |db[AuditLogs]| + |db[AiActivities]| + |db[Assessments]|
  }

  /** The outcome of `manualCleanup`. */
  datatype Outcome = DryRun(wouldDelete: Counts) | Cleaned(deleted: Counts, total: nat)

  class RetentionStore {
    var db: map<Table, seq<Row>>

    ghost predicate Valid()
      reads this
    {
      Complete(db)
    }

    constructor (initial: map<Table, seq<Row>>)
      requires Complete(initial)
      ensures Valid() && db == initial
    {
      db := initial;
    }

    /** `deleteMany` on one table with `createdAt < cutoff` (and `isReviewed` for AI activities). */
    method DeleteMany(t: Table, cutoff: int) returns (count: nat)
      requires Valid()
      modifies this
      ensures Valid()
      ensures db == old(db)[t := Remaining(t, old(db)[t], cutoff)]
      ensures count == CountSelected(t, old(db)[t], cutoff) == |old(db)[t]| - |db[t]|
    {
      RemainingCount(t, db[t], cutoff);
      var before := |db[t]|;
      db := db[t := Remaining(t, db[t], cutoff)];
      count := before - |db[t]|;
    }

    /** `cleanupExpiredData`: the five tables purged one after the other, each with its own cutoff;
        the total is the number of rows deleted. */
    method CleanupExpiredData(now: int) returns (results: Counts, total: nat)
      requires Valid()
      modifies this
      ensures Valid()
      ensures forall t: Table :: db[t] == Remaining(t, old(db)[t], Cutoff(t, now))
      ensures results == DeletedCounts(old(db), now)
      ensures total == Total(results) == Size(old(db)) - Size(db)
    {
      ghost var start := db;
      var journals := DeleteMany(Journals, Cutoff(Journals, now));
      ghost var d1 := db;
      var evidence := DeleteMany(Evidence, Cutoff(Evidence, now));
      ghost var d2 := db;
      var auditLogs := DeleteMany(AuditLogs, Cutoff(AuditLogs, now));
      ghost var d3 := db;
      var aiActivities := DeleteMany(AiActivities, Cutoff(AiActivities, now));
      ghost var d4 := db;
      var assessments := DeleteMany(Assessments, Cutoff(Assessments, now));
      results := Counts(journals, evidence, auditLogs, aiActivities, assessments);
      total := Total(results);
      assert db[Journals] == d4[Journals] == d3[Journals] == d2[Journals] == d1[Journals];
      assert db[Evidence] == d4[Evidence] == d3[Evidence] == d2[Evidence];
      assert db[AuditLogs] == d4[AuditLogs] == d3[AuditLogs];
      assert db[AiActivities] == d4[AiActivities];
      assert d1[Evidence] == start[Evidence] && d2[AuditLogs] == start[AuditLogs];
      assert d3[AiActivities] == start[AiActivities] && d4[Assessments] == start[Assessments];
      forall t: Table
        ensures db[t] == Remaining(t, start[t], Cutoff(t, now))
      {
        match t
        case Journals =>
        case Evidence =>
        case AuditLogs =>
        case AiActivities =>
        case Assessments =>
      }
    }

    /** `checkExpiringData`: the same counts with the warning cutoffs; nothing is deleted. */
    method CheckExpiringData(now: int) returns (warnings: Counts)
      requires Valid()
      ensures warnings == ExpiringCounts(db, now)
    {
      var journals := CountSelected(Journals, db[Journals], WarningCutoff(Journals, now));
      var evidence := CountSelected(Evidence, db[Evidence], WarningCutoff(Evidence, now));
      var auditLogs := CountSelected(AuditLogs, db[AuditLogs], WarningCutoff(AuditLogs, now));
      var aiActivities := CountSelected(AiActivities, db[AiActivities], WarningCutoff(AiActivities, now));
      var assessments := CountSelected(Assessments, db[Assessments], WarningCutoff(Assessments, now));
      warnings := Counts(journals, evidence, auditLogs, aiActivities, assessments);
    }

    /** `manualCleanup`: a dry run reports the expiring counts and deletes nothing; otherwise the
        cleanup runs. */
    method ManualCleanup(now: int, dryRun: bool) returns (r: Outcome)
      requires Valid()
      modifies this
      ensures Valid()
      ensures dryRun ==> db == old(db) && r == DryRun(ExpiringCounts(old(db), now))
      ensures !dryRun ==>
        && r == Cleaned(DeletedCounts(old(db), now), Total(DeletedCounts(old(db), now)))
        && forall t: Table :: db[t] == Remaining(t, old(db)[t], Cutoff(t, now))
    {
      if dryRun {
        var expiring := CheckExpiringData(now);
        return DryRun(expiring);
      }
      var results, total := CleanupExpiredData(now);
      r := Cleaned(results, total);
    }
  }

  /** After a cleanup a row survives exactly when it is newer than its table's cutoff or, for AI
      activities, not yet reviewed. */
  lemma SurvivesCleanup(t: Table, rows: seq<Row>, now: int, x: Row)
    requires x in rows
    ensures x in Remaining(t, rows, Cutoff(t, now)) <==>
      x.createdAt >= Cutoff(t, now) || (t == AiActivities && !x.isReviewed)
  {
  }

  /** An AI activity nobody has reviewed is never deleted, however old. */
  lemma UnreviewedActivityKept(rows: seq<Row>, cutoff: int, x: Row)
    requires x in rows && !x.isReviewed
    ensures x in Remaining(AiActivities, rows, cutoff)
  {
  }

  /** A dry run's counts bound the counts the real cleanup reports for the same moment. */
  lemma DryRunBoundsCleanup(db: map<Table, seq<Row>>, now: int)
    requires Complete(db)
    ensures Total(DeletedCounts(db, now)) <= Total(ExpiringCounts(db, now))
  {
    ExpiringCoversDeleted(db, now);
  }
}
