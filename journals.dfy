/** The reflective journal table behind the journals service: at most one journal per
    teacher and month, a duplicate check before each insert, and lookups by id before
    each update or delete. */
module Journals {
  import opened Common

  /** A stored journal; `entry` stands for the reflective text fields the service never reads. */
  datatype Journal = Journal(id: string, teacherId: string, month: string, entry: string)

  /** How the create input names its teacher: a `connect` by id, or a nested create that gives the
      new row the teacher id `resolved`. */
  datatype TeacherRef = Connect(id: string) | Nested(resolved: string)

  function RowTeacher(t: TeacherRef): string {
    match t
    case Connect(id) => id
    case Nested(resolved) => resolved
  }

  /** `data.teacher.connect?.id || ''`: the teacher id the duplicate check looks up. */
  function CheckTeacher(t: TeacherRef): string {
    if t.Connect? then t.id else ""
  }

  datatype JournalError = Conflict | NotFound | UniqueViolation

  /** The two unique indexes of the table: the id, and the pair (teacher, month). */
  ghost predicate Unique(rows: seq<Journal>) {
    forall i, j :: 0 <= i < j < |rows| ==>
      rows[i].id != rows[j].id && (rows[i].teacherId, rows[i].month) != (rows[j].teacherId, rows[j].month)
  }

  /** `findUnique({ where: { id } })`: the position of the row with that id. */
  function RowOf(rows: seq<Journal>, id: string): (r: Option<nat>)
    ensures r.Some? ==> r.value < |rows| && rows[r.value].id == id
    ensures r.None? <==> forall i :: 0 <= i < |rows| ==> rows[i].id != id
  {
    if rows == [] then None
    else if rows[|rows| - 1].id == id then Some(|rows| - 1)
    else RowOf(rows[..|rows| - 1], id)
  }

  /** `findUnique({ where: { teacherId_month } })`. */
  function FindByTeacherAndMonth(rows: seq<Journal>, teacherId: string, month: string): (r: Option<Journal>)
    ensures r.Some? ==> r.value in rows && r.value.teacherId == teacherId && r.value.month == month
    ensures r.None? <==> forall i :: 0 <= i < |rows| ==> (rows[i].teacherId, rows[i].month) != (teacherId, month)
  {
    if rows == [] then None
    else if rows[|rows| - 1].teacherId == teacherId && rows[|rows| - 1].month == month then Some(rows[|rows| - 1])
    else FindByTeacherAndMonth(rows[..|rows| - 1], teacherId, month)
  }

  /** With the unique indexes in place, the journal found is the only one for the pair. */
  lemma FoundIsOnly(rows: seq<Journal>, teacherId: string, month: string, i: nat)
    requires Unique(rows) && i < |rows| && rows[i].teacherId == teacherId && rows[i].month == month
    ensures FindByTeacherAndMonth(rows, teacherId, month) == Some(rows[i])
  {
    var r := FindByTeacherAndMonth(rows, teacherId, month);
    var j :| 0 <= j < |rows| && rows[j] == r.value;
    assert i == j;
  }

  /** The rows without the one at `k`. */
  function Without(rows: seq<Journal>, k: nat): (r: seq<Journal>)
    requires k < |rows|
    ensures |r| == |rows| - 1
    ensures forall i :: 0 <= i < |r| ==> r[i] == if i < k then rows[i] else rows[i + 1]
  {
    rows[..k] + rows[k + 1..]
  }

  lemma WithoutUnique(rows: seq<Journal>, k: nat)
    requires Unique(rows) && k < |rows|
    ensures Unique(Without(rows, k))
  {
    var r := Without(rows, k);
    forall i, j | 0 <= i < j < |r|
      ensures r[i].id != r[j].id && (r[i].teacherId, r[i].month) != (r[j].teacherId, r[j].month)
    {
      var i', j' := if i < k then i else i + 1, if j < k then j else j + 1;
      assert r[i] == rows[i'] && r[j] == rows[j'] && i' < j';
    }
  }

  class JournalTable {
    var rows: seq<Journal>

    ghost predicate Valid()
      reads this
    {
      Unique(rows)
    }

    constructor ()
      ensures rows == [] && Valid()
    {
      rows := [];
    }

    /** `create`: a Conflict when the duplicate check finds a journal for the checked teacher id
        and month; otherwise the insert, which the unique indexes reject on a clash. */
    method Create(newId: string, teacher: TeacherRef, month: string, entry: string)
      returns (r: Result<Journal, JournalError>)
      requires Valid()
      modifies this
      ensures Valid()
      ensures FindByTeacherAndMonth(old(rows), CheckTeacher(teacher), month).Some? <==> r == Err(Conflict)
      ensures r == Err(UniqueViolation) <==>
        FindByTeacherAndMonth(old(rows), CheckTeacher(teacher), month).None? &&
        (RowOf(old(rows), newId).Some? || FindByTeacherAndMonth(old(rows), RowTeacher(teacher), month).Some?)
      ensures r.Ok? <==>
        FindByTeacherAndMonth(old(rows), CheckTeacher(teacher), month).None? &&
        RowOf(old(rows), newId).None? &&
        FindByTeacherAndMonth(old(rows), RowTeacher(teacher), month).None?
      ensures r.Err? ==> rows == old(rows)
      ensures r.Ok? ==> r.value == Journal(newId, RowTeacher(teacher), month, entry) && rows == old(rows) + [r.value]
    {
      if FindByTeacherAndMonth(rows, CheckTeacher(teacher), month).Some? {
        return Err(Conflict);
      }
      var j := Journal(newId, RowTeacher(teacher), month, entry);
      if RowOf(rows, newId).Some? || FindByTeacherAndMonth(rows, j.teacherId, month).Some? {
        return Err(UniqueViolation);
      }
      rows := rows + [j];
      r := Ok(j);
    }

    /** `update`: NotFound for an unknown id; otherwise only that journal changes, to the new month
        and entry when given, unless another journal of the teacher already has that month. */
    method Update(id: string, month: Option<string>, entry: Option<string>) returns (r: Result<Journal, JournalError>)
      requires Valid()
      modifies this
      ensures Valid()
      ensures RowOf(old(rows), id).None? ==> r == Err(NotFound)
      ensures r.Err? ==> rows == old(rows)
      ensures r.Ok? ==>
        && RowOf(old(rows), id).Some?
        && var k := RowOf(old(rows), id).value;
        && r.value == old(rows)[k].(month := month.GetOr(old(rows)[k].month), entry := entry.GetOr(old(rows)[k].entry))
        && rows == old(rows)[k := r.value]
      ensures RowOf(old(rows), id).Some? ==>
        var k := RowOf(old(rows), id).value;
        (r.Err? <==> Clashes(old(rows), k, month.GetOr(old(rows)[k].month)))
        && (r.Err? ==> r.error == UniqueViolation)
    {
      var found := RowOf(rows, id);
      if found.None? {
        return Err(NotFound);
      }
      var k := found.value;
      var u := rows[k].(month := month.GetOr(rows[k].month), entry := entry.GetOr(rows[k].entry));
      var clash := FindByTeacherAndMonth(rows, u.teacherId, u.month);
      ClashFound(rows, k, u.month);
      if clash.Some? && clash.value.id != id {
        return Err(UniqueViolation);
      }
      UpdateUnique(rows, k, u);
      rows := rows[k := u];
      r := Ok(u);
    }

    /** `remove`: NotFound for an unknown id; otherwise exactly that journal is deleted. */
    method Remove(id: string) returns (r: Result<Journal, JournalError>)
      requires Valid()
      modifies this
      ensures Valid()
      ensures RowOf(old(rows), id).None? <==> r == Err(NotFound)
      ensures RowOf(old(rows), id).Some? <==> r.Ok?
      ensures r.Err? ==> rows == old(rows)
      ensures r.Ok? ==>
        && RowOf(old(rows), id).Some?
        && r.value == old(rows)[RowOf(old(rows), id).value]
        && rows == Without(old(rows), RowOf(old(rows), id).value)
    {
      var found := RowOf(rows, id);
      if found.None? {
        return Err(NotFound);
      }
      WithoutUnique(rows, found.value);
      r := Ok(rows[found.value]);
      rows := Without(rows, found.value);
    }
  }

  /** Rewriting one row keeps the indexes unique when its id stays and no other row has its new
      (teacher, month). */
  lemma UpdateUnique(rows: seq<Journal>, k: nat, u: Journal)
    requires Unique(rows) && k < |rows| && u.id == rows[k].id && u.teacherId == rows[k].teacherId
    requires FindByTeacherAndMonth(rows, u.teacherId, u.month).None? ||
      FindByTeacherAndMonth(rows, u.teacherId, u.month).value.id == u.id
    ensures Unique(rows[k := u])
  {
    var r := rows[k := u];
    forall i, j | 0 <= i < j < |r|
      ensures r[i].id != r[j].id && (r[i].teacherId, r[i].month) != (r[j].teacherId, r[j].month)
    {
      if i == k || j == k {
        var other := if i == k then j else i;
        if (r[other].teacherId, r[other].month) == (u.teacherId, u.month) {
          FoundIsOnly(rows, u.teacherId, u.month, other);
        }
      }
    }
  }

  /** Another row of the same teacher already holds `month`: moving row `k` there breaks the
      unique index on (teacher, month). */
  predicate Clashes(rows: seq<Journal>, k: nat, month: string)
    requires k < |rows|
  {
    exists j :: 0 <= j < |rows| && j != k && rows[j].teacherId == rows[k].teacherId && rows[j].month == month
  }

  /** The lookup by (teacher, month) finds a journal other than row `k` exactly when moving row `k`
      to `month` clashes. */
  lemma ClashFound(rows: seq<Journal>, k: nat, month: string)
    requires Unique(rows) && k < |rows|
    ensures var found := FindByTeacherAndMonth(rows, rows[k].teacherId, month);
      (found.Some? && found.value.id != rows[k].id) <==> Clashes(rows, k, month)
  {
    var found := FindByTeacherAndMonth(rows, rows[k].teacherId, month);
    if Clashes(rows, k, month) {
      var j :| 0 <= j < |rows| && j != k && rows[j].teacherId == rows[k].teacherId && rows[j].month == month;
      FoundIsOnly(rows, rows[k].teacherId, month, j);
    }
    if found.Some? && found.value.id != rows[k].id {
      var j :| 0 <= j < |rows| && rows[j] == found.value;
      assert j != k;
    }
  }

  /** A create that names its teacher some other way than `connect` is checked against teacher id
      "": it conflicts exactly when a journal of teacher "" exists for the month. */
  lemma NestedTeacherChecksEmptyId(rows: seq<Journal>, resolved: string, month: string)
    ensures FindByTeacherAndMonth(rows, CheckTeacher(Nested(resolved)), month).Some? <==>
      exists i :: 0 <= i < |rows| && rows[i].teacherId == "" && rows[i].month == month
  {
  }

  /** A successful create leaves the new journal as the one found for its teacher and month. */
  lemma CreatedIsFound(rows: seq<Journal>, j: Journal)
    requires Unique(rows + [j])
    ensures FindByTeacherAndMonth(rows + [j], j.teacherId, j.month) == Some(j)
  {
  }
}
