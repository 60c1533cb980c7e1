/** The audit trail of AI use: each call is logged as an activity, some kinds wait for a
    human review, reviews are recorded in place, and reviewed activities past a cutoff are
    deleted. Times are milliseconds; a day is 86 400 000 ms. */
module AiActivity {
  import opened Common

  const DayMs: int := 86_400_000

  /** The defaults of `getUserActivities`' limit, `getPendingReviews`' limit and
      `cleanupOldActivities`' age, and the limit the administrators' route passes. */
  const DefaultUserLimit: nat := 50
  const DefaultPendingLimit: nat := 100
  const DefaultOlderThanDays: int := 365
  const AdminRouteLimit: nat := 100

  const AssessmentDraft: string := "ASSESSMENT_DRAFT"
  const MentoringSummary: string := "MENTORING_SUMMARY"

  /** A logged activity; the review fields are empty until it is reviewed. */
  datatype Activity = Activity(
    id: string, userId: string, actionType: string, createdAt: int, isReviewed: bool,
    isApproved: Option<bool>, reviewedBy: Option<string>, reviewedAt: Option<int>, reviewNotes: Option<string>)

  // ---------------------------------------------------------------
  // orderBy createdAt, take
  // ---------------------------------------------------------------

  /** The sort key: `createdAt` for oldest first, its negation for newest first. */
  function Key(a: Activity, newestFirst: bool): int {
    if newestFirst then -a.createdAt else a.createdAt
  }

  predicate Ordered(s: seq<Activity>, newestFirst: bool) {
    forall i :: 0 < i < |s| ==> Key(s[i - 1], newestFirst) <= Key(s[i], newestFirst)
  }

  function Insert(x: Activity, s: seq<Activity>, newestFirst: bool): (r: seq<Activity>)
    ensures multiset(r) == multiset(s) + multiset{x}
  {
    if s == [] then [x]
    else if Key(x, newestFirst) <= Key(s[0], newestFirst) then [x] + s
    else
      assert s == [s[0]] + s[1..];
      [s[0]] + Insert(x, s[1..], newestFirst)
  }

  lemma {:induction false} InsertOrdered(x: Activity, s: seq<Activity>, newestFirst: bool)
    requires Ordered(s, newestFirst)
    ensures Ordered(Insert(x, s, newestFirst), newestFirst)
    ensures |Insert(x, s, newestFirst)| == |s| + 1
    ensures Insert(x, s, newestFirst)[0] == x || (s != [] && Insert(x, s, newestFirst)[0] == s[0])
  {
    if s != [] && Key(s[0], newestFirst) < Key(x, newestFirst) {
      InsertOrdered(x, s[1..], newestFirst);
      var rest := Insert(x, s[1..], newestFirst);
      assert Insert(x, s, newestFirst) == [s[0]] + rest;
    }
  }

  /** `orderBy: { createdAt }`, as an insertion sort (ties keep no particular order). */
  function SortByDate(s: seq<Activity>, newestFirst: bool): (r: seq<Activity>)
    ensures Ordered(r, newestFirst)
    ensures multiset(r) == multiset(s)
  {
    if s == [] then []
    else
      assert s == [s[0]] + s[1..];
      InsertOrdered(s[0], SortByDate(s[1..], newestFirst), newestFirst);
      Insert(s[0], SortByDate(s[1..], newestFirst), newestFirst)
  }

  /** Ordered neighbours make the whole sequence ordered. */
  lemma {:induction false} OrderedAll(s: seq<Activity>, newestFirst: bool, i: nat, j: nat)
    requires Ordered(s, newestFirst) && i <= j < |s|
    ensures Key(s[i], newestFirst) <= Key(s[j], newestFirst)
    decreases j - i
  {
    if i < j {
      OrderedAll(s, newestFirst, i, j - 1);
    }
  }

  /** Newest first for the user's history, oldest first for the review queue. */
  lemma ResultOrder(s: seq<Activity>, newestFirst: bool, take: nat)
    requires Ordered(s, newestFirst)
    ensures Ordered(Take(s, take), newestFirst)
    ensures forall i, j :: 0 <= i < |Take(s, take)| <= j < |s| ==> Key(s[i], newestFirst) <= Key(s[j], newestFirst)
  {
    forall i, j | 0 <= i < |Take(s, take)| <= j < |s|
      ensures Key(s[i], newestFirst) <= Key(s[j], newestFirst)
    {
      OrderedAll(s, newestFirst, i, j);
    }
  }

  lemma SortedMembers(s: seq<Activity>, newestFirst: bool, x: Activity)
    requires x in SortByDate(s, newestFirst)
    ensures x in s
  {
    assert x in multiset(SortByDate(s, newestFirst));
  }

  lemma SortedLength(s: seq<Activity>, newestFirst: bool)
    ensures |SortByDate(s, newestFirst)| == |s|
  {
    assert |multiset(SortByDate(s, newestFirst))| == |multiset(s)|;
  }

  // ---------------------------------------------------------------
  // Queries
  // ---------------------------------------------------------------

  /** The activity kinds that need a review. */
  predicate NeedsReview(a: Activity) {
    !a.isReviewed && (a.actionType == AssessmentDraft || a.actionType == MentoringSummary)
  }

  /** `where: { userId }`, in table order. */
  function OfUser(rows: seq<Activity>, userId: string): (r: seq<Activity>)
    ensures forall x :: x in r <==> x in rows && x.userId == userId
  {
    if rows == [] then []
    else
      var rest := OfUser(rows[..|rows| - 1], userId);
      assert rows == rows[..|rows| - 1] + [rows[|rows| - 1]];
      if rows[|rows| - 1].userId == userId then rest + [rows[|rows| - 1]] else rest
  }

  /** The `where` of `getPendingReviews`, in table order. */
  function Unreviewed(rows: seq<Activity>): (r: seq<Activity>)
    ensures forall x :: x in r <==> x in rows && NeedsReview(x)
  {
    if rows == [] then []
    else
      var rest := Unreviewed(rows[..|rows| - 1]);
      assert rows == rows[..|rows| - 1] + [rows[|rows| - 1]];
      if NeedsReview(rows[|rows| - 1]) then rest + [rows[|rows| - 1]] else rest
  }

  /** `getUserActivities`: the user's activities, newest first, at most `limit`. */
  function UserActivities(rows: seq<Activity>, userId: string, limit: nat): seq<Activity> {
    Take(SortByDate(OfUser(rows, userId), true), limit)
  }

  /** `getPendingReviews`: unreviewed drafts and mentoring summaries, oldest first, at most
      `limit`. */
  function PendingReviews(rows: seq<Activity>, limit: nat): seq<Activity> {
    Take(SortByDate(Unreviewed(rows), false), limit)
  }

  /** The history holds at most `limit` of the user's own activities, newest first, and none of
      the user's activities it leaves out is newer than one it lists. */
  lemma UserActivitiesFacts(rows: seq<Activity>, userId: string, limit: nat)
    ensures var r := UserActivities(rows, userId, limit);
      |r| <= limit && Ordered(r, true) && forall x :: x in r ==> x in rows && x.userId == userId
    ensures var s := SortByDate(OfUser(rows, userId), true);
      forall i, j :: 0 <= i < |UserActivities(rows, userId, limit)| <= j < |s| ==> s[j].createdAt <= s[i].createdAt
  {
    var s := SortByDate(OfUser(rows, userId), true);
    ResultOrder(s, true, limit);
    forall x | x in UserActivities(rows, userId, limit)
      ensures x in rows && x.userId == userId
    {
      SortedMembers(OfUser(rows, userId), true, x);
    }
  }

  /** The administrators' "all activities" route passes the user id "all", so it only ever lists
      activities of a user whose id is "all", and nothing when there is none. */
  lemma AllRouteMatchesOnlyAll(rows: seq<Activity>, limit: nat)
    ensures forall x :: x in UserActivities(rows, "all", limit) ==> x.userId == "all"
    ensures (forall i :: 0 <= i < |rows| ==> rows[i].userId != "all") ==> UserActivities(rows, "all", limit) == []
  {
    UserActivitiesFacts(rows, "all", limit);
    var r := UserActivities(rows, "all", limit);
    if r != [] {
      assert r[0] in r;
    }
  }

  /** The queue holds at most `limit` unreviewed drafts and mentoring summaries, oldest first; none
      it leaves out is older than one it lists, and with at most `limit` waiting it lists them all. */
  lemma PendingFacts(rows: seq<Activity>, limit: nat)
    ensures var r := PendingReviews(rows, limit);
      |r| <= limit && Ordered(r, false) && forall x :: x in r ==> x in rows && NeedsReview(x)
    ensures var s := SortByDate(Unreviewed(rows), false);
      forall i, j :: 0 <= i < |PendingReviews(rows, limit)| <= j < |s| ==> s[i].createdAt <= s[j].createdAt
    ensures |Unreviewed(rows)| <= limit ==>
      multiset(PendingReviews(rows, limit)) == multiset(Unreviewed(rows))
  {
    var s := SortByDate(Unreviewed(rows), false);
    ResultOrder(s, false, limit);
    SortedLength(Unreviewed(rows), false);
    forall x | x in PendingReviews(rows, limit)
      ensures x in rows && NeedsReview(x)
    {
      SortedMembers(Unreviewed(rows), false, x);
    }
  }

  // ---------------------------------------------------------------
  // The table
  // ---------------------------------------------------------------

  /** The primary key: activity ids are distinct. */
  ghost predicate DistinctIds(rows: seq<Activity>) {
    forall i, j :: 0 <= i < j < |rows| ==> rows[i].id != rows[j].id
  }

  /** The position of the activity with that id. */
  function Position(rows: seq<Activity>, id: string): (r: Option<nat>)
    ensures r.Some? ==> r.value < |rows| && rows[r.value].id == id
    ensures r.None? <==> forall i :: 0 <= i < |rows| ==> rows[i].id != id
  {
    if rows == [] then None
    else if rows[|rows| - 1].id == id then Some(|rows| - 1)
    else Position(rows[..|rows| - 1], id)
  }

  /** A row is deleted by `cleanupOldActivities` when it is reviewed and older than the cutoff. */
  predicate Expired(a: Activity, cutoff: int) {
    a.createdAt < cutoff && a.isReviewed
  }

  /** The rows a cleanup with that cutoff leaves, in table order. */
  function Kept(rows: seq<Activity>, cutoff: int): (r: seq<Activity>)
    ensures |r| <= |rows|
    ensures forall x :: x in r <==> x in rows && !Expired(x, cutoff)
  {
    if rows == [] then []
    else
      var rest := Kept(rows[..|rows| - 1], cutoff);
      assert rows == rows[..|rows| - 1] + [rows[|rows| - 1]];
      if Expired(rows[|rows| - 1], cutoff) then rest else rest + [rows[|rows| - 1]]
  }

  datatype ActivityError = NotFound

  class ActivityLog {
    var rows: seq<Activity>

    ghost predicate Valid()
      reads this
    {
      DistinctIds(rows)
    }

    constructor ()
      ensures Valid() && rows == []
    {
      rows := [];
    }

    /** `reviewActivity`: the update by id fails for an unknown id; otherwise only that activity
        changes, to reviewed with the decision, reviewer and time. Notes that are given replace the
        stored ones; an update without notes leaves the field as it was, as Prisma does with an
        undefined field. */
    method ReviewActivity(activityId: string, reviewerId: string, approved: bool, notes: Option<string>, now: int)
      returns (r: Result<Activity, ActivityError>)
      requires Valid()
      modifies this
      ensures Valid()
      ensures Position(old(rows), activityId).None? <==> r.Err?
      ensures r.Err? ==> rows == old(rows)
      ensures r.Ok? ==>
        && var k := Position(old(rows), activityId).value;
        && r.value == old(rows)[k].(isReviewed := true, reviewedBy := Some(reviewerId), reviewedAt := Some(now),
                                    isApproved := Some(approved),
                                    reviewNotes := if notes.Some? then notes else old(rows)[k].reviewNotes)
        && rows == old(rows)[k := r.value]
    {
      var found := Position(rows, activityId);
      if found.None? {
        return Err(NotFound);
      }
      var k := found.value;
      var u := rows[k].(isReviewed := true, reviewedBy := Some(reviewerId), reviewedAt := Some(now),
                        isApproved := Some(approved),
                        reviewNotes := if notes.Some? then notes else rows[k].reviewNotes);
      rows := rows[k := u];
      r := Ok(u);
    }

    /** `cleanupOldActivities`: the reviewed activities older than `olderThanDays` days are deleted
        and their number returned. */
    method CleanupOldActivities(now: int, olderThanDays: int) returns (count: nat)
      requires Valid()
      modifies this
      ensures Valid()
      ensures rows == Kept(old(rows), now - olderThanDays * DayMs)
      ensures count == |old(rows)| - |rows|
    {
      var cutoff := now - olderThanDays * DayMs;
      KeptDistinct(rows, cutoff);
      var before := |rows|;
      rows := Kept(rows, cutoff);
      count := before - |rows|;
    }
  }

  /** Filtering keeps ids distinct. */
  lemma {:induction false} KeptDistinct(rows: seq<Activity>, cutoff: int)
    requires DistinctIds(rows)
    ensures DistinctIds(Kept(rows, cutoff))
  {
    if rows != [] {
      var init := rows[..|rows| - 1];
      assert DistinctIds(init);
      KeptDistinct(init, cutoff);
      var rest := Kept(init, cutoff);
      var last := rows[|rows| - 1];
      forall x | x in rest
        ensures x.id != last.id
      {
        var i :| 0 <= i < |init| && init[i] == x;
      }
    }
  }

  /** A reviewed activity is no longer pending. */
  lemma ReviewedLeavesPending(rows: seq<Activity>, k: nat, u: Activity, limit: nat)
    requires k < |rows| && u.isReviewed
    ensures u !in PendingReviews(rows[k := u], limit)
  {
    PendingFacts(rows[k := u], limit);
  }

  /** A cleanup never deletes an unreviewed activity, nor one newer than the cutoff, and deletes
      every reviewed one older than it. */
  lemma CleanupKeeps(rows: seq<Activity>, cutoff: int, x: Activity)
    requires x in rows
    ensures x in Kept(rows, cutoff) <==> !x.isReviewed || x.createdAt >= cutoff
  {
  }
}
