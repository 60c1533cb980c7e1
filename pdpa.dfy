/** Consent records under the Thai Personal Data Protection Act: granting,
    revoking, the expiry rules, the per-user summary, the masking of a
    citizen id in the right-of-access export and the dispatch of a
    right-to-erasure request. */
module Pdpa {
  import opened Common

  datatype ConsentType = DataCollection | DataProcessing | DataSharing | Marketing | Analytics

  datatype ConsentStatus = Pending | Granted | Revoked | Expired

  /** Every consent type, once each. */
  const AllTypes: seq<ConsentType> := [DataCollection, DataProcessing, DataSharing, Marketing, Analytics]

  /** Milliseconds in a day. */
  const DayMs: int := 24 * 60 * 60 * 1000

  /** One consent row; times are epoch milliseconds. */
  datatype Consent = Consent(
    status: ConsentStatus,
    grantedAt: Option<int>,
    revokedAt: Option<int>,
    expiresAt: Option<int>,
    privacyPolicyVersion: Option<string>,
    termsVersion: Option<string>,
    ipAddress: Option<string>,
    userAgent: Option<string>)

  datatype GrantOptions = GrantOptions(
    privacyPolicyVersion: Option<string>,
    termsVersion: Option<string>,
    ipAddress: Option<string>,
    userAgent: Option<string>,
    expiresInDays: Option<int>)

  datatype ConsentError = NotFound | AlreadyRevoked

  /** The unique key of a consent row: `(userId, consentType)`. */
  type Key = (string, ConsentType)

  /** `expiresInDays ? now + days * 24h : null`: zero days, like no days, means no expiry. */
  function ExpiryOf(expiresInDays: Option<int>, now: int): (r: Option<int>)
    ensures r.None? <==> (expiresInDays.None? || expiresInDays.value == 0)
    ensures r.Some? ==> r.value - now == expiresInDays.value * DayMs
  {
    if expiresInDays.Some? && expiresInDays.value != 0 then Some(now + expiresInDays.value * DayMs) else None
  }

  predicate PastExpiry(c: Consent, now: int) {
    c.expiresAt.Some? && c.expiresAt.value < now
  }

  /** A GRANTED consent whose expiry has passed: the rows the sweeps rewrite. */
  predicate Lapses(c: Consent, now: int) {
    c.status == Granted && PastExpiry(c, now)
  }

  /** The answer of `hasConsent` for an existing row. */
  predicate Consented(c: Consent, now: int) {
    c.status == Granted && !PastExpiry(c, now)
  }

  /** A lapsed consent is marked EXPIRED; any other row is left alone. */
  function Expire(c: Consent, now: int): (r: Consent)
    ensures Lapses(c, now) ==> r.status == Expired
    ensures !Lapses(c, now) ==> r == c
    ensures r.(status := c.status) == c
  {
    if Lapses(c, now) then c.(status := Expired) else c
  }

  /** Expiry applied to every row, or to one user's rows. */
  function Swept(m: map<Key, Consent>, now: int, user: Option<string>): (r: map<Key, Consent>)
    ensures r.Keys == m.Keys
  {
    map k | k in m :: if user.None? || k.0 == user.value then Expire(m[k], now) else m[k]
  }

  /** The sweeps only turn lapsed GRANTED rows into EXPIRED ones, never change whether a row
      counts as consent, and a second sweep at the same time changes nothing. */
  lemma SweepOnlyExpires(m: map<Key, Consent>, now: int, user: Option<string>)
    ensures forall k :: k in m && Swept(m, now, user)[k] != m[k] ==>
      Lapses(m[k], now) && Swept(m, now, user)[k] == m[k].(status := Expired)
    ensures forall k :: k in m ==> (Consented(Swept(m, now, user)[k], now) <==> Consented(m[k], now))
    ensures Swept(Swept(m, now, user), now, user) == Swept(m, now, user)
  {
    var s := Swept(m, now, user);
    forall k | k in m
      ensures Swept(s, now, user)[k] == s[k]
    {
      if user.None? || k.0 == user.value {
        assert !Lapses(s[k], now);
      }
    }
  }

  /** The rows of one user for some of the types swept, the others as they were. */
  function SweptTypes(m: map<Key, Consent>, now: int, user: string, types: seq<ConsentType>): map<Key, Consent> {
    map k | k in m :: if k.0 == user && k.1 in types then Expire(m[k], now) else m[k]
  }

  /** Sweeping one more type of the user's rows is rewriting that one row if it lapsed. */
  lemma SweptStep(m: map<Key, Consent>, now: int, user: string, types: seq<ConsentType>, t: ConsentType)
    ensures var cur := SweptTypes(m, now, user, types);
      var k := (user, t);
      SweptTypes(m, now, user, types + [t]) ==
        if k in cur && Lapses(cur[k], now) then cur[k := cur[k].(status := Expired)] else cur
  {
  }

  lemma SweptAllTypes(m: map<Key, Consent>, now: int, user: string)
    ensures SweptTypes(m, now, user, AllTypes) == Swept(m, now, Some(user))
  {
    forall k | k in m
      ensures k.1 in AllTypes
    {
      match k.1
      case DataCollection =>
      case DataProcessing =>
      case DataSharing =>
      case Marketing =>
      case Analytics =>
    }
  }

  /** One user's rows, by type. */
  function RowsOf(m: map<Key, Consent>, user: string): map<ConsentType, Consent> {
    map t | (user, t) in m :: m[(user, t)]
  }

  datatype ConsentSummary = ConsentSummary(
    total: nat, granted: nat, pending: nat, revoked: nat, expired: nat,
    dataCollection: ConsentStatus, dataProcessing: ConsentStatus, dataSharing: ConsentStatus)

  /** How many of `types` have a row. */
  function Present(rows: map<ConsentType, Consent>, types: seq<ConsentType>): nat {
    if types == [] then 0
    else Present(rows, types[..|types| - 1]) + (if types[|types| - 1] in rows then 1 else 0)
  }

  /** How many of `types` have a row in status `s`. */
  function CountStatus(rows: map<ConsentType, Consent>, s: ConsentStatus, types: seq<ConsentType>): nat {
    if types == [] then 0
    else
      var t := types[|types| - 1];
      CountStatus(rows, s, types[..|types| - 1]) + (if t in rows && rows[t].status == s then 1 else 0)
  }

  lemma {:induction false} CountsPartition(rows: map<ConsentType, Consent>, types: seq<ConsentType>)
    ensures Present(rows, types) == CountStatus(rows, Granted, types) + CountStatus(rows, Pending, types) +
      CountStatus(rows, Revoked, types) + CountStatus(rows, Expired, types)
  {
    if types != [] {
      CountsPartition(rows, types[..|types| - 1]);
    }
  }

  /** `find(...)?.status || 'PENDING'`. */
  function RequiredStatus(rows: map<ConsentType, Consent>, t: ConsentType): (r: ConsentStatus)
    ensures t !in rows ==> r == Pending
    ensures t in rows ==> r == rows[t].status
  {
    if t in rows then rows[t].status else Pending
  }

  /** `getConsentSummary` over one user's rows. */
  function SummaryOf(rows: map<ConsentType, Consent>): (r: ConsentSummary)
    ensures r.total == r.granted + r.pending + r.revoked + r.expired
    ensures r.total <= |AllTypes|
    ensures (r.dataCollection == Pending <==> DataCollection !in rows || rows[DataCollection].status == Pending)
  {
    CountsPartition(rows, AllTypes);
    PresentBound(rows, AllTypes);
    ConsentSummary(Present(rows, AllTypes), CountStatus(rows, Granted, AllTypes), CountStatus(rows, Pending, AllTypes),
                   CountStatus(rows, Revoked, AllTypes), CountStatus(rows, Expired, AllTypes),
                   RequiredStatus(rows, DataCollection), RequiredStatus(rows, DataProcessing),
                   RequiredStatus(rows, DataSharing))
  }

  lemma {:induction false} PresentBound(rows: map<ConsentType, Consent>, types: seq<ConsentType>)
    ensures Present(rows, types) <= |types|
  {
    if types != [] {
      PresentBound(rows, types[..|types| - 1]);
    }
  }

  /** A field of a Prisma update: an undefined value leaves the stored one. */
  function OrStored(given: Option<string>, stored: Option<string>): Option<string> {
    if given.Some? then given else stored
  }

  class ConsentStore {
    var consents: map<Key, Consent>

    constructor ()
      ensures consents == map[]
    {
      consents := map[];
    }

    /** `grantConsent`: an upsert on `(userId, consentType)` to a fresh GRANTED row. On an existing
        row Prisma's update skips the options left undefined, so their stored values stay; the
        expiry is an explicit null and is always overwritten. */
    method GrantConsent(userId: string, t: ConsentType, options: GrantOptions, now: int) returns (c: Consent)
      modifies this
      ensures c.status == Granted && c.grantedAt == Some(now) && c.revokedAt.None?
      ensures c.expiresAt == ExpiryOf(options.expiresInDays, now)
      ensures (userId, t) !in old(consents) ==>
        c.privacyPolicyVersion == options.privacyPolicyVersion && c.termsVersion == options.termsVersion &&
        c.ipAddress == options.ipAddress && c.userAgent == options.userAgent
      ensures (userId, t) in old(consents) ==>
        var stored := old(consents)[(userId, t)];
        c.privacyPolicyVersion == (if options.privacyPolicyVersion.Some? then options.privacyPolicyVersion
                                   else stored.privacyPolicyVersion) &&
        c.termsVersion == (if options.termsVersion.Some? then options.termsVersion else stored.termsVersion) &&
        c.ipAddress == (if options.ipAddress.Some? then options.ipAddress else stored.ipAddress) &&
        c.userAgent == (if options.userAgent.Some? then options.userAgent else stored.userAgent)
      ensures consents == old(consents)[(userId, t) := c]
    {
      c := Consent(Granted, Some(now), None, ExpiryOf(options.expiresInDays, now), options.privacyPolicyVersion,
                   options.termsVersion, options.ipAddress, options.userAgent);
      if (userId, t) in consents {
        var stored := consents[(userId, t)];
        c := c.(privacyPolicyVersion := OrStored(options.privacyPolicyVersion, stored.privacyPolicyVersion),
                termsVersion := OrStored(options.termsVersion, stored.termsVersion),
                ipAddress := OrStored(options.ipAddress, stored.ipAddress),
                userAgent := OrStored(options.userAgent, stored.userAgent));
      }
      consents := consents[(userId, t) := c];
    }

    /** `revokeConsent`: a missing row is NotFound, a REVOKED one cannot be revoked again. */
    method RevokeConsent(userId: string, t: ConsentType, now: int) returns (r: Result<Consent, ConsentError>)
      modifies this
      ensures (userId, t) !in old(consents) ==> r == Err(NotFound)
      ensures (userId, t) in old(consents) && old(consents)[(userId, t)].status == Revoked ==> r == Err(AlreadyRevoked)
      ensures (userId, t) in old(consents) && old(consents)[(userId, t)].status != Revoked ==> r.Ok?
      ensures r.Err? ==> consents == old(consents)
      ensures r.Ok? ==>
        && (userId, t) in old(consents) && old(consents)[(userId, t)].status != Revoked
        && r.value == old(consents)[(userId, t)].(status := Revoked, revokedAt := Some(now))
        && consents == old(consents)[(userId, t) := r.value]
    {
      if (userId, t) !in consents {
        return Err(NotFound);
      }
      var c := consents[(userId, t)];
      if c.status == Revoked {
        return Err(AlreadyRevoked);
      }
      var u := c.(status := Revoked, revokedAt := Some(now));
      consents := consents[(userId, t) := u];
      r := Ok(u);
    }

    /** `hasConsent`: true exactly for an existing GRANTED row not past its expiry; a lapsed row
        is marked EXPIRED on the way. */
    method HasConsent(userId: string, t: ConsentType, now: int) returns (b: bool)
      modifies this
      ensures b <==> (userId, t) in old(consents) && Consented(old(consents)[(userId, t)], now)
      ensures (userId, t) !in old(consents) ==> consents == old(consents)
      ensures (userId, t) in old(consents) ==>
        consents == old(consents)[(userId, t) := Expire(old(consents)[(userId, t)], now)]
    {
      if (userId, t) !in consents {
        return false;
      }
      var c := consents[(userId, t)];
      if c.status != Granted {
        return false;
      }
      if c.expiresAt.Some? && c.expiresAt.value < now {
        consents := consents[(userId, t) := c.(status := Expired)];
        return false;
      }
      b := true;
    }

    /** `checkExpiredConsents`: every lapsed row becomes EXPIRED; the count is how many did. */
    method CheckExpiredConsents(now: int) returns (count: nat)
      modifies this
      ensures consents == Swept(old(consents), now, None)
      ensures count == |set k | k in old(consents) && Lapses(old(consents)[k], now)|
    {
      count := |set k | k in consents && Lapses(consents[k], now)|;
      consents := Swept(consents, now, None);
    }

    /** `getUserConsents`: the user's rows, each lapsed one rewritten to EXPIRED first. */
    method GetUserConsents(userId: string, now: int) returns (rows: map<ConsentType, Consent>)
      modifies this
      ensures consents == Swept(old(consents), now, Some(userId))
      ensures rows == RowsOf(consents, userId)
    {
      var i := 0;
      while i < |AllTypes|
        invariant 0 <= i <= |AllTypes|
        invariant consents == SweptTypes(old(consents), now, userId, AllTypes[..i])
      {
        var k := (userId, AllTypes[i]);
        SweptStep(old(consents), now, userId, AllTypes[..i], AllTypes[i]);
        if k in consents && Lapses(consents[k], now) {
          consents := consents[k := consents[k].(status := Expired)];
        }
        assert AllTypes[..i + 1] == AllTypes[..i] + [AllTypes[i]];
        i := i + 1;
      }
      SweptAllTypes(old(consents), now, userId);
      rows := RowsOf(consents, userId);
    }

    /** `getConsentSummary`. */
    method GetConsentSummary(userId: string, now: int) returns (s: ConsentSummary)
      modifies this
      ensures consents == Swept(old(consents), now, Some(userId))
      ensures s == SummaryOf(RowsOf(consents, userId))
    {
      var rows := GetUserConsents(userId, now);
      s := SummaryOf(rows);
    }
  }

  /** Granting without a negative expiry is immediately seen as consent, and revoking ends it. */
  lemma GrantThenRevoke(options: GrantOptions, now: int, later: int)
    requires options.expiresInDays.None? || options.expiresInDays.value >= 0
    ensures var c := Consent(Granted, Some(now), None, ExpiryOf(options.expiresInDays, now),
                             options.privacyPolicyVersion, options.termsVersion, options.ipAddress, options.userAgent);
      Consented(c, now) && !Consented(c.(status := Revoked, revokedAt := Some(later)), later)
  {
    var e := ExpiryOf(options.expiresInDays, now);
    if e.Some? {
      assert e.value - now == options.expiresInDays.value * DayMs;
      MulNonNeg(options.expiresInDays.value, DayMs);
    }
  }

  lemma MulNonNeg(a: int, b: int)
    requires a >= 0 && b >= 0
    ensures a * b >= 0
  {
  }

  // ---------------------------------------------------------------
  // Right of access: the masked citizen id
  // ---------------------------------------------------------------

  /** `v.slice(-4)`: the last four characters, or the whole string when shorter. */
  function LastFour(v: string): (r: string)
    ensures |r| == Min(|v|, 4) && EndsWith(v, r)
  {
    if |v| >= 4 then v[|v| - 4..] else v
  }

  /** `maskCitizenId`: first character, three asterisks, last four; an empty or absent id gives null. */
  function MaskCitizenId(v: Option<string>): (r: Option<string>)
    ensures r.None? <==> v.None? || v.value == ""
    ensures r.Some? ==>
      && |r.value| == 4 + Min(|v.value|, 4) && r.value[0] == v.value[0]
      && r.value[1..4] == "***" && EndsWith(r.value, LastFour(v.value))
  {
    if v.None? || v.value == "" then None
    else Some(v.value[..1] + "***" + LastFour(v.value))
  }

  /** A 13-digit id keeps only five of its digits visible: the middle eight never appear. */
  lemma MaskHidesMiddle(v: string)
    requires |v| == 13
    ensures var m := MaskCitizenId(Some(v)).value;
      |m| == 8 && m == [v[0]] + "***" + v[9..]
  {
  }

  // ---------------------------------------------------------------
  // Right to erasure: which action a request leads to
  // ---------------------------------------------------------------

  /** `DELETE_CATEGORIES`. */
  const DeleteCategories: seq<string> :=
    ["personal_info", "assessments", "journals", "evidence", "mentoring", "plc", "development_plans"]

  datatype Table = AiActivity | CompetencyAssessment | SelfAssessment | ReflectiveJournal
                 | EvidencePortfolio | MentoringVisit | PlcActivity | DevelopmentPlan

  datatype DeleteRequest = DeleteRequest(deleteAll: Option<bool>, categories: Option<seq<string>>, anonymize: Option<bool>)

  /** What a request does: anonymise the account (and perhaps the teacher profile), erase the whole
      account (and the teacher profile, if any), or empty some tables. */
  datatype Erasure =
    | Anonymize(email: string, scrubTeacher: bool)
    | EraseAccount(removeTeacher: bool)
    | EraseTables(tables: set<Table>, categories: seq<string>)

  datatype ErasureError = UserNotFound | NothingRequested

  /** `options.categories?.filter(c => DELETE_CATEGORIES.includes(c))`. */
  function ValidCategories(cs: seq<string>): (r: seq<string>)
    ensures forall c :: c in r <==> c in cs && c in DeleteCategories
    ensures |r| <= |cs|
  {
    if cs == [] then []
    else ValidCategories(cs[..|cs| - 1]) + (if cs[|cs| - 1] in DeleteCategories then [cs[|cs| - 1]] else [])
  }

  /** The tables `deleteByCategories` empties. Without a teacher profile it only removes the AI activity. */
  function TablesFor(categories: seq<string>, hasTeacher: bool): (r: set<Table>)
    ensures !hasTeacher ==> r == {AiActivity}
    ensures hasTeacher ==> (AiActivity in r <==> "personal_info" in categories)
    ensures hasTeacher ==> (ReflectiveJournal in r <==> "journals" in categories)
    ensures hasTeacher ==> (CompetencyAssessment in r <==> SelfAssessment in r)
  {
    if !hasTeacher then {AiActivity}
    else
      (if "assessments" in categories then {CompetencyAssessment, SelfAssessment} else {}) +
      (if "journals" in categories then {ReflectiveJournal} else {}) +
      (if "evidence" in categories then {EvidencePortfolio} else {}) +
      (if "mentoring" in categories then {MentoringVisit} else {}) +
      (if "plc" in categories then {PlcActivity} else {}) +
      (if "development_plans" in categories then {DevelopmentPlan} else {}) +
      (if "personal_info" in categories then {AiActivity} else {})
  }

  /** `deleteMyData`: anonymising wins over erasing everything, which wins over the categories;
      a request with none of them is refused. `teacherId` is the user's teacher profile, if any. */
  function PlanErasure(userId: string, userExists: bool, teacherId: Option<string>, req: DeleteRequest)
    : (r: Result<Erasure, ErasureError>)
    ensures !userExists ==> r == Err(UserNotFound)
    ensures userExists && req.anonymize == Some(true) ==> r.Ok? && r.value.Anonymize?
    ensures userExists && req.anonymize != Some(true) && req.deleteAll == Some(true) ==>
      r == Ok(EraseAccount(teacherId.Some?))
    ensures r.Ok? && r.value.EraseTables? ==>
      req.anonymize != Some(true) && req.deleteAll != Some(true) && r.value.categories != [] &&
      forall c :: c in r.value.categories ==> c in DeleteCategories
    ensures r == Err(NothingRequested) <==>
      userExists && req.anonymize != Some(true) && req.deleteAll != Some(true) &&
      (req.categories.None? || ValidCategories(req.categories.value) == [])
  {
    if !userExists then Err(UserNotFound)
    else
      var valid := if req.categories.Some? then Some(ValidCategories(req.categories.value)) else None;
      if req.anonymize == Some(true) then
        var deleteTeacher := valid.None? || "personal_info" in valid.value;
        Ok(Anonymize("anonymized-" + Take(userId, 8) + "@deleted.local", teacherId.Some? && deleteTeacher))
      else if req.deleteAll == Some(true) then Ok(EraseAccount(teacherId.Some?))
      else if valid.Some? && |valid.value| > 0 then Ok(EraseTables(TablesFor(valid.value, teacherId.Some?), valid.value))
      else Err(NothingRequested)
  }

  /** Anonymising keeps the teacher profile when categories are given without "personal_info",
      including when every given category is unknown. */
  lemma AnonymizeKeepsProfileUnlessAsked(userId: string, teacherId: string, req: DeleteRequest)
    requires req.anonymize == Some(true) && req.categories.Some?
    ensures PlanErasure(userId, true, Some(teacherId), req).value.scrubTeacher <==>
      "personal_info" in req.categories.value
  {
  }
}
