/** Properties that relate several handlers: what a later read sees of an earlier write. */
module ControllerProperties {
  import opened Common
  import opened ResultModel
  import opened MirrorQueries
  import opened ResultController
  import SuiClient

  function KeyQuery(k: SuiClient.Key): Query
  {
    Query(Some(k.studentId), Some(k.courseCode), Some(k.semester))
  }

  function DataKey(d: SuiClient.ResultData): SuiClient.Key
  {
    SuiClient.Key(d.studentId, d.courseCode, d.semester)
  }

  /** The digest an add reports is the last entry of the student's receipt index afterwards. */
  lemma AddedTxHashIsIndexed(c: SuiClient.Client, m: seq<Record>, body: SuiClient.ResultData,
                             constructedAt: int, savedAt: int)
    requires AddStep(c, m, body, Up, constructedAt, savedAt).response.status == 200
    ensures var s := AddStep(c, m, body, Up, constructedAt, savedAt);
            var h := TxHashOf(AddLedger(c, body).value);
            && s.response.body.Added?
            && s.response.body.txHash == h
            && ListTxHashes(s.mirror, Some(body.studentId), Up).body.txHashes
               == TxHashes(ForStudent(m, body.studentId)) + (if h.Some? then [h.value] else [])
  {
    var s := AddStep(c, m, body, Up, constructedAt, savedAt);
    var rec := s.mirror[|m|];
    assert s.mirror == m + [rec];
    ForStudentAppend(m, rec, body.studentId);
    TxHashesAppend(ForStudent(m, body.studentId), rec);
  }

  /** After an add, listing the student answers 200 and the listing holds the new record. */
  lemma AddedRecordIsListed(c: SuiClient.Client, m: seq<Record>, body: SuiClient.ResultData,
                            constructedAt: int, savedAt: int)
    requires AddStep(c, m, body, Up, constructedAt, savedAt).response.status == 200
    ensures var s := AddStep(c, m, body, Up, constructedAt, savedAt);
            var r := GetResult(c, s.mirror, Query(Some(body.studentId), None, None), Up);
            && r.status == 200 && r.body.Listing?
            && s.mirror[|m|] in r.body.data
            && r.body.count == |ForStudent(m, body.studentId)| + 1
  {
    var s := AddStep(c, m, body, Up, constructedAt, savedAt);
    var rec := s.mirror[|m|];
    assert s.mirror == m + [rec];
    ForStudentAppend(m, rec, body.studentId);
    var theirs := ForStudent(s.mirror, body.studentId);
    assert theirs[|theirs| - 1] == rec;
    assert rec in multiset(theirs);
  }

  /**
   * When the ledger read fails after an add, the fallback returns the new record only if the
   * mirror held no record with the key before; otherwise the older duplicate shadows it.
   */
  lemma FallbackAfterAdd(c: SuiClient.Client, m: seq<Record>, body: SuiClient.ResultData,
                         constructedAt: int, savedAt: int)
    requires AddStep(c, m, body, Up, constructedAt, savedAt).response.status == 200
    requires GetLedger(c, KeyQuery(DataKey(body))).Threw?
    ensures var s := AddStep(c, m, body, Up, constructedAt, savedAt);
            var r := GetResult(c, s.mirror, KeyQuery(DataKey(body)), Up);
            && (FindOne(m, DataKey(body)).None? ==>
                  r == Response(200, FromDatabase(FromDatabaseMessage, s.mirror[|m|]))
                  && s.mirror[|m|].grade == body.grade)
            && (FindOne(m, DataKey(body)).Some? ==>
                  r == Response(200, FromDatabase(FromDatabaseMessage, FindOne(m, DataKey(body)).value)))
  {
    var s := AddStep(c, m, body, Up, constructedAt, savedAt);
    FirstMatchAppend(m, s.mirror[|m|], DataKey(body));
  }

  /** After an update that found its record, the mirror's record for the key carries the new grade and hash. */
  lemma UpdatedRecordIsFound(c: SuiClient.Client, m: seq<Record>, body: UpdateBody, now: int)
    requires UpdateLedger(c, body).Returned?
    requires FindOne(m, KeyOf(body)).Some?
    ensures var s := UpdateStep(c, m, body, Up, now);
            var found := FindOne(s.mirror, KeyOf(body));
            && found.Some?
            && found.value.grade == body.newGrade
            && found.value.updatedAt == now
            && found.value.txHash == TxHashOf(UpdateLedger(c, body).value)
  {
    FirstMatchSame(m, UpdateStep(c, m, body, Up, now).mirror, KeyOf(body));
  }

  /** Sequences whose records agree on matching the key have the same first match. */
  lemma {:induction false} FirstMatchSame(a: seq<Record>, b: seq<Record>, k: SuiClient.Key)
    requires |a| == |b|
    requires forall j :: 0 <= j < |a| ==> (Matches(a[j], k) <==> Matches(b[j], k))
    ensures FirstMatch(a, k) == FirstMatch(b, k)
  {
    if a != [] {
      FirstMatchSame(a[1..], b[1..], k);
    }
  }

  /** An update never changes how many records a student's listing holds. */
  lemma UpdateKeepsListingShape(c: SuiClient.Client, m: seq<Record>, body: UpdateBody, store: StoreStatus,
                                now: int, studentId: string)
    ensures var s := UpdateStep(c, m, body, store, now);
            |ForStudent(s.mirror, studentId)| == |ForStudent(m, studentId)|
  {
    var s := UpdateStep(c, m, body, store, now);
    ForStudentSameKeys(m, s.mirror, studentId);
  }

  lemma {:induction false} ForStudentSameKeys(a: seq<Record>, b: seq<Record>, studentId: string)
    requires |a| == |b|
    requires forall j :: 0 <= j < |a| ==> a[j].studentId == b[j].studentId
    ensures |ForStudent(a, studentId)| == |ForStudent(b, studentId)|
  {
    if a != [] {
      ForStudentSameKeys(a[1..], b[1..], studentId);
    }
  }

  /** A student-only listing never consults the ledger. */
  lemma ListingIgnoresLedger(c1: SuiClient.Client, c2: SuiClient.Client, m: seq<Record>, q: Query, store: StoreStatus)
    requires IsStudentListing(q)
    ensures GetResult(c1, m, q, store) == GetResult(c2, m, q, store)
  {
  }

  /** A successful ledger read never consults the mirror. */
  lemma LedgerReadIgnoresMirror(c: SuiClient.Client, m1: seq<Record>, m2: seq<Record>, q: Query,
                                st1: StoreStatus, st2: StoreStatus)
    requires IsPointLookup(q) && GetLedger(c, q).Returned?
    ensures GetResult(c, m1, q, st1) == GetResult(c, m2, q, st2)
  {
  }

  /** A partial key (student and course without semester) is not found, whatever the mirror holds. */
  lemma PartialKeyNotFound(c: SuiClient.Client, m: seq<Record>, studentId: string, courseCode: string,
                           store: StoreStatus)
    requires studentId != "" && courseCode != ""
    ensures GetResult(c, m, Query(Some(studentId), Some(courseCode), None), store)
              == Response(404, Failed(ResultNotFound))
  {
  }

  /** Validation comes before storage: an invalid body after a ledger write reports the validation
      error, not the store's, even when the store is unreachable. */
  lemma ValidationPrecedesStore(c: SuiClient.Client, m: seq<Record>, body: SuiClient.ResultData,
                                storeError: Thrown, constructedAt: int, savedAt: int)
    requires AddLedger(c, body).Returned?
    requires body.grade == ""
    ensures AddStep(c, m, body, Down(storeError), constructedAt, savedAt).response
              == ServerError(ValidationError(MissingPaths(RequiredValues(DraftOf(body, TxHashOf(AddLedger(c, body).value))))))
    ensures AddStep(c, m, body, Down(storeError), constructedAt, savedAt).mirror == m
  {
  }
}
