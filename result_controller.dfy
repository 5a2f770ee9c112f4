/**
 * The result service: the four request handlers over the ledger client and the mirror.
 * Each handler answers with an HTTP status and a JSON body; every exception inside a
 * handler becomes a 500 carrying the error's message.
 */
module ResultController {
  import opened Common
  import opened ResultModel
  import opened MirrorQueries
  import SuiClient

  const AddedMessage := "Result added successfully"
  const ListedMessage := "Results retrieved successfully"
  const FromBlockchainMessage := "Result retrieved successfully from blockchain"
  const FromDatabaseMessage := "Result retrieved successfully from database"
  const UpdatedMessage := "Result updated successfully"
  const NoResultsForStudent := "No results found for this student ID"
  const ResultNotFound := "Result not found"
  const StudentIdRequired := "studentId is required"

  /** Whether the mirror's storage engine answers this request's query or throws. */
  datatype StoreStatus = Up | Down(error: Thrown)

  /** `req.query` of a read: each field absent or a string. */
  datatype Query = Query(studentId: Option<string>, courseCode: Option<string>, semester: Option<string>)

  datatype UpdateBody = UpdateBody(studentId: string, courseCode: string, semester: string, newGrade: string)

  /** The JSON bodies the handlers send. */
  datatype Payload =
    | Added(message: string, blockchainRes: SuiClient.Receipt, txHash: Option<string>)
    | Listing(message: string, data: seq<Record>, count: nat)
    | FromBlockchain(message: string, inspection: SuiClient.Inspection)
    | FromDatabase(message: string, record: Record)
    | Updated(message: string, blockchainRes: SuiClient.Receipt, txHash: Option<string>)
    | TxHashList(studentId: string, txHashes: seq<string>, count: nat)
    | Failed(error: string)

  datatype Response = Response(status: int, body: Payload)

  /** A handler's response together with the mirror it leaves behind. */
  datatype Step = Step(response: Response, mirror: seq<Record>)

  function ServerError(e: Thrown): Response
  {
    Response(500, Failed(ErrorMessage(e)))
  }

  /** `blockchainRes?.digest || null`: the digest when it is a non-empty string, otherwise null. */
  function TxHashOf(receipt: SuiClient.Receipt): (h: Option<string>)
    ensures h.Some? <==> Truthy(receipt.digest)
    ensures h.Some? ==> receipt.digest == h
  {
    if Truthy(receipt.digest) then receipt.digest else None
  }

  function KeyOf(body: UpdateBody): SuiClient.Key
  {
    SuiClient.Key(body.studentId, body.courseCode, body.semester)
  }

  function DraftOf(body: SuiClient.ResultData, txHash: Option<string>): Draft
  {
    Draft(body.studentId, body.courseCode, body.grade, body.semester, txHash)
  }

  function AddLedger(c: SuiClient.Client, body: SuiClient.ResultData): SuiClient.Outcome<SuiClient.Receipt>
  {
    SuiClient.Execute(c, SuiClient.AddResult(body))
  }

  function UpdateLedger(c: SuiClient.Client, body: UpdateBody): SuiClient.Outcome<SuiClient.Receipt>
  {
    SuiClient.Execute(c, SuiClient.UpdateGrade(KeyOf(body), body.newGrade))
  }

  /**
   * `addResult`: write to the ledger; only if that returns, create the mirror record with the
   * digest as `txHash`. Creation validates the required fields before it touches the store.
   * A ledger error leaves the mirror alone; a validation or store error after a ledger write is
   * still reported as 500.
   */
  function AddStep(c: SuiClient.Client, mirror: seq<Record>, body: SuiClient.ResultData, store: StoreStatus,
                   constructedAt: int, savedAt: int): (s: Step)
    ensures AddLedger(c, body).Threw? ==> s == Step(ServerError(AddLedger(c, body).error), mirror)
    ensures AddLedger(c, body).Returned? ==>
              var receipt := AddLedger(c, body).value;
              match Create(DraftOf(body, TxHashOf(receipt)), constructedAt, savedAt)
              case Failure(e) => s == Step(ServerError(e), mirror)
              case Success(rec) =>
                && rec.studentId == body.studentId && rec.courseCode == body.courseCode
                && rec.grade == body.grade && rec.semester == body.semester
                && rec.txHash == TxHashOf(receipt)
                && (store.Down? ==> s == Step(ServerError(store.error), mirror))
                && (store.Up? ==>
                      s == Step(Response(200, Added(AddedMessage, receipt, TxHashOf(receipt))), mirror + [rec]))
    ensures s.response.status == 200 <==> |s.mirror| == |mirror| + 1
    ensures s.response.status in {200, 500}
    ensures s.mirror[..|mirror|] == mirror
  {
    match AddLedger(c, body)
    case Threw(e) => Step(ServerError(e), mirror)
    case Returned(receipt) =>
      var txHash := TxHashOf(receipt);
      match Create(DraftOf(body, txHash), constructedAt, savedAt)
      case Failure(e) => Step(ServerError(e), mirror)
      case Success(rec) =>
        if store.Down? then Step(ServerError(store.error), mirror)
        else
          assert (mirror + [rec])[..|mirror|] == mirror;
          Step(Response(200, Added(AddedMessage, receipt, txHash)), mirror + [rec])
  }

  /** The fields of `findOneAndUpdate`'s update: new grade, new update time, new `txHash`. */
  function Patch(r: Record, newGrade: string, now: int, txHash: Option<string>): (p: Record)
    ensures p.grade == newGrade && p.updatedAt == now && p.txHash == txHash
    ensures p.studentId == r.studentId && p.courseCode == r.courseCode && p.semester == r.semester
    ensures p.timestamp == r.timestamp
  {
    r.(grade := newGrade, updatedAt := now, txHash := txHash)
  }

  /**
   * `updateResult`: write the new grade to the ledger; only if that returns, patch the first
   * mirror record with the key. No matching record still answers 200.
   */
  function UpdateStep(c: SuiClient.Client, mirror: seq<Record>, body: UpdateBody, store: StoreStatus, now: int)
    : (s: Step)
    ensures |s.mirror| == |mirror|
    ensures UpdateLedger(c, body).Threw? ==> s == Step(ServerError(UpdateLedger(c, body).error), mirror)
    ensures UpdateLedger(c, body).Returned? && store.Down? ==> s == Step(ServerError(store.error), mirror)
    ensures UpdateLedger(c, body).Returned? && store.Up? ==>
              var receipt := UpdateLedger(c, body).value;
              && s.response == Response(200, Updated(UpdatedMessage, receipt, TxHashOf(receipt)))
              && match FirstMatch(mirror, KeyOf(body))
                 case None => s.mirror == mirror
                 case Some(i) =>
                   && s.mirror[i] == Patch(mirror[i], body.newGrade, now, TxHashOf(receipt))
                   && forall j :: 0 <= j < |mirror| && j != i ==> s.mirror[j] == mirror[j]
    ensures forall j :: 0 <= j < |mirror| ==>
              && s.mirror[j].timestamp == mirror[j].timestamp
              && s.mirror[j].studentId == mirror[j].studentId
              && s.mirror[j].courseCode == mirror[j].courseCode
              && s.mirror[j].semester == mirror[j].semester
    ensures s.response.status in {200, 500}
  {
    match UpdateLedger(c, body)
    case Threw(e) => Step(ServerError(e), mirror)
    case Returned(receipt) =>
      var txHash := TxHashOf(receipt);
      var response := Response(200, Updated(UpdatedMessage, receipt, txHash));
      if store.Down? then Step(ServerError(store.error), mirror)
      else match FirstMatch(mirror, KeyOf(body))
        case None => Step(response, mirror)
        case Some(i) => Step(response, mirror[i := Patch(mirror[i], body.newGrade, now, txHash)])
  }

  /** Only a truthy `studentId`, with `courseCode` and `semester` both falsy. */
  predicate IsStudentListing(q: Query)
  {
    Truthy(q.studentId) && !Truthy(q.courseCode) && !Truthy(q.semester)
  }

  /** All three key fields truthy. */
  predicate IsPointLookup(q: Query)
  {
    Truthy(q.studentId) && Truthy(q.courseCode) && Truthy(q.semester)
  }

  function QueryKey(q: Query): SuiClient.Key
    requires IsPointLookup(q)
  {
    SuiClient.Key(q.studentId.value, q.courseCode.value, q.semester.value)
  }

  function GetLedger(c: SuiClient.Client, q: Query): SuiClient.Outcome<SuiClient.Inspection>
    requires IsPointLookup(q)
  {
    SuiClient.Inspect(c, SuiClient.GetResult(QueryKey(q)))
  }

  /**
   * `getResult`: a student-only query lists the mirror, newest update first; a full key asks the
   * ledger and falls back to the mirror's first record with the key only when the ledger throws;
   * anything else is not found.
   */
  function GetResult(c: SuiClient.Client, mirror: seq<Record>, q: Query, store: StoreStatus): (r: Response)
    ensures IsStudentListing(q) && store.Down? ==> r == ServerError(store.error)
    ensures IsStudentListing(q) && store.Up? ==>
              var theirs := ForStudent(mirror, q.studentId.value);
              && (theirs == [] ==> r == Response(404, Failed(NoResultsForStudent)))
              && (theirs != [] ==>
                    && r.status == 200 && r.body.Listing? && r.body.message == ListedMessage
                    && SortedByUpdatedDesc(r.body.data)
                    && multiset(r.body.data) == multiset(theirs)
                    && r.body.count == |r.body.data| == |theirs|)
    ensures IsPointLookup(q) && GetLedger(c, q).Returned? ==>
              r == Response(200, FromBlockchain(FromBlockchainMessage, GetLedger(c, q).value))
    ensures IsPointLookup(q) && GetLedger(c, q).Threw? && store.Down? ==> r == ServerError(store.error)
    ensures IsPointLookup(q) && GetLedger(c, q).Threw? && store.Up? ==>
              match FindOne(mirror, QueryKey(q))
              case Some(rec) => r == Response(200, FromDatabase(FromDatabaseMessage, rec))
              case None => r == Response(404, Failed(ResultNotFound))
    ensures !IsStudentListing(q) && !IsPointLookup(q) ==> r == Response(404, Failed(ResultNotFound))
  {
    if IsStudentListing(q) then
      if store.Down? then ServerError(store.error)
      else
        var results := SortByUpdatedDesc(ForStudent(mirror, q.studentId.value));
        if |results| == 0 then Response(404, Failed(NoResultsForStudent))
        else Response(200, Listing(ListedMessage, results, |results|))
    else if IsPointLookup(q) then
      match GetLedger(c, q)
      case Returned(v) => Response(200, FromBlockchain(FromBlockchainMessage, v))
      case Threw(_) =>
        if store.Down? then ServerError(store.error)
        else match FindOne(mirror, QueryKey(q))
          case Some(rec) => Response(200, FromDatabase(FromDatabaseMessage, rec))
          case None => Response(404, Failed(ResultNotFound))
    else Response(404, Failed(ResultNotFound))
  }

  /** `listTxHashes`: the truthy `txHash` values of the student's records, in collection order. */
  function ListTxHashes(mirror: seq<Record>, studentId: Option<string>, store: StoreStatus): (r: Response)
    ensures !Truthy(studentId) ==> r == Response(400, Failed(StudentIdRequired))
    ensures Truthy(studentId) && store.Down? ==> r == ServerError(store.error)
    ensures Truthy(studentId) && store.Up? ==>
              && r.status == 200 && r.body.TxHashList? && r.body.studentId == studentId.value
              && r.body.txHashes == TxHashes(ForStudent(mirror, studentId.value))
              && r.body.count == |r.body.txHashes|
  {
    if !Truthy(studentId) then Response(400, Failed(StudentIdRequired))
    else if store.Down? then ServerError(store.error)
    else
      var hashes := TxHashes(ForStudent(mirror, studentId.value));
      Response(200, TxHashList(studentId.value, hashes, |hashes|))
  }

  /** The externally visible effects of a handler, in the order it performs them. */
  datatype Effect =
    | LedgerSubmit(invocation: SuiClient.Invocation)
    | MirrorCreate(draft: Draft)
    | MirrorFindOneAndUpdate(key: SuiClient.Key, grade: string, updatedAt: int, txHash: Option<string>)

  /** The service object: the ledger client and the mirror collection it writes. */
  class ResultService {
    const client: SuiClient.Client
    var mirror: seq<Record>
    ghost var trace: seq<Effect>

    constructor (client: SuiClient.Client, mirror: seq<Record>)
      ensures this.client == client && this.mirror == mirror && trace == []
    {
      this.client := client;
      this.mirror := mirror;
      trace := [];
    }

    /** `addResult`: one ledger submission, then (only if it returned) one mirror create. */
    method AddResult(body: SuiClient.ResultData, store: StoreStatus, constructedAt: int, savedAt: int)
      returns (response: Response)
      modifies this
      ensures Step(response, mirror) == AddStep(client, old(mirror), body, store, constructedAt, savedAt)
      ensures trace == old(trace) + [LedgerSubmit(SuiClient.Build(client.cfg, client.sender, SuiClient.AddResult(body)))]
                       + (if AddLedger(client, body).Returned?
                          then [MirrorCreate(DraftOf(body, TxHashOf(AddLedger(client, body).value)))]
                          else [])
    {
      var call := SuiClient.AddResult(body);
      trace := trace + [LedgerSubmit(SuiClient.Build(client.cfg, client.sender, call))];
      var outcome := SuiClient.Execute(client, call);
      match outcome {
        case Threw(e) =>
          response := ServerError(e);
        case Returned(receipt) =>
          var txHash := TxHashOf(receipt);
          var draft := DraftOf(body, txHash);
          trace := trace + [MirrorCreate(draft)];
          // Validation runs before any storage I/O, so an invalid draft fails even with the store down.
          var created := Create(draft, constructedAt, savedAt);
          match created {
            case Failure(e) =>
              response := ServerError(e);
            case Success(rec) =>
              if store.Down? {
                response := ServerError(store.error);
              } else {
                mirror := mirror + [rec];
                response := Response(200, Added(AddedMessage, receipt, txHash));
              }
          }
      }
    }

    /** `updateResult`: one ledger submission, then (only if it returned) one find-one-and-update. */
    method UpdateResult(body: UpdateBody, store: StoreStatus, now: int) returns (response: Response)
      modifies this
      ensures Step(response, mirror) == UpdateStep(client, old(mirror), body, store, now)
      ensures trace == old(trace)
                       + [LedgerSubmit(SuiClient.Build(client.cfg, client.sender,
                                                       SuiClient.UpdateGrade(KeyOf(body), body.newGrade)))]
                       + (if UpdateLedger(client, body).Returned?
                          then [MirrorFindOneAndUpdate(KeyOf(body), body.newGrade, now,
                                                       TxHashOf(UpdateLedger(client, body).value))]
                          else [])
    {
      var key := KeyOf(body);
      var call := SuiClient.UpdateGrade(key, body.newGrade);
      trace := trace + [LedgerSubmit(SuiClient.Build(client.cfg, client.sender, call))];
      var outcome := SuiClient.Execute(client, call);
      match outcome {
        case Threw(e) =>
          response := ServerError(e);
        case Returned(receipt) =>
          var txHash := TxHashOf(receipt);
          trace := trace + [MirrorFindOneAndUpdate(key, body.newGrade, now, txHash)];
          if store.Down? {
            response := ServerError(store.error);
          } else {
            var found := FirstMatch(mirror, key);
            if found.Some? {
              var i := found.value;
              mirror := mirror[i := Patch(mirror[i], body.newGrade, now, txHash)];
            }
            response := Response(200, Updated(UpdatedMessage, receipt, txHash));
          }
      }
    }
  }
}
