/**
 * The mirror's document shape: the declared paths, their defaults, the `required` validation
 * on creation, and the pre-save hook that refreshes `updatedAt`. Times are integers
 * (milliseconds since the epoch) supplied by the caller.
 */
module ResultModel {
  import opened Common

  /** A stored result document, including the `txHash` the controller writes. */
  datatype Record = Record(
    studentId: string,
    courseCode: string,
    grade: string,
    semester: string,
    timestamp: int,
    updatedAt: int,
    txHash: Option<string>)

  /** The fields a caller hands to `Result.create`. */
  datatype Draft = Draft(studentId: string, courseCode: string, grade: string, semester: string, txHash: Option<string>)

  /** The paths the schema declares. */
  function SchemaPaths(): (p: set<string>)
    ensures |p| == 6
    ensures "txHash" !in p
    ensures {"studentId", "courseCode", "grade", "semester"} <= p
  {
    {"studentId", "courseCode", "grade", "semester", "timestamp", "updatedAt"}
  }

  /** The four required string paths, in declaration order, paired with the draft's values. */
  function RequiredValues(d: Draft): seq<(string, string)>
  {
    [("studentId", d.studentId), ("courseCode", d.courseCode), ("grade", d.grade), ("semester", d.semester)]
  }

  /** The required paths whose value is missing; a required string rejects the empty string. */
  function MissingPaths(fields: seq<(string, string)>): (missing: seq<string>)
    ensures |missing| <= |fields|
    ensures forall p :: p in missing ==> exists i :: 0 <= i < |fields| && fields[i] == (p, "")
    ensures forall i :: 0 <= i < |fields| && fields[i].1 == "" ==> fields[i].0 in missing
    ensures missing == [] <==> forall i :: 0 <= i < |fields| ==> fields[i].1 != ""
  {
    if fields == [] then []
    else (if fields[0].1 == "" then [fields[0].0] else []) + MissingPaths(fields[1..])
  }

  function RequiredMessage(path: string): string
  {
    path + ": Path `" + path + "` is required."
  }

  function JoinMessages(paths: seq<string>): string
  {
    if paths == [] then ""
    else if |paths| == 1 then RequiredMessage(paths[0])
    else RequiredMessage(paths[0]) + ", " + JoinMessages(paths[1..])
  }

  /** The error a failed `required` validation throws, naming every missing path. */
  function ValidationError(missing: seq<string>): Thrown
  {
    Error("Result validation failed: " + JoinMessages(missing))
  }

  /** A fresh document: `timestamp` and `updatedAt` default to the construction time. */
  function WithDefaults(d: Draft, now: int): (r: Record)
    ensures r.timestamp == now && r.updatedAt == now
  {
    Record(d.studentId, d.courseCode, d.grade, d.semester, now, now, d.txHash)
  }

  /** The pre-save hook: overwrite `updatedAt` with the save time and touch nothing else. */
  function PreSave(r: Record, now: int): (s: Record)
    ensures s.updatedAt == now
    ensures s.(updatedAt := r.updatedAt) == r
  {
    r.(updatedAt := now)
  }

  /**
   * `Result.create`: build the document with its defaults at `constructedAt`, validate the required
   * paths, and run the pre-save hook at `savedAt`.
   */
  function Create(d: Draft, constructedAt: int, savedAt: int): (r: Result<Record, Thrown>)
    ensures r.Success? <==> d.studentId != "" && d.courseCode != "" && d.grade != "" && d.semester != ""
    ensures r.Success? ==>
              && r.value.studentId == d.studentId && r.value.courseCode == d.courseCode
              && r.value.grade == d.grade && r.value.semester == d.semester
              && r.value.txHash == d.txHash
              && r.value.timestamp == constructedAt
              && r.value.updatedAt == savedAt
    ensures r.Failure? ==> r.error == ValidationError(MissingPaths(RequiredValues(d)))
  {
    var fields := RequiredValues(d);
    var missing := MissingPaths(fields);
    if missing != [] then Failure(ValidationError(missing))
    else
      assert fields[0].1 != "" && fields[1].1 != "" && fields[2].1 != "" && fields[3].1 != "";
      Success(PreSave(WithDefaults(d, constructedAt), savedAt))
  }

  /** The paths that survive Mongoose's default strict mode: written paths the schema declares. */
  function StrictCast(declared: set<string>, written: set<string>): (kept: set<string>)
    ensures kept <= written && kept <= declared
    ensures forall p :: p in written && p in declared ==> p in kept
  {
    written * declared
  }

  /** The paths the controller writes on creation and on update. */
  function CreatedPaths(): set<string>
  {
    {"studentId", "courseCode", "grade", "semester", "txHash"}
  }

  function UpdatedPaths(): set<string>
  {
    {"grade", "updatedAt", "txHash"}
  }

  /** As declared, the schema silently drops the `txHash` the controller writes, on create and on update. */
  lemma TxHashDroppedAsDeclared()
    ensures "txHash" in CreatedPaths() && "txHash" !in StrictCast(SchemaPaths(), CreatedPaths())
    ensures "txHash" in UpdatedPaths() && "txHash" !in StrictCast(SchemaPaths(), UpdatedPaths())
  {
  }

  /** The schema with the missing `txHash` path declared; the rest of the model stores records of this shape. */
  function CorrectedSchemaPaths(): (p: set<string>)
    ensures p == SchemaPaths() + {"txHash"}
    ensures StrictCast(p, CreatedPaths()) == CreatedPaths()
    ensures StrictCast(p, UpdatedPaths()) == UpdatedPaths()
  {
    {"studentId", "courseCode", "grade", "semester", "timestamp", "updatedAt", "txHash"}
  }
}
