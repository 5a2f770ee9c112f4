/**
 * The observable semantics of the mirror queries the controller issues against the collection,
 * which is a sequence of records in insertion order.
 */
module MirrorQueries {
  import opened Common
  import opened ResultModel
  import SuiClient

  /** `find({ studentId })`: the student's records, in collection order. */
  function ForStudent(m: seq<Record>, studentId: string): (r: seq<Record>)
    ensures forall x :: x in r <==> x in m && x.studentId == studentId
    ensures |r| <= |m|
  {
    if m == [] then []
    else (if m[0].studentId == studentId then [m[0]] else []) + ForStudent(m[1..], studentId)
  }

  /** Appending a record extends the student's listing by that record alone, if it is theirs. */
  lemma {:induction false} ForStudentAppend(m: seq<Record>, x: Record, studentId: string)
    ensures ForStudent(m + [x], studentId) == ForStudent(m, studentId) + (if x.studentId == studentId then [x] else [])
  {
    if m == [] {
      assert m + [x] == [x];
    } else {
      assert (m + [x])[1..] == m[1..] + [x];
      ForStudentAppend(m[1..], x, studentId);
    }
  }

  predicate SortedByUpdatedDesc(s: seq<Record>)
  {
    forall i, j :: 0 <= i < j < |s| ==> s[i].updatedAt >= s[j].updatedAt
  }

  /** Put `x` in front of the first record that is not newer than it. */
  function InsertByUpdatedDesc(x: Record, s: seq<Record>): (r: seq<Record>)
    requires SortedByUpdatedDesc(s)
    ensures SortedByUpdatedDesc(r)
    ensures multiset(r) == multiset(s) + multiset{x}
    ensures |r| == |s| + 1 && (r[0] == x || (s != [] && r[0] == s[0]))
  {
    if s == [] || s[0].updatedAt <= x.updatedAt then [x] + s
    else
      var rest := InsertByUpdatedDesc(x, s[1..]);
      assert s == [s[0]] + s[1..];
      [s[0]] + rest
  }

  /** `.sort({ updatedAt: -1 })`: newest update first; records updated at the same time keep collection order. */
  function SortByUpdatedDesc(s: seq<Record>): (r: seq<Record>)
    ensures SortedByUpdatedDesc(r)
    ensures multiset(r) == multiset(s)
    ensures |r| == |s|
  {
    if s == [] then []
    else
      assert s == [s[0]] + s[1..];
      InsertByUpdatedDesc(s[0], SortByUpdatedDesc(s[1..]))
  }

  predicate Matches(r: Record, k: SuiClient.Key)
  {
    r.studentId == k.studentId && r.courseCode == k.courseCode && r.semester == k.semester
  }

  /** The position of the first record with the key, if any. */
  function FirstMatch(m: seq<Record>, k: SuiClient.Key): (i: Option<nat>)
    ensures i.Some? ==> i.value < |m| && Matches(m[i.value], k)
    ensures i.Some? ==> forall j :: 0 <= j < i.value ==> !Matches(m[j], k)
    ensures i.None? <==> forall j :: 0 <= j < |m| ==> !Matches(m[j], k)
  {
    if m == [] then None
    else if Matches(m[0], k) then Some(0)
    else match FirstMatch(m[1..], k)
      case None => None
      case Some(j) => Some(j + 1)
  }

  /** `findOne({ studentId, courseCode, semester })`: the first record with the key. */
  function FindOne(m: seq<Record>, k: SuiClient.Key): (r: Option<Record>)
    ensures r.Some? <==> exists j :: 0 <= j < |m| && Matches(m[j], k)
    ensures r.Some? ==> r.value in m && Matches(r.value, k)
  {
    match FirstMatch(m, k)
    case Some(i) => Some(m[i])
    case None => None
  }

  /** `.map(r => r.txHash).filter(Boolean)`: the truthy transaction hashes, in order. */
  function TxHashes(rs: seq<Record>): (hs: seq<string>)
    ensures |hs| <= |rs|
    ensures forall h :: h in hs ==> h != "" && exists i :: 0 <= i < |rs| && rs[i].txHash == Some(h)
    ensures forall i :: 0 <= i < |rs| && Truthy(rs[i].txHash) ==> rs[i].txHash.value in hs
  {
    if rs == [] then []
    else (if Truthy(rs[0].txHash) then [rs[0].txHash.value] else []) + TxHashes(rs[1..])
  }

  lemma {:induction false} TxHashesAppend(rs: seq<Record>, x: Record)
    ensures TxHashes(rs + [x]) == TxHashes(rs) + (if Truthy(x.txHash) then [x.txHash.value] else [])
  {
    if rs == [] {
      assert rs + [x] == [x];
    } else {
      assert (rs + [x])[1..] == rs[1..] + [x];
      TxHashesAppend(rs[1..], x);
    }
  }

  /** Appending a record without the key does not change which record `findOne` returns, and an
      appended record is found only when no earlier record has its key. */
  lemma {:induction false} FirstMatchAppend(m: seq<Record>, x: Record, k: SuiClient.Key)
    ensures FirstMatch(m, k).Some? ==> FirstMatch(m + [x], k) == FirstMatch(m, k)
    ensures FirstMatch(m, k).None? && Matches(x, k) ==> FirstMatch(m + [x], k) == Some(|m|)
    ensures FirstMatch(m, k).None? && !Matches(x, k) ==> FirstMatch(m + [x], k).None?
  {
    if m != [] {
      assert (m + [x])[1..] == m[1..] + [x];
      FirstMatchAppend(m[1..], x, k);
    }
  }
}
