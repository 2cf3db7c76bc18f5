/** Matching submit results to inserts, and the dead letters that come out of it (dlq.go). */
module DeadLetters {
  import opened Basics
  import opened Rows
  import Decimal
  import Utf8

  datatype SubmitResult = SubmitResult(correlationID: Text, err: Text, reason: Text)

  datatype DlqRow = DlqRow(
    id: Int64,
    createdAt: Time,
    producerID: Text,
    jobType: Text,
    payload: Text,
    runAt: Time,
    traceID: Text,
    shadow: bool,
    reason: Text,
    errorMessage: Text)

  datatype MapError =
    | LengthMismatch
    | DuplicateInsert(cid: Text)
    | DuplicateResult(cid: Text)
    | UnknownResult(cid: Text)

  const DLQ_ERROR_MESSAGE_MAX := 4096

  /** "unspecified" */
  const DLQ_REASON_UNSPECIFIED: Text := [117, 110, 115, 112, 101, 99, 105, 102, 105, 101, 100]

  // ---- What a consistent answer is -------------------------------------------------------

  ghost predicate Known(inserts: seq<ParsedInsert>, cid: Text) {
    exists p :: p in inserts && Cid(p) == cid
  }

  ghost predicate DistinctCids(inserts: seq<ParsedInsert>) {
    forall i, j :: 0 <= i < j < |inserts| ==> Cid(inserts[i]) != Cid(inserts[j])
  }

  ghost predicate DistinctResults(results: seq<SubmitResult>) {
    forall i, j :: 0 <= i < j < |results| ==> results[i].correlationID != results[j].correlationID
  }

  ghost predicate Consistent(inserts: seq<ParsedInsert>, results: seq<SubmitResult>) {
    && |results| == |inserts|
    && DistinctCids(inserts)
    && DistinctResults(results)
    && forall r :: r in results ==> Known(inserts, r.correlationID)
  }

  ghost predicate Repeated(inserts: seq<ParsedInsert>, cid: Text) {
    exists i, j :: 0 <= i < j < |inserts| && Cid(inserts[i]) == cid == Cid(inserts[j])
  }

  ghost predicate Explains(inserts: seq<ParsedInsert>, results: seq<SubmitResult>, e: MapError) {
    match e
    case LengthMismatch => |results| != |inserts|
    case DuplicateInsert(cid) =>
      && |results| == |inserts|
      && Repeated(inserts, cid)
    case DuplicateResult(cid) =>
      && |results| == |inserts| && DistinctCids(inserts)
      && exists i, j :: 0 <= i < j < |results| && results[i].correlationID == cid == results[j].correlationID
    case UnknownResult(cid) =>
      && |results| == |inserts| && DistinctCids(inserts)
      && !Known(inserts, cid)
      && exists r :: r in results && r.correlationID == cid
  }

  // ---- The dead letters of an answer ------------------------------------------------------

  function Letter(p: ParsedInsert, r: SubmitResult): DlqRow {
    DlqRow(p.id, p.createdAt, p.producerID, p.jobType, p.payload, p.runAt, p.traceID, p.shadow,
           if r.reason == [] then DLQ_REASON_UNSPECIFIED else r.reason,
           Utf8.Truncate(r.err, DLQ_ERROR_MESSAGE_MAX))
  }

  /** The row with a correlation id; among equal ids, the last one, as a Go map keeps it. */
  function Find(inserts: seq<ParsedInsert>, cid: Text): (p: ParsedInsert)
    requires Known(inserts, cid)
    ensures p in inserts && Cid(p) == cid
  {
    var last := inserts[|inserts| - 1];
    if Cid(last) == cid then last
    else
      assert forall q :: q in inserts && q != last ==> q in inserts[..|inserts| - 1];
      Find(inserts[..|inserts| - 1], cid)
  }

  ghost predicate AllKnown(inserts: seq<ParsedInsert>, results: seq<SubmitResult>) {
    forall r :: r in results ==> Known(inserts, r.correlationID)
  }

  ghost function LetterOf(inserts: seq<ParsedInsert>, r: SubmitResult): seq<DlqRow>
    requires Known(inserts, r.correlationID)
  {
    if r.err == [] then [] else [Letter(Find(inserts, r.correlationID), r)]
  }

  ghost function Letters(inserts: seq<ParsedInsert>, results: seq<SubmitResult>): seq<DlqRow>
    requires AllKnown(inserts, results)
  {
    if results == [] then []
    else
      var last := |results| - 1;
      assert results[last] in results;
      Letters(inserts, results[..last]) + LetterOf(inserts, results[last])
  }

  /** The first loop: rows by correlation id. */
  method IndexInserts(inserts: seq<ParsedInsert>) returns (r: Result<map<Text, ParsedInsert>, MapError>)
    ensures r.Ok? <==> DistinctCids(inserts)
    ensures r.Ok? ==> forall cid :: cid in r.value <==> Known(inserts, cid)
    ensures r.Ok? ==> forall cid :: cid in r.value ==> r.value[cid] in inserts && Cid(r.value[cid]) == cid
    ensures r.Err? ==> r.error.DuplicateInsert? && Repeated(inserts, r.error.cid)
  {
    var insertByID: map<Text, ParsedInsert> := map[];
    for i := 0 to |inserts|
      invariant DistinctCids(inserts[..i])
      invariant forall cid :: cid in insertByID <==> Known(inserts[..i], cid)
      invariant forall cid :: cid in insertByID ==> insertByID[cid] in inserts && Cid(insertByID[cid]) == cid
    {
      var cid := Cid(inserts[i]);
      assert inserts[..i + 1] == inserts[..i] + [inserts[i]];
      if cid in insertByID {
        var p :| p in inserts[..i] && Cid(p) == cid;
        var j :| 0 <= j < i && inserts[j] == p;
        return Err(DuplicateInsert(cid));
      }
      KnownAppend(inserts[..i], inserts[i]);
      insertByID := insertByID[cid := inserts[i]];
    }
    assert inserts[..|inserts|] == inserts;
    return Ok(insertByID);
  }

  lemma KnownAppend(inserts: seq<ParsedInsert>, p: ParsedInsert)
    ensures forall cid :: Known(inserts + [p], cid) <==> Known(inserts, cid) || cid == Cid(p)
    ensures DistinctCids(inserts + [p]) <==> DistinctCids(inserts) && !Known(inserts, Cid(p))
  {
    assert p in inserts + [p];
    forall cid | Known(inserts, cid) ensures Known(inserts + [p], cid) {
      var q :| q in inserts && Cid(q) == cid;
      assert q in inserts + [p];
    }
    if DistinctCids(inserts + [p]) {
      forall i, j | 0 <= i < j < |inserts| ensures Cid(inserts[i]) != Cid(inserts[j]) {
        assert (inserts + [p])[i] == inserts[i] && (inserts + [p])[j] == inserts[j];
      }
      forall i | 0 <= i < |inserts| ensures Cid(inserts[i]) != Cid(p) {
        assert (inserts + [p])[i] == inserts[i] && (inserts + [p])[|inserts|] == p;
      }
    }
  }

  method MapResults(inserts: seq<ParsedInsert>, results: seq<SubmitResult>)
    returns (r: Result<seq<DlqRow>, MapError>)
    ensures r.Ok? <==> Consistent(inserts, results)
    ensures r.Ok? ==> r.value == Letters(inserts, results) && AnswersInOrder(inserts, results, r.value)
    ensures r.Err? ==> Explains(inserts, results, r.error)
  {
    hide Cid, Letter, Find, Letters, LetterOf;
    if |results| != |inserts| {
      return Err(LengthMismatch);
    }
    var index := IndexInserts(inserts);
    if index.Err? {
      return Err(index.error);
    }
    var insertByID := index.value;

    var seen: set<Text> := {};
    var rows := [];
    NoLetters(inserts, results);
    for k := 0 to |results|
      invariant AllKnown(inserts, results[..k]) && DistinctResults(results[..k])
      invariant forall cid :: cid in seen <==> Answered(results[..k], cid)
      invariant rows == Letters(inserts, results[..k])
    {
      var r := results[k];
      if r.correlationID in seen {
        RepeatedResult(results, k);
        return Err(DuplicateResult(r.correlationID));
      }
      seen := seen + {r.correlationID};
      if r.correlationID !in insertByID {
        assert r in results;
        return Err(UnknownResult(r.correlationID));
      }
      var p := insertByID[r.correlationID];
      AnswerNext(inserts, results, k);
      LetterNext(inserts, p, r);
      if r.err == [] {
        continue;
      }
      rows := rows + [Letter(p, r)];
    }
    assert results[..|results|] == results;
    LettersAnswerInOrder(inserts, results);
    return Ok(rows);
  }

  lemma NoLetters(inserts: seq<ParsedInsert>, results: seq<SubmitResult>)
    ensures AllKnown(inserts, results[..0]) && Letters(inserts, results[..0]) == []
  {
  }

  lemma LetterNext(inserts: seq<ParsedInsert>, p: ParsedInsert, r: SubmitResult)
    requires DistinctCids(inserts) && p in inserts && Cid(p) == r.correlationID
    ensures Known(inserts, r.correlationID)
    ensures LetterOf(inserts, r) == if r.err == [] then [] else [Letter(p, r)]
  {
    hide Cid, Letter;
    SameCidSameRow(inserts, p, Find(inserts, r.correlationID));
  }

  ghost predicate Answered(results: seq<SubmitResult>, cid: Text) {
    exists r :: r in results && r.correlationID == cid
  }

  lemma AnswerAppend(inserts: seq<ParsedInsert>, results: seq<SubmitResult>, r: SubmitResult)
    requires AllKnown(inserts, results) && Known(inserts, r.correlationID)
    ensures AllKnown(inserts, results + [r])
    ensures Letters(inserts, results + [r]) == Letters(inserts, results) + LetterOf(inserts, r)
    ensures forall cid :: Answered(results + [r], cid) <==> Answered(results, cid) || cid == r.correlationID
    ensures DistinctResults(results) && !Answered(results, r.correlationID) ==> DistinctResults(results + [r])
  {
    assert r in results + [r];
    assert (results + [r])[..|results|] == results;
    forall cid | Answered(results, cid) ensures Answered(results + [r], cid) {
      var q :| q in results && q.correlationID == cid;
      assert q in results + [r];
    }
  }

  lemma AnswerNext(inserts: seq<ParsedInsert>, results: seq<SubmitResult>, k: nat)
    requires k < |results| && AllKnown(inserts, results[..k]) && Known(inserts, results[k].correlationID)
    ensures AllKnown(inserts, results[..k + 1])
    ensures Letters(inserts, results[..k + 1]) == Letters(inserts, results[..k]) + LetterOf(inserts, results[k])
    ensures forall cid :: Answered(results[..k + 1], cid) <==>
              Answered(results[..k], cid) || cid == results[k].correlationID
    ensures DistinctResults(results[..k]) && !Answered(results[..k], results[k].correlationID) ==>
              DistinctResults(results[..k + 1])
  {
    assert results[..k + 1] == results[..k] + [results[k]];
    AnswerAppend(inserts, results[..k], results[k]);
  }

  lemma RepeatedResult(results: seq<SubmitResult>, k: nat)
    requires k < |results| && Answered(results[..k], results[k].correlationID)
    ensures exists i, j ::
              0 <= i < j < |results| && results[i].correlationID == results[k].correlationID == results[j].correlationID
  {
    var q :| q in results[..k] && q.correlationID == results[k].correlationID;
    var i :| 0 <= i < k && results[..k][i] == q;
    assert results[i] == q;
  }

  lemma SameCidSameRow(inserts: seq<ParsedInsert>, p: ParsedInsert, q: ParsedInsert)
    requires DistinctCids(inserts) && p in inserts && q in inserts && Cid(p) == Cid(q)
    ensures p == q
  {
    var i :| 0 <= i < |inserts| && inserts[i] == p;
    var j :| 0 <= j < |inserts| && inserts[j] == q;
  }

  // ---- What success guarantees ------------------------------------------------------------

  ghost function Cids(inserts: seq<ParsedInsert>): seq<Text> {
    seq(|inserts|, i requires 0 <= i < |inserts| => Cid(inserts[i]))
  }

  ghost function ResultCids(results: seq<SubmitResult>): seq<Text> {
    seq(|results|, i requires 0 <= i < |results| => results[i].correlationID)
  }

  /** Equal lengths without repetitions or strangers leave no insert unanswered: the pigeonhole principle. */
  lemma EveryInsertAnswered(inserts: seq<ParsedInsert>, results: seq<SubmitResult>)
    requires Consistent(inserts, results)
    ensures forall p :: p in inserts ==> Answered(results, Cid(p))
  {
    var asked, answered := Cids(inserts), ResultCids(results);
    var a, b := set x | x in asked, set x | x in answered;
    DistinctSize(asked);
    DistinctSize(answered);
    forall x | x in b ensures x in a {
      var j :| 0 <= j < |results| && answered[j] == x;
      assert results[j] in results;
      var p :| p in inserts && Cid(p) == x;
      var i :| 0 <= i < |inserts| && inserts[i] == p;
      assert asked[i] == x;
    }
    SubsetOfEqualSize(b, a);
    forall p | p in inserts ensures Answered(results, Cid(p)) {
      var i :| 0 <= i < |inserts| && inserts[i] == p;
      assert asked[i] in a;
      var j :| 0 <= j < |results| && answered[j] == Cid(p);
      assert results[j] in results;
    }
  }

  lemma AnsweredOnce(results: seq<SubmitResult>, r: SubmitResult, q: SubmitResult)
    requires DistinctResults(results) && r in results && q in results && r.correlationID == q.correlationID
    ensures r == q
  {
    var i :| 0 <= i < |results| && results[i] == r;
    var j :| 0 <= j < |results| && results[j] == q;
  }

  ghost predicate Rejects(inserts: seq<ParsedInsert>, r: SubmitResult, d: DlqRow) {
    r.err != [] && Known(inserts, r.correlationID) && d == Letter(Find(inserts, r.correlationID), r)
  }

  lemma {:induction false} LetterMembership(inserts: seq<ParsedInsert>, results: seq<SubmitResult>, d: DlqRow)
    requires AllKnown(inserts, results)
    ensures d in Letters(inserts, results) <==> exists r :: r in results && Rejects(inserts, r, d)
  {
    if results != [] {
      var rest, last := results[..|results| - 1], results[|results| - 1];
      assert last in results && results == rest + [last];
      LetterMembership(inserts, rest, d);
      assert d in LetterOf(inserts, last) <==> Rejects(inserts, last, d);
    }
  }

  /** The dead letter d was written for the insert p: it holds every field of p. */
  predicate Carries(d: DlqRow, p: ParsedInsert) {
    ParsedInsert(d.id, d.createdAt, d.producerID, d.jobType, d.payload, d.runAt, d.traceID, d.shadow) == p
  }

  /** The first bytes of an error text that may be kept. */
  function FirstBytes(err: Text): Text {
    if |err| > 4096 then err[..4096] else err
  }

  /**
   * What a rejected insert is written down as: all its own fields; the reason given, or "unspecified" if none was; and
   * of the error text the characters among its first 4096 bytes, which for valid text is its longest prefix that fits.
   */
  ghost predicate WritesDown(d: DlqRow, p: ParsedInsert, r: SubmitResult) {
    && Carries(d, p)
    && d.reason == (if r.reason == [] then [117, 110, 115, 112, 101, 99, 105, 102, 105, 101, 100] else r.reason)
    && (exists pieces :: Utf8.Reads(FirstBytes(r.err), pieces) && d.errorMessage == Utf8.KeepCharacters(pieces))
    && Utf8.Valid(d.errorMessage) && |d.errorMessage| <= 4096
    && (Utf8.Valid(r.err) ==>
          d.errorMessage <= r.err && Utf8.LongestFit(r.err, |FirstBytes(r.err)|, |d.errorMessage|))
  }

  lemma LetterWritesDown(p: ParsedInsert, r: SubmitResult)
    ensures WritesDown(Letter(p, r), p, r)
  {
    hide Utf8.Truncate, Utf8.Valid, Utf8.LongestFit, Utf8.Reads, Utf8.KeepCharacters;
    Utf8.TruncateIsLongestFit(r.err, DLQ_ERROR_MESSAGE_MAX);
    var pieces := Utf8.CanBeRead(FirstBytes(r.err));
    Utf8.TruncateLeavesOutExactly(r.err, DLQ_ERROR_MESSAGE_MAX, pieces);
  }

  /** There is only one way to write a rejection down. */
  lemma WrittenDownOneWay(d: DlqRow, p: ParsedInsert, r: SubmitResult)
    requires WritesDown(d, p, r)
    ensures d == Letter(p, r)
  {
    hide Utf8.Truncate, Utf8.Valid, Utf8.LongestFit, Utf8.Reads, Utf8.KeepCharacters;
    var pieces :| Utf8.Reads(FirstBytes(r.err), pieces) && d.errorMessage == Utf8.KeepCharacters(pieces);
    Utf8.TruncateLeavesOutExactly(r.err, DLQ_ERROR_MESSAGE_MAX, pieces);
  }

  function Rejections(results: seq<SubmitResult>): seq<SubmitResult> {
    if results == [] then []
    else
      var last := results[|results| - 1];
      Rejections(results[..|results| - 1]) + if last.err != [] then [last] else []
  }

  ghost predicate WritesInsert(inserts: seq<ParsedInsert>, r: SubmitResult, d: DlqRow) {
    exists p :: p in inserts && Cid(p) == r.correlationID && WritesDown(d, p, r)
  }

  /** The letters are those of the rejections, in the order of the answer. */
  ghost predicate AnswersInOrder(inserts: seq<ParsedInsert>, results: seq<SubmitResult>, letters: seq<DlqRow>) {
    && |letters| == |Rejections(results)|
    && forall i :: 0 <= i < |letters| ==> WritesInsert(inserts, Rejections(results)[i], letters[i])
  }

  lemma LetterWritesInsert(inserts: seq<ParsedInsert>, r: SubmitResult)
    requires Known(inserts, r.correlationID)
    ensures WritesInsert(inserts, r, Letter(Find(inserts, r.correlationID), r))
  {
    hide WritesDown, Letter, Cid;
    LetterWritesDown(Find(inserts, r.correlationID), r);
  }

  lemma {:induction false} LettersAnswerInOrder(inserts: seq<ParsedInsert>, results: seq<SubmitResult>)
    requires AllKnown(inserts, results)
    ensures AnswersInOrder(inserts, results, Letters(inserts, results))
  {
    if results != [] {
      var rest, last := results[..|results| - 1], results[|results| - 1];
      assert results == rest + [last];
      LettersLast(inserts, results, rest, last);
      LettersAnswerInOrder(inserts, rest);
      hide Letters, AllKnown, Known, WritesInsert, Letter, Find;
      if last.err != [] {
        LetterWritesInsert(inserts, last);
      }
    }
  }

  /** The dead letters are exactly the rejections, each written down for the insert it answers. */
  lemma LettersAreTheRejections(inserts: seq<ParsedInsert>, results: seq<SubmitResult>, d: DlqRow)
    requires AllKnown(inserts, results) && DistinctCids(inserts)
    ensures d in Letters(inserts, results) <==>
            exists r :: r in results && r.err != [] && WritesInsert(inserts, r, d)
  {
    hide Letters, WritesDown, Letter, Cid, Find;
    LetterMembership(inserts, results, d);
    if d in Letters(inserts, results) {
      var r :| r in results && Rejects(inserts, r, d);
      LetterWritesInsert(inserts, r);
    }
    forall r | r in results && r.err != [] && WritesInsert(inserts, r, d) ensures Rejects(inserts, r, d) {
      var p :| p in inserts && Cid(p) == r.correlationID && WritesDown(d, p, r);
      SameCidSameRow(inserts, p, Find(inserts, r.correlationID));
      WrittenDownOneWay(d, p, r);
    }
  }

  ghost predicate Dead(letters: seq<DlqRow>, p: ParsedInsert) {
    exists d :: d in letters && Carries(d, p)
  }

  ghost function Accepted(inserts: seq<ParsedInsert>, results: seq<SubmitResult>): set<ParsedInsert> {
    set p | p in inserts && exists r :: r in results && r.correlationID == Cid(p) && r.err == []
  }

  /** A successful mapping decides every insert one way and not the other. */
  lemma EveryInsertDecided(inserts: seq<ParsedInsert>, results: seq<SubmitResult>, p: ParsedInsert)
    requires Consistent(inserts, results) && p in inserts
    ensures (p in Accepted(inserts, results)) != Dead(Letters(inserts, results), p)
  {
    EveryInsertAnswered(inserts, results);
    var r :| r in results && r.correlationID == Cid(p);
    assert Known(inserts, Cid(p));
    SameCidSameRow(inserts, p, Find(inserts, Cid(p)));
    if r.err == [] {
      if Dead(Letters(inserts, results), p) {
        var d :| d in Letters(inserts, results) && Carries(d, p);
        LetterMembership(inserts, results, d);
      }
    } else {
      LetterMembership(inserts, results, Letter(p, r));
      assert Rejects(inserts, r, Letter(p, r));
      assert Carries(Letter(p, r), p);
      if q :| q in results && q.correlationID == Cid(p) && q.err == [] {
        AnsweredOnce(results, r, q);
      }
    }
  }

  ghost predicate DistinctLetters(letters: seq<DlqRow>) {
    forall i, j :: 0 <= i < j < |letters| ==> letters[i].id != letters[j].id
  }

  /** No insert is written twice. */
  lemma {:induction false} LettersAreDistinct(inserts: seq<ParsedInsert>, results: seq<SubmitResult>)
    requires AllKnown(inserts, results) && DistinctResults(results)
    ensures forall d :: d in Letters(inserts, results) ==> Answered(results, Decimal.FormatInt(d.id))
    ensures DistinctLetters(Letters(inserts, results))
  {
    if results != [] {
      var rest, last := results[..|results| - 1], results[|results| - 1];
      assert results == rest + [last];
      LettersLast(inserts, results, rest, last);
      hide Letters, AllKnown, DistinctResults, Answered, Decimal.FormatInt;
      NotAnsweredTwice(rest, last);
      LettersAreDistinct(inserts, rest);
      LastIsAnswered(rest, last);
    }
  }

  lemma LastIsAnswered(rest: seq<SubmitResult>, last: SubmitResult)
    ensures Answered(rest + [last], last.correlationID)
  {
    assert last in rest + [last];
  }

  lemma NotAnsweredTwice(rest: seq<SubmitResult>, last: SubmitResult)
    requires DistinctResults(rest + [last])
    ensures DistinctResults(rest) && !Answered(rest, last.correlationID)
    ensures forall cid :: Answered(rest, cid) ==> Answered(rest + [last], cid)
  {
    var all := rest + [last];
    assert all[|rest|] == last;
    forall i, j | 0 <= i < j < |rest| ensures rest[i].correlationID != rest[j].correlationID {
      assert all[i] == rest[i] && all[j] == rest[j];
    }
    forall i | 0 <= i < |rest| ensures rest[i].correlationID != last.correlationID {
      assert all[i] == rest[i];
    }
    assert forall r :: r in rest ==> r in all;
  }

  /** A dead letter is an insert of the batch, with the reason and the error text of its own rejection. */
  lemma LetterIsSound(inserts: seq<ParsedInsert>, results: seq<SubmitResult>, d: DlqRow)
    requires AllKnown(inserts, results) && d in Letters(inserts, results)
    ensures exists p :: p in inserts && Carries(d, p)
    ensures exists r :: r in results && r.err != [] && WritesInsert(inserts, r, d)
    ensures Utf8.Valid(d.errorMessage) && |d.errorMessage| <= DLQ_ERROR_MESSAGE_MAX && d.reason != []
  {
    hide Letters, Letter, Cid, Find;
    LetterMembership(inserts, results, d);
    var r :| r in results && Rejects(inserts, r, d);
    LetterWritesInsert(inserts, r);
    var p :| p in inserts && Cid(p) == r.correlationID && WritesDown(d, p, r);
  }

  lemma KnownApart(inserts: seq<ParsedInsert>, a: seq<SubmitResult>, b: seq<SubmitResult>)
    requires AllKnown(inserts, a + b)
    ensures AllKnown(inserts, a) && AllKnown(inserts, b)
  {
    hide Known;
    forall r | r in a || r in b ensures Known(inserts, r.correlationID) {
      assert r in a + b;
    }
  }

  /** The letters of an answer whose last result is r. */
  lemma LettersLast(inserts: seq<ParsedInsert>, all: seq<SubmitResult>, front: seq<SubmitResult>, r: SubmitResult)
    requires all == front + [r] && AllKnown(inserts, all)
    ensures AllKnown(inserts, front) && Known(inserts, r.correlationID)
    ensures Letters(inserts, all) == Letters(inserts, front) + LetterOf(inserts, r)
  {
    hide Known, LetterOf;
    assert all[..|all| - 1] == front && all[|all| - 1] == r;
    KnownApart(inserts, front, [r]);
  }

  lemma Regroup<T>(a: seq<T>, b: seq<T>, c: seq<T>)
    ensures a + (b + c) == a + b + c
  {
  }

  lemma {:induction false} LettersSplit(inserts: seq<ParsedInsert>, a: seq<SubmitResult>, b: seq<SubmitResult>)
    requires AllKnown(inserts, a + b)
    ensures AllKnown(inserts, a) && AllKnown(inserts, b)
    ensures Letters(inserts, a + b) == Letters(inserts, a) + Letters(inserts, b)
  {
    KnownApart(inserts, a, b);
    if b == [] {
      assert a + b == a;
    } else {
      hide Letters, LetterOf, AllKnown, Known;
      var rest, last := b[..|b| - 1], b[|b| - 1];
      assert b == rest + [last];
      Regroup(a, rest, [last]);
      LettersLast(inserts, a + b, a + rest, last);
      LettersLast(inserts, b, rest, last);
      LettersSplit(inserts, a, rest);
      Regroup(Letters(inserts, a), Letters(inserts, rest), LetterOf(inserts, last));
    }
  }

  lemma TakeOut(rest: seq<SubmitResult>, r: SubmitResult, front: seq<SubmitResult>, back: seq<SubmitResult>)
    requires multiset(rest + [r]) == multiset(front + ([r] + back))
    ensures multiset(rest) == multiset(front + back)
  {
    assert multiset(rest + [r]) == multiset(rest) + multiset{r};
    assert multiset(front + ([r] + back)) == multiset(front + back) + multiset{r};
    assert multiset(rest) == multiset(rest + [r]) - multiset{r};
  }

  lemma LettersAround(inserts: seq<ParsedInsert>, front: seq<SubmitResult>, r: SubmitResult, back: seq<SubmitResult>)
    requires AllKnown(inserts, front + ([r] + back))
    ensures AllKnown(inserts, front + back) && Known(inserts, r.correlationID)
    ensures multiset(Letters(inserts, front + ([r] + back))) ==
            multiset(Letters(inserts, front + back)) + multiset(LetterOf(inserts, r))
  {
    LettersSplit(inserts, front, [r] + back);
    LettersSplit(inserts, [r], back);
    LettersOfOne(inserts, r);
    KnownTogether(inserts, front, back);
    LettersSplit(inserts, front, back);
  }

  lemma LettersOfOne(inserts: seq<ParsedInsert>, r: SubmitResult)
    requires AllKnown(inserts, [r])
    ensures Known(inserts, r.correlationID) && Letters(inserts, [r]) == LetterOf(inserts, r)
  {
    assert r in [r] && [r][..0] == [];
  }

  lemma KnownTogether(inserts: seq<ParsedInsert>, a: seq<SubmitResult>, b: seq<SubmitResult>)
    requires AllKnown(inserts, a) && AllKnown(inserts, b)
    ensures AllKnown(inserts, a + b)
  {
    assert forall r :: r in a + b ==> r in a || r in b;
  }

  lemma SplitAt(b: seq<SubmitResult>, r: SubmitResult) returns (front: seq<SubmitResult>, back: seq<SubmitResult>)
    requires r in b
    ensures b == front + ([r] + back)
  {
    var j :| 0 <= j < |b| && b[j] == r;
    front, back := b[..j], b[j + 1..];
  }

  lemma SameMembers(a: seq<SubmitResult>, b: seq<SubmitResult>)
    requires multiset(a) == multiset(b)
    ensures |a| == |b| && forall r :: r in a <==> r in b
  {
    assert |multiset(a)| == |a| && |multiset(b)| == |b|;
    assert forall r :: r in a <==> r in multiset(a);
    assert forall r :: r in b <==> r in multiset(b);
  }

  /** courier-lib answers in its own order: the order changes nothing but the order of the dead letters. */
  lemma {:induction false} ReorderedAnswer(inserts: seq<ParsedInsert>, a: seq<SubmitResult>, b: seq<SubmitResult>)
    requires multiset(a) == multiset(b) && AllKnown(inserts, a)
    ensures AllKnown(inserts, b)
    ensures multiset(Letters(inserts, a)) == multiset(Letters(inserts, b))
    decreases |a|
  {
    SameMembers(a, b);
    if a != [] {
      var rest, last := a[..|a| - 1], a[|a| - 1];
      assert a == rest + [last];
      var front, back := SplitAt(b, last);
      TakeOut(rest, last, front, back);
      LettersAround(inserts, front, last, back);
      ReorderedAnswer(inserts, rest, front + back);
    }
  }

  lemma ReorderedAnswerIsConsistent(inserts: seq<ParsedInsert>, a: seq<SubmitResult>, b: seq<SubmitResult>)
    requires multiset(a) == multiset(b) && Consistent(inserts, a)
    ensures Consistent(inserts, b)
    ensures multiset(Letters(inserts, a)) == multiset(Letters(inserts, b))
    ensures Accepted(inserts, a) == Accepted(inserts, b)
  {
    ReorderedAnswer(inserts, a, b);
    SameMembers(a, b);
    forall i, j | 0 <= i < j < |b| ensures b[i].correlationID != b[j].correlationID {
      if b[i].correlationID == b[j].correlationID {
        AnsweredOnce(a, b[i], b[j]);
        OccursTwice(b, i, j);
        OccursOnce(a, b[i]);
      }
    }
  }

  lemma OccursTwice(s: seq<SubmitResult>, i: nat, j: nat)
    requires i < j < |s| && s[i] == s[j]
    ensures multiset(s)[s[i]] >= 2
  {
    assert s == s[..j] + s[j..];
    assert s[i] in s[..j] && s[i] in s[j..];
    assert multiset(s) == multiset(s[..j]) + multiset(s[j..]);
  }

  lemma {:induction false} OccursOnce(s: seq<SubmitResult>, r: SubmitResult)
    requires DistinctResults(s)
    ensures multiset(s)[r] <= 1
  {
    if s != [] {
      OccursOnce(s[1..], r);
      assert s == [s[0]] + s[1..];
      assert s[0] !in s[1..];
    }
  }

  /** An answer that accepts every row. */
  function AcceptAll(inserts: seq<ParsedInsert>): seq<SubmitResult> {
    seq(|inserts|, i requires 0 <= i < |inserts| => SubmitResult(Cid(inserts[i]), [], []))
  }

  /** A batch has a consistent answer exactly when no two of its rows share an id. */
  lemma AnswerableExactly(inserts: seq<ParsedInsert>)
    ensures (exists results :: Consistent(inserts, results)) <==> DistinctCids(inserts)
    ensures DistinctCids(inserts) ==> Consistent(inserts, AcceptAll(inserts))
  {
    var results := AcceptAll(inserts);
    forall r | r in results ensures Known(inserts, r.correlationID) {
      var i :| 0 <= i < |results| && results[i] == r;
      assert inserts[i] in inserts;
    }
    assert DistinctCids(inserts) ==> Consistent(inserts, results);
  }
}
