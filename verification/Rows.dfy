/** Outbox rows and the decoding of INSERT events into them (wal_parser.go). */
module Rows {
  import opened Basics
  import Decimal

  /** Column names are compared with the eight outbox names and otherwise ignored. */
  datatype Column =
    | Id | CreatedAt | ProducerID | JobType | Payload | RunAt | TraceID | Shadow
    | OtherColumn(name: string)

  datatype ColumnValue = Null | Value(data: Text)

  /** A field left at its Go zero value holds 0, [] or false; the zero time is 0. */
  datatype ParsedInsert = ParsedInsert(
    id: Int64,
    createdAt: Time,
    producerID: Text,
    jobType: Text,
    payload: Text,
    runAt: Time,
    traceID: Text,
    shadow: bool)

  datatype Job = Job(
    correlationID: Text,
    producerID: Text,
    jobType: Text,
    payload: Text,
    runAt: Time,
    traceID: Text,
    shadow: bool)

  datatype ParseError = CountMismatch | BadColumn(name: Column)

  /** The list of timestamp layouts is a parameter: a text is an instant or it is not. */
  type Clock = Text -> Option<Time>

  const ZERO_ROW := ParsedInsert(0, 0, [], [], [], 0, [], false)

  const BACKSLASH: Byte := 92
  const LOWER_X: Byte := 120
  const LOWER_T: Byte := 116
  const LOWER_F: Byte := 102
  const LOWER_A: Byte := 97
  const UPPER_A: Byte := 65

  function Cid(p: ParsedInsert): Text {
    Decimal.FormatInt(p.id)
  }

  function ToJob(p: ParsedInsert): Job {
    Job(Cid(p), p.producerID, p.jobType, p.payload, p.runAt, p.traceID, p.shadow)
  }

  function HexValue(b: Byte): Option<nat> {
    if Decimal.ZERO <= b <= Decimal.ZERO + 9 then Some(b - Decimal.ZERO)
    else if LOWER_A <= b <= LOWER_A + 5 then Some(10 + b - LOWER_A)
    else if UPPER_A <= b <= UPPER_A + 5 then Some(10 + b - UPPER_A)
    else None
  }

  function HexDigit(n: nat): Byte
    requires n < 16
  {
    if n < 10 then Decimal.ZERO + n else LOWER_A + n - 10
  }

  function HexEncode(bytes: Text): Text {
    if bytes == [] then []
    else [HexDigit(bytes[0] / 16), HexDigit(bytes[0] % 16)] + HexEncode(bytes[1..])
  }

  /** hex.DecodeString: an odd length or a character that is no hex digit is an error. */
  function HexDecode(s: Text): Option<Text> {
    if s == [] then Some([])
    else if |s| == 1 then None
    else
      match (HexValue(s[0]), HexValue(s[1]), HexDecode(s[2..]))
      case (Some(hi), Some(lo), Some(rest)) =>
        assert hi < 16 && lo < 16;
        Some([16 * hi + lo] + rest)
      case _ => None
  }

  function DecodeBytea(s: Text): Option<Text> {
    if |s| >= 2 && s[0] == BACKSLASH && s[1] == LOWER_X then HexDecode(s[2..]) else Some(s)
  }

  function EncodeBytea(bytes: Text): Text {
    [BACKSLASH, LOWER_X] + HexEncode(bytes)
  }

  lemma {:induction false} HexRoundTrip(bytes: Text)
    ensures HexDecode(HexEncode(bytes)) == Some(bytes)
  {
    if bytes != [] {
      HexRoundTrip(bytes[1..]);
      assert HexEncode(bytes)[2..] == HexEncode(bytes[1..]);
      assert bytes == [bytes[0]] + bytes[1..];
    }
  }

  /** Any payload survives the server's text form of BYTEA, including one that itself starts with \x. */
  lemma ByteaRoundTrip(bytes: Text)
    ensures DecodeBytea(EncodeBytea(bytes)) == Some(bytes)
  {
    HexRoundTrip(bytes);
    assert EncodeBytea(bytes)[2..] == HexEncode(bytes);
  }

  /** One arm of the column switch; a name that is not an outbox column changes nothing. */
  function SetColumn(row: ParsedInsert, name: Column, data: Text, clock: Clock): Result<ParsedInsert, ParseError> {
    if name == Id then
      match Decimal.ParseInt64(data)
      case Some(n) => Ok(row.(id := n))
      case None => Err(BadColumn(name))
    else if name == CreatedAt then
      match clock(data)
      case Some(t) => Ok(row.(createdAt := t))
      case None => Err(BadColumn(name))
    else if name == ProducerID then Ok(row.(producerID := data))
    else if name == JobType then Ok(row.(jobType := data))
    else if name == Payload then
      match DecodeBytea(data)
      case Some(b) => Ok(row.(payload := b))
      case None => Err(BadColumn(name))
    else if name == RunAt then
      match clock(data)
      case Some(t) => Ok(row.(runAt := t))
      case None => Err(BadColumn(name))
    else if name == TraceID then Ok(row.(traceID := data))
    else if name == Shadow then Ok(row.(shadow := data == [LOWER_T]))
    else Ok(row)
  }

  function SetColumns(columns: seq<Column>, values: seq<ColumnValue>, n: nat, clock: Clock):
    Result<ParsedInsert, ParseError>
    requires n <= |columns| == |values|
  {
    if n == 0 then Ok(ZERO_ROW)
    else
      match SetColumns(columns, values, n - 1, clock)
      case Err(e) => Err(e)
      case Ok(row) =>
        match values[n - 1]
        case Null => Ok(row)
        case Value(data) => SetColumn(row, columns[n - 1], data, clock)
  }

  function ParseColumns(columns: seq<Column>, values: seq<ColumnValue>, clock: Clock):
    Result<ParsedInsert, ParseError>
  {
    if |columns| != |values| then Err(CountMismatch) else SetColumns(columns, values, |columns|, clock)
  }

  method ParseInsertColumns(columns: seq<Column>, values: seq<ColumnValue>, clock: Clock)
    returns (r: Result<ParsedInsert, ParseError>)
    ensures r == ParseColumns(columns, values, clock)
  {
    if |columns| != |values| {
      return Err(CountMismatch);
    }
    var row := ZERO_ROW;
    for i := 0 to |columns|
      invariant SetColumns(columns, values, i, clock) == Ok(row)
    {
      var v := values[i];
      if v.Null? {
        continue;
      }
      var step := SetColumn(row, columns[i], v.data, clock);
      if step.Err? {
        SetColumnsStops(columns, values, i + 1, |columns|, clock);
        return step;
      }
      row := step.value;
    }
    return Ok(row);
  }

  lemma {:induction false} SetColumnsStops(columns: seq<Column>, values: seq<ColumnValue>, i: nat, n: nat, clock: Clock)
    requires i <= n <= |columns| == |values|
    requires SetColumns(columns, values, i, clock).Err?
    ensures SetColumns(columns, values, n, clock) == SetColumns(columns, values, i, clock)
    decreases n - i
  {
    if i < n {
      SetColumnsStops(columns, values, i, n - 1, clock);
    }
  }

  /** The text a column's value fails on, whatever the row so far. */
  predicate Decodes(name: Column, data: Text, clock: Clock) {
    && (name == Id ==> Decimal.ParseInt64(data).Some?)
    && (name == CreatedAt || name == RunAt ==> clock(data).Some?)
    && (name == Payload ==> DecodeBytea(data).Some?)
  }

  /** A row is dropped exactly when the counts differ or some non-null column of its own does not decode. */
  lemma {:induction false} ParseFailsExactly(columns: seq<Column>, values: seq<ColumnValue>, n: nat, clock: Clock)
    requires n <= |columns| == |values|
    ensures SetColumns(columns, values, n, clock).Ok? <==>
            forall i :: 0 <= i < n && values[i].Value? ==> Decodes(columns[i], values[i].data, clock)
  {
    if n > 0 {
      ParseFailsExactly(columns, values, n - 1, clock);
    }
  }

  /** The columns of sql/001_create_outbox.sql, in order. */
  const TABLE: seq<Column> :=
    [Id, CreatedAt, ProducerID, JobType, Payload, RunAt, TraceID, Shadow]

  /** The row as pgoutput sends it; show gives the text of an instant, and a zero run_at travels as NULL. */
  function Encode(p: ParsedInsert, show: Time -> Text): seq<ColumnValue> {
    [ Value(Decimal.FormatInt(p.id)), Value(show(p.createdAt)), Value(p.producerID), Value(p.jobType),
      Value(EncodeBytea(p.payload)), if p.runAt == 0 then Null else Value(show(p.runAt)), Value(p.traceID),
      Value([if p.shadow then LOWER_T else LOWER_F]) ]
  }

  ghost predicate Fills(
    columns: seq<Column>, values: seq<ColumnValue>, clock: Clock, n: nat, row: ParsedInsert, next: ParsedInsert)
    requires n < |columns| == |values|
  {
    match values[n]
    case Null => next == row
    case Value(data) => SetColumn(row, columns[n], data, clock) == Ok(next)
  }

  lemma {:induction false} FillInOrder(
    columns: seq<Column>, values: seq<ColumnValue>, clock: Clock, rows: seq<ParsedInsert>, n: nat)
    requires n <= |columns| == |values| == |rows| - 1
    requires rows[0] == ZERO_ROW
    requires forall i :: 0 <= i < n ==> Fills(columns, values, clock, i, rows[i], rows[i + 1])
    ensures SetColumns(columns, values, n, clock) == Ok(rows[n])
  {
    if n > 0 {
      FillInOrder(columns, values, clock, rows, n - 1);
      assert Fills(columns, values, clock, n - 1, rows[n - 1], rows[n]);
    }
  }

  /** Every row the table can hold is decoded back to itself. */
  lemma InsertRoundTrip(p: ParsedInsert, show: Time -> Text, clock: Clock)
    requires clock(show(p.createdAt)) == Some(p.createdAt) && clock(show(p.runAt)) == Some(p.runAt)
    ensures ParseColumns(TABLE, Encode(p, show), clock) == Ok(p)
  {
    hide Decimal.ParseInt64, Decimal.FormatInt, DecodeBytea, EncodeBytea, SetColumns;
    Decimal.FormatThenParse(p.id);
    ByteaRoundTrip(p.payload);
    var r1 := ZERO_ROW.(id := p.id);
    var r2 := r1.(createdAt := p.createdAt);
    var r3 := r2.(producerID := p.producerID);
    var r4 := r3.(jobType := p.jobType);
    var r5 := r4.(payload := p.payload);
    var r6 := r5.(runAt := p.runAt);
    FillInOrder(TABLE, Encode(p, show), clock, [ZERO_ROW, r1, r2, r3, r4, r5, r6, r6.(traceID := p.traceID), p], 8);
  }

  // ---- What each field holds ---------------------------------------------------------------------------------

  /** The last value of this column among the first n that is not null. */
  function LastValue(columns: seq<Column>, values: seq<ColumnValue>, n: nat, name: Column): Option<Text>
    requires n <= |columns| == |values|
  {
    if n == 0 then None
    else if columns[n - 1] == name && values[n - 1].Value? then Some(values[n - 1].data)
    else LastValue(columns, values, n - 1, name)
  }

  /** The field of this column holds what the value decodes to, or its zero value when there is none. */
  ghost predicate FieldHolds(row: ParsedInsert, name: Column, value: Option<Text>, clock: Clock) {
    match name
    case Id => if value.Some? then Decimal.ParseInt64(value.value) == Some(row.id) else row.id == 0
    case CreatedAt => if value.Some? then clock(value.value) == Some(row.createdAt) else row.createdAt == 0
    case ProducerID => row.producerID == if value.Some? then value.value else []
    case JobType => row.jobType == if value.Some? then value.value else []
    case Payload => if value.Some? then DecodeBytea(value.value) == Some(row.payload) else row.payload == []
    case RunAt => if value.Some? then clock(value.value) == Some(row.runAt) else row.runAt == 0
    case TraceID => row.traceID == if value.Some? then value.value else []
    case Shadow => row.shadow <==> value == Some([116])
    case OtherColumn(_) => true
  }

  lemma SetColumnSetsOne(row: ParsedInsert, column: Column, data: Text, clock: Clock, name: Column, value: Option<Text>)
    requires SetColumn(row, column, data, clock).Ok? && FieldHolds(row, name, value, clock)
    ensures var now := if name == column then Some(data) else value;
      FieldHolds(SetColumn(row, column, data, clock).value, name, now, clock)
  {
    hide DecodeBytea, Decimal.ParseInt64;
  }

  /**
   * Each field holds what the last non-null value of its own column decodes to, and its zero value if there is none;
   * columns of other names leave no trace.
   */
  lemma {:induction false} FieldHoldsItsColumn(
    columns: seq<Column>, values: seq<ColumnValue>, n: nat, clock: Clock, name: Column)
    requires n <= |columns| == |values| && SetColumns(columns, values, n, clock).Ok?
    ensures FieldHolds(SetColumns(columns, values, n, clock).value, name, LastValue(columns, values, n, name), clock)
  {
    hide SetColumn, FieldHolds;
    if n == 0 {
      ZeroRowHolds(name, clock);
    } else {
      FieldHoldsItsColumn(columns, values, n - 1, clock, name);
      if values[n - 1].Value? {
        var row := SetColumns(columns, values, n - 1, clock).value;
        var value := LastValue(columns, values, n - 1, name);
        SetColumnSetsOne(row, columns[n - 1], values[n - 1].data, clock, name, value);
      }
    }
  }

  lemma ZeroRowHolds(name: Column, clock: Clock)
    ensures FieldHolds(ZERO_ROW, name, None, clock)
  {
  }

  // ---- Jobs ---------------------------------------------------------------------------------------------------

  /** The job carries every field of the row but its creation time, and the plain decimal text of its id. */
  ghost predicate JobCarries(j: Job, p: ParsedInsert) {
    && Decimal.ParseInt64(j.correlationID) == Some(p.id) && Decimal.IsPlain(j.correlationID, p.id)
    && ParsedInsert(p.id, p.createdAt, j.producerID, j.jobType, j.payload, j.runAt, j.traceID, j.shadow) == p
  }

  lemma ToJobCarries(p: ParsedInsert)
    ensures JobCarries(ToJob(p), p)
  {
    Decimal.FormatThenParse(p.id);
    Decimal.FormatIsPlain(p.id);
  }

  // ---- Payloads -------------------------------------------------------------------------------------------------

  /** A hexadecimal digit of either case: 0-9, a-f, A-F. */
  predicate IsHex(b: Byte) {
    48 <= b <= 57 || 97 <= b <= 102 || 65 <= b <= 70
  }

  function LowerHex(b: Byte): Byte {
    if 65 <= b <= 70 then b + 32 else b
  }

  function LowerAll(s: Text): Text {
    seq(|s|, i requires 0 <= i < |s| => LowerHex(s[i]))
  }

  lemma DigitDecodes(b: Byte)
    ensures HexValue(b).Some? <==> IsHex(b)
    ensures HexValue(b).Some? ==> HexValue(b).value < 16 && HexDigit(HexValue(b).value) == LowerHex(b)
  {
  }

  lemma PairEncodes(hi: nat, lo: nat, rest: Text)
    requires hi < 16 && lo < 16
    ensures HexEncode([16 * hi + lo] + rest) == [HexDigit(hi), HexDigit(lo)] + HexEncode(rest)
  {
    assert ([16 * hi + lo] + rest)[1..] == rest;
    assert (16 * hi + lo) / 16 == hi && (16 * hi + lo) % 16 == lo;
  }

  lemma PairDecodes(s: Text)
    requires |s| >= 2
    ensures HexDecode(s).Some? <==> IsHex(s[0]) && IsHex(s[1]) && HexDecode(s[2..]).Some?
    ensures HexDecode(s).Some? ==>
              HexEncode(HexDecode(s).value) == [LowerHex(s[0]), LowerHex(s[1])] + HexEncode(HexDecode(s[2..]).value)
  {
    hide HexValue, HexDigit, IsHex, LowerHex, HexEncode;
    DigitDecodes(s[0]);
    DigitDecodes(s[1]);
    if HexDecode(s).Some? {
      PairEncodes(HexValue(s[0]).value, HexValue(s[1]).value, HexDecode(s[2..]).value);
    }
  }

  lemma LowerPair(s: Text)
    requires |s| >= 2
    ensures LowerAll(s) == [LowerHex(s[0]), LowerHex(s[1])] + LowerAll(s[2..])
  {
  }

  predicate AllHex(s: Text) {
    forall i :: 0 <= i < |s| ==> IsHex(s[i])
  }

  lemma AllHexPair(s: Text)
    requires |s| >= 2
    ensures AllHex(s) <==> IsHex(s[0]) && IsHex(s[1]) && AllHex(s[2..])
  {
    assert forall i :: 2 <= i < |s| ==> s[i] == s[2..][i - 2];
  }

  /** Text decodes exactly when it is pairs of digits of either case, and then it encodes what it decodes to. */
  lemma {:induction false} HexDecodesExactly(s: Text)
    ensures HexDecode(s).Some? <==> |s| % 2 == 0 && AllHex(s)
    ensures HexDecode(s).Some? ==> HexEncode(HexDecode(s).value) == LowerAll(s)
  {
    if |s| >= 2 {
      hide HexDecode, HexEncode, AllHex, LowerAll, IsHex;
      HexDecodesExactly(s[2..]);
      PairDecodes(s);
      AllHexPair(s);
      LowerPair(s);
    }
  }

  /** Text behind \x is hexadecimal; any other text is the payload itself. */
  lemma ByteaIsHexOrItself(s: Text)
    ensures |s| < 2 || s[0] != 92 || s[1] != 120 ==> DecodeBytea(s) == Some(s)
    ensures |s| >= 2 && s[0] == 92 && s[1] == 120 ==>
              (DecodeBytea(s).Some? <==> |s| % 2 == 0 && AllHex(s[2..]))
    ensures |s| >= 2 && s[0] == 92 && s[1] == 120 && DecodeBytea(s).Some? ==>
              EncodeBytea(DecodeBytea(s).value) == LowerAll(s)
  {
    if |s| >= 2 && s[0] == 92 && s[1] == 120 {
      hide HexDecode, HexEncode, AllHex;
      HexDecodesExactly(s[2..]);
      LowerPair(s);
    }
  }
}
