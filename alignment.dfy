/**
  The input-alignment checks run before rows are compared, and the two
  field comparators of the batched comparison: `compare_json_arrays` for the
  description and memo lists, `compare_api_responses` for the responses.
 */
module Alignment {
  import opened Wrappers
  import opened JsonValue
  import opened Normalization
  import opened Differ
  import opened Parsing

  /**
    One row of a per-transaction output file, each column as the text the
    CSV reader produced for it.
   */
  datatype TxnRow = TxnRow(transactionId: string, description: string, memo: string, outputsJson: string)

  /** Two rows at the same index describe the same input transaction. */
  predicate RowAligned(r1: TxnRow, r2: TxnRow) {
    r1.transactionId == r2.transactionId && r1.description == r2.description
  }

  predicate SameTransactionIds(rows1: seq<TxnRow>, rows2: seq<TxnRow>)
    requires |rows1| == |rows2|
  {
    forall i :: 0 <= i < |rows1| ==> rows1[i].transactionId == rows2[i].transactionId
  }

  predicate SameDescriptions(rows1: seq<TxnRow>, rows2: seq<TxnRow>)
    requires |rows1| == |rows2|
  {
    forall i :: 0 <= i < |rows1| ==> rows1[i].description == rows2[i].description
  }

  /** Both files hold the same transactions, row by row. */
  predicate InputsAligned(rows1: seq<TxnRow>, rows2: seq<TxnRow>) {
    |rows1| == |rows2| && forall i :: 0 <= i < |rows1| ==> RowAligned(rows1[i], rows2[i])
  }

  /**
    `verify_same_input_data_transaction` (`verify_same_input_data` in the
    older script): the row count is checked first, then every transaction id,
    then every description; the first failing check names the message.
   */
  function VerifySameInputTransaction(rows1: seq<TxnRow>, rows2: seq<TxnRow>): (r: (bool, string))
    ensures r.0 <==> InputsAligned(rows1, rows2)
    ensures r.0 ==> r.1 == "Input data verified as identical"
    ensures |rows1| != |rows2|
            ==> r.1 == "Different number of rows: api_1=" + NatStr(|rows1|) + ", api_2=" + NatStr(|rows2|)
    ensures |rows1| == |rows2| && !SameTransactionIds(rows1, rows2)
            ==> r.1 == "Transaction IDs don't match - files may not be aligned"
    ensures |rows1| == |rows2| && SameTransactionIds(rows1, rows2) && !SameDescriptions(rows1, rows2)
            ==> r.1 == "Descriptions don't match - files may not be aligned"
  {
    if |rows1| != |rows2| then
      (false, "Different number of rows: api_1=" + NatStr(|rows1|) + ", api_2=" + NatStr(|rows2|))
    else if !SameTransactionIds(rows1, rows2) then
      (false, "Transaction IDs don't match - files may not be aligned")
    else if !SameDescriptions(rows1, rows2) then
      (false, "Descriptions don't match - files may not be aligned")
    else
      (true, "Input data verified as identical")
  }

  // ---------------------------------------------------------------------
  // Batched files
  // ---------------------------------------------------------------------

  /** One row of a batched output file, each column as text. */
  datatype BatchRow = BatchRow(batchId: string, descriptionsJson: string, memosJson: string, apiResponseJson: string)

  datatype InputField = Descriptions | Memos

  function FieldCell(row: BatchRow, f: InputField): string {
    if f == Descriptions then row.descriptionsJson else row.memosJson
  }


  /** Python's `==` on two values `parse_json_field` returned (`None` equals only `None`). */
  predicate OptPyEq(a: Option<Json>, b: Option<Json>) {
    if a.Some? && b.Some? then PyEq(a.value, b.value) else a == b
  }

  predicate SameBatchIds(rows1: seq<BatchRow>, rows2: seq<BatchRow>)
    requires |rows1| == |rows2|
  {
    forall i :: 0 <= i < |rows1| ==> rows1[i].batchId == rows2[i].batchId
  }

  /** The decoded field `f` of batch `i` is `==` on both sides. */
  predicate SameField(loads: string -> Option<Json>, rows1: seq<BatchRow>, rows2: seq<BatchRow>, f: InputField, i: nat)
    requires i < |rows1| && i < |rows2|
  {
    OptPyEq(ParseJsonField(loads, FieldCell(rows1[i], f)), ParseJsonField(loads, FieldCell(rows2[i], f)))
  }

  /** The first batch from index `from` on whose field `f` differs between the two sides. */
  function FirstFieldMismatch(loads: string -> Option<Json>, rows1: seq<BatchRow>, rows2: seq<BatchRow>,
                              f: InputField, from: nat): (r: Option<nat>)
    requires |rows1| == |rows2| && from <= |rows1|
    ensures r.None? <==> forall k :: from <= k < |rows1| ==> SameField(loads, rows1, rows2, f, k)
    ensures r.Some? ==> from <= r.value < |rows1| && !SameField(loads, rows1, rows2, f, r.value)
    ensures r.Some? ==> forall k :: from <= k < r.value ==> SameField(loads, rows1, rows2, f, k)
    decreases |rows1| - from
  {
    if from == |rows1| then None
    else if !SameField(loads, rows1, rows2, f, from) then Some(from)
    else FirstFieldMismatch(loads, rows1, rows2, f, from + 1)
  }

  /** The `(is_same, message)` pair `verify_same_input_data_batch` returns. */
  function VerifyBatchSpec(loads: string -> Option<Json>, rows1: seq<BatchRow>, rows2: seq<BatchRow>): (bool, string) {
    if |rows1| != |rows2| then
      (false, "Different number of batches: api_1=" + NatStr(|rows1|) + ", api_2=" + NatStr(|rows2|))
    else if !SameBatchIds(rows1, rows2) then
      (false, "Batch IDs don't match - files may not be aligned")
    else match FirstFieldMismatch(loads, rows1, rows2, Descriptions, 0)
      case Some(i) => (false, "descriptions_json don't match at batch " + NatStr(i + 1))
      case None =>
        match FirstFieldMismatch(loads, rows1, rows2, Memos, 0)
        case Some(i) => (false, "memos_json don't match at batch " + NatStr(i + 1))
        case None => (true, "Input data verified as identical")
  }

  /** The batched inputs agree exactly when the count, every id and every decoded field agree. */
  lemma VerifyBatchOkIff(loads: string -> Option<Json>, rows1: seq<BatchRow>, rows2: seq<BatchRow>)
    ensures VerifyBatchSpec(loads, rows1, rows2).0
        <==> |rows1| == |rows2| && SameBatchIds(rows1, rows2)
             && forall i :: 0 <= i < |rows1| ==>
                  SameField(loads, rows1, rows2, Descriptions, i) && SameField(loads, rows1, rows2, Memos, i)
  {
    if |rows1| == |rows2| && SameBatchIds(rows1, rows2) {
      var d := FirstFieldMismatch(loads, rows1, rows2, Descriptions, 0);
      var m := FirstFieldMismatch(loads, rows1, rows2, Memos, 0);
      if d.Some? {
        assert !SameField(loads, rows1, rows2, Descriptions, d.value);
      } else if m.Some? {
        assert !SameField(loads, rows1, rows2, Memos, m.value);
      }
    }
  }

  /**
    One of the two loops of `verify_same_input_data_batch`: the batches are
    visited in order and the first one whose field `f` differs is reported.
   */
  method FindFieldMismatch(loads: string -> Option<Json>, rows1: seq<BatchRow>, rows2: seq<BatchRow>, f: InputField)
    returns (r: Option<nat>)
    requires |rows1| == |rows2|
    ensures r == FirstFieldMismatch(loads, rows1, rows2, f, 0)
  {
    var idx := 0;
    while idx < |rows1|
      invariant 0 <= idx <= |rows1|
      invariant FirstFieldMismatch(loads, rows1, rows2, f, 0) == FirstFieldMismatch(loads, rows1, rows2, f, idx)
    {
      var v1 := ParseJsonField(loads, FieldCell(rows1[idx], f));
      var v2 := ParseJsonField(loads, FieldCell(rows2[idx], f));
      if !OptPyEq(v1, v2) {
        return Some(idx);
      }
      idx := idx + 1;
    }
    return None;
  }

  /**
    `verify_same_input_data_batch`: the descriptions of every batch are
    checked before any memo, and the message names the first failing batch
    counting from 1.
   */
  method VerifySameInputBatch(loads: string -> Option<Json>, rows1: seq<BatchRow>, rows2: seq<BatchRow>)
    returns (same: bool, message: string)
    ensures (same, message) == VerifyBatchSpec(loads, rows1, rows2)
  {
    if |rows1| != |rows2| {
      return false, "Different number of batches: api_1=" + NatStr(|rows1|) + ", api_2=" + NatStr(|rows2|);
    }
    if !SameBatchIds(rows1, rows2) {
      return false, "Batch IDs don't match - files may not be aligned";
    }
    var d := FindFieldMismatch(loads, rows1, rows2, Descriptions);
    assert VerifyBatchSpec(loads, rows1, rows2) == match d
      case Some(i) => (false, "descriptions_json don't match at batch " + NatStr(i + 1))
      case None =>
        match FirstFieldMismatch(loads, rows1, rows2, Memos, 0)
        case Some(i) => (false, "memos_json don't match at batch " + NatStr(i + 1))
        case None => (true, "Input data verified as identical");
    if d.Some? {
      return false, "descriptions_json don't match at batch " + NatStr(d.value + 1);
    }
    var m := FindFieldMismatch(loads, rows1, rows2, Memos);
    if m.Some? {
      return false, "memos_json don't match at batch " + NatStr(m.value + 1);
    }
    return true, "Input data verified as identical";
  }

  // ---------------------------------------------------------------------
  // `compare_json_arrays`
  // ---------------------------------------------------------------------

  /**
    What `zip` walks in a decoded value: a list's items, a string's
    characters, a dict's keys; a number or a bool has no `len()`, so `None`.
   */
  function Items(j: Json): (r: Option<seq<Json>>)
    ensures j.Arr? ==> r == Some(j.items)
    ensures j.Str? ==> r.Some? && |r.value| == |j.s|
    ensures j.Obj? ==> r.Some? && |r.value| == |j.fields|
    ensures r.None? <==> !(j.Arr? || j.Str? || j.Obj?)
  {
    match j
    case Arr(xs) => Some(xs)
    case Str(s) => Some(seq(|s|, i requires 0 <= i < |s| => Str([s[i]])))
    case Obj(m) =>
      var ks := Order.SortedKeys(m.Keys);
      Some(seq(|ks|, i requires 0 <= i < |ks| => Str(ks[i])))
    case _ => None
  }

  /** The first index from `from` on whose items print differently under `str()`. */
  function FirstStrMismatch(floatRepr: real -> string, xs: seq<Json>, ys: seq<Json>, from: nat): (r: Option<nat>)
    requires |xs| == |ys| && from <= |xs|
    ensures r.None? <==> forall k :: from <= k < |xs| ==> PyStr(floatRepr, xs[k]) == PyStr(floatRepr, ys[k])
    ensures r.Some? ==> from <= r.value < |xs| && PyStr(floatRepr, xs[r.value]) != PyStr(floatRepr, ys[r.value])
    ensures r.Some? ==> forall k :: from <= k < r.value ==> PyStr(floatRepr, xs[k]) == PyStr(floatRepr, ys[k])
    decreases |xs| - from
  {
    if from == |xs| then None
    else if PyStr(floatRepr, xs[from]) != PyStr(floatRepr, ys[from]) then Some(from)
    else FirstStrMismatch(floatRepr, xs, ys, from + 1)
  }

  /** `TypeError`, raised by `len()` of a number or a bool. */
  datatype TypeError = TypeError

  /**
    `compare_json_arrays`: two absent values match ("Both empty"); one absent
    value, a length difference or the first item whose `str()` differs is a
    mismatch with its message; `len()` of a number or a bool raises.
   */
  function CompareJsonArrays(floatRepr: real -> string, v1: Option<Json>, v2: Option<Json>, field: string)
    : (r: Result<(bool, string), TypeError>)
    ensures r.Ok? && r.value.0 ==> r.value.1 == "Both empty" || r.value.1 == "Match"
    ensures r.Ok? && !r.value.0 ==> field <= r.value.1
  {
    if v1.None? && v2.None? then Ok((true, "Both empty"))
    else if v1.None? || v2.None? then Ok((false, field + ": one is empty, other is not"))
    else if Items(v1.value).None? || Items(v2.value).None? then Err(TypeError)
    else
      var xs := Items(v1.value).value;
      var ys := Items(v2.value).value;
      if |xs| != |ys| then
        Ok((false, field + ": length mismatch (api_1=" + NatStr(|xs|) + ", api_2=" + NatStr(|ys|) + ")"))
      else match FirstStrMismatch(floatRepr, xs, ys, 0)
        case Some(i) =>
          Ok((false, field + "[" + NatStr(i) + "]: api_1=" + Repr(floatRepr, xs[i])
                     + ", api_2=" + Repr(floatRepr, ys[i])))
        case None => Ok((true, "Match"))
  }

  /**
    The comparison raises exactly when a present value has no length, and
    reports a match exactly when both are absent or both have equally many
    items that print the same.
   */
  lemma CompareJsonArraysIff(floatRepr: real -> string, v1: Option<Json>, v2: Option<Json>, field: string)
    ensures CompareJsonArrays(floatRepr, v1, v2, field).Err?
        <==> v1.Some? && v2.Some? && (Items(v1.value).None? || Items(v2.value).None?)
    ensures CompareJsonArrays(floatRepr, v1, v2, field) == Ok((true, "Both empty")) <==> v1.None? && v2.None?
    ensures (CompareJsonArrays(floatRepr, v1, v2, field).Ok? && CompareJsonArrays(floatRepr, v1, v2, field).value.0)
        <==> (v1.None? && v2.None?)
             || (v1.Some? && v2.Some? && Items(v1.value).Some? && Items(v2.value).Some?
                 && |Items(v1.value).value| == |Items(v2.value).value|
                 && forall k :: 0 <= k < |Items(v1.value).value| ==>
                      PyStr(floatRepr, Items(v1.value).value[k]) == PyStr(floatRepr, Items(v2.value).value[k]))
  {
    if v1.Some? && v2.Some? && Items(v1.value).Some? && Items(v2.value).Some? {
      var xs := Items(v1.value).value;
      var ys := Items(v2.value).value;
      if |xs| == |ys| {
        var m := FirstStrMismatch(floatRepr, xs, ys, 0);
        if m.Some? {
          assert PyStr(floatRepr, xs[m.value]) != PyStr(floatRepr, ys[m.value]);
        }
      }
    }
  }

  /** A field always matches itself unless `len()` of it raises. */
  lemma CompareJsonArraysSelf(floatRepr: real -> string, v: Option<Json>, field: string)
    requires v.Some? ==> Items(v.value).Some?
    ensures CompareJsonArrays(floatRepr, v, v, field).Ok?
    ensures CompareJsonArrays(floatRepr, v, v, field).value.0
  {
    CompareJsonArraysIff(floatRepr, v, v, field);
  }

  /**
    Items are compared by `str()`, not by `==`: the list `[1]` matches the
    list `["1"]`, which `==` (and the batch input check) tells apart.
   */
  lemma CompareJsonArraysStrQuirk(floatRepr: real -> string, field: string)
    ensures CompareJsonArrays(floatRepr, Some(Arr([Int(1)])), Some(Arr([Str("1")])), field) == Ok((true, "Match"))
    ensures !OptPyEq(Some(Arr([Int(1)])), Some(Arr([Str("1")])))
  {
    assert PyStr(floatRepr, Int(1)) == PyStr(floatRepr, Str("1"));
    assert FirstStrMismatch(floatRepr, [Int(1)], [Str("1")], 1) == None;
  }

  // ---------------------------------------------------------------------
  // `compare_api_responses`
  // ---------------------------------------------------------------------

  /** The `(is_match, comment)` pair `compare_api_responses` returns. */
  function ResponseVerdict(codec: Codec, r1: Option<Json>, r2: Option<Json>): (bool, string) {
    if r1.None? && r2.None? then (true, "MATCH")
    else if r1.None? || r2.None? then (false, "One response is empty, other is not")
    else Verdict(codec, r1.value, r2.value)
  }

  /**
    `compare_api_responses`: two absent responses match, one absent response
    is a mismatch, and two present ones are compared as `compare_outputs` does.
   */
  method CompareApiResponses(codec: Codec, r1: Option<Json>, r2: Option<Json>) returns (isMatch: bool, comment: string)
    ensures (isMatch, comment) == ResponseVerdict(codec, r1, r2)
  {
    if r1.None? && r2.None? {
      return true, "MATCH";
    }
    if r1.None? || r2.None? {
      return false, "One response is empty, other is not";
    }
    isMatch, comment := CompareOutputs(codec, r1.value, r2.value);
  }

  /** Responses match exactly when both are absent or both are present with `==` normal forms. */
  lemma ResponseVerdictIff(codec: Codec, r1: Option<Json>, r2: Option<Json>)
    ensures ResponseVerdict(codec, r1, r2).0
        <==> (r1.None? && r2.None?)
             || (r1.Some? && r2.Some? && PyEq(Normalize(codec.dumps, r1.value), Normalize(codec.dumps, r2.value)))
    ensures ResponseVerdict(codec, r1, r2).0 ==> ResponseVerdict(codec, r1, r2).1 == "MATCH"
  {
  }

  /** A response always matches itself. */
  lemma ResponseVerdictSelf(codec: Codec, r: Option<Json>)
    ensures ResponseVerdict(codec, r, r) == (true, "MATCH")
  {
    if r.Some? { PyEqRefl(Normalize(codec.dumps, r.value)); }
  }
}
