/**
  The tensor protocol of the load-test harness: the request payload
  (`build_tensor_payload`) and the de-batching of a flattened
  `[batch, max_entities]` response into one JSON object per transaction
  (`parse_tensor_response`), in its two variants: all-or-nothing (the
  `sanity_v3.py` and `miscellaneous.py` copies) and drop-empties
  (`sanity.py`).
 */
module Tensor {
  import opened Wrappers
  import opened JsonValue
  import opened Seqs

  // ---------------------------------------------------------------------
  // The request
  // ---------------------------------------------------------------------

  datatype InputTensor = InputTensor(name: string, dataType: string, shape: seq<int>, data: seq<string>)

  /** `{"inputs": [...]}`. */
  datatype Payload = Payload(inputs: seq<InputTensor>)

  /** A `[n, 1]` tensor whose declared row count is its data length. */
  predicate ColumnTensor(t: InputTensor) {
    t.shape == [|t.data|, 1]
  }

  /**
    `build_tensor_payload`: a description tensor and a memo tensor, both
    declared `[len(descriptions), 1]`.
   */
  function BuildTensorPayload(descriptions: seq<string>, memos: seq<string>): (p: Payload)
    ensures |p.inputs| == 2
    ensures p.inputs[0].name == "description" && p.inputs[1].name == "memo"
    ensures forall k :: 0 <= k < 2 ==> p.inputs[k].dataType == "BYTES" && p.inputs[k].shape == [|descriptions|, 1]
    ensures p.inputs[0].data == descriptions && p.inputs[1].data == memos
  {
    Payload([InputTensor("description", "BYTES", [|descriptions|, 1], descriptions),
             InputTensor("memo", "BYTES", [|descriptions|, 1], memos)])
  }

  /**
    Both tensors are well-formed column tensors exactly when there are as many
    memos as descriptions; otherwise the memo tensor declares the description count.
   */
  lemma PayloadShapesAgreeIff(descriptions: seq<string>, memos: seq<string>)
    ensures var p := BuildTensorPayload(descriptions, memos);
            (ColumnTensor(p.inputs[0]) && ColumnTensor(p.inputs[1])) <==> |descriptions| == |memos|
  {
  }

  // ---------------------------------------------------------------------
  // The response
  // ---------------------------------------------------------------------

  /**
    One entry of `outputs`. A missing `datatype` is `None`; a missing `shape`
    is the empty list.
   */
  datatype OutputTensor = OutputTensor(name: string, dataType: Option<Json>, shape: seq<int>, data: seq<Json>)

  /** The response object; a missing `model_name` or `model_version` is `None`. */
  datatype Response = Response(outputs: seq<OutputTensor>, modelName: Option<Json>, modelVersion: Option<Json>)

  /** `range(k)` runs `max(k, 0)` times. */
  function Count(k: int): (r: nat)
    ensures k >= 0 ==> r == k
    ensures k < 0 ==> r == 0
  {
    if k < 0 then 0 else k
  }

  /**
    The batch size and the entity count per transaction, from the first
    output's shape; `None` when there is no output or the shape does not have
    exactly two entries (the result is then empty).
   */
  function Dims(r: Response): (d: Option<(nat, nat)>)
    ensures d.Some? <==> |r.outputs| > 0 && |r.outputs[0].shape| == 2
    ensures d.Some? ==> d.value == (Count(r.outputs[0].shape[0]), Count(r.outputs[0].shape[1]))
  {
    if |r.outputs| == 0 || |r.outputs[0].shape| != 2 then None
    else Some((Count(r.outputs[0].shape[0]), Count(r.outputs[0].shape[1])))
  }

  /** The empty string, with which a slice is padded past the end of the data. */
  const Empty: Json := Str("")

  /** Transaction `i`'s values in an output: `data[i*m + j]` for `j < m`, `""` past the end. */
  function Slice(data: seq<Json>, i: nat, m: nat): (s: seq<Json>)
    ensures |s| == m
    ensures forall j :: 0 <= j < m && i * m + j < |data| ==> s[j] == data[i * m + j]
    ensures forall j :: 0 <= j < m && i * m + j >= |data| ==> s[j] == Empty
  {
    seq(m, j requires 0 <= j < m => if i * m + j < |data| then data[i * m + j] else Empty)
  }

  /** `any(val != "" for val in s)`. */
  predicate HasEntity(s: seq<Json>) {
    exists j :: 0 <= j < |s| && s[j] != Empty
  }

  // ---------------------------------------------------------------------
  // All-or-nothing de-batching
  // ---------------------------------------------------------------------

  /** One output of one transaction; `shape` is `[1, len(data)]`. */
  datatype TxnOutput = TxnOutput(name: string, dataType: Json, shape: seq<int>, data: seq<Json>)

  datatype Transaction = Transaction(modelName: Json, modelVersion: Json, outputs: seq<TxnOutput>)

  /** Some output has a non-empty value for transaction `i`. */
  predicate TransactionHasEntities(outs: seq<OutputTensor>, i: nat, m: nat) {
    exists k :: 0 <= k < |outs| && HasEntity(Slice(outs[k].data, i, m))
  }

  function OutputAt(o: OutputTensor, data: seq<Json>): (t: TxnOutput)
    ensures t.name == o.name && t.data == data && t.shape == [1, |data|]
    ensures t.dataType == o.dataType.GetOr(Str("BYTES"))
  {
    TxnOutput(o.name, o.dataType.GetOr(Str("BYTES")), [1, |data|], data)
  }

  /** Transaction `i` under the all-or-nothing rule. */
  function TransactionAt(r: Response, i: nat, m: nat): (t: Transaction)
    ensures |t.outputs| == |r.outputs|
    ensures t.modelName == r.modelName.GetOr(Str("")) && t.modelVersion == r.modelVersion.GetOr(Str(""))
  {
    var keep := TransactionHasEntities(r.outputs, i, m);
    Transaction(r.modelName.GetOr(Str("")), r.modelVersion.GetOr(Str("")),
      seq(|r.outputs|, k requires 0 <= k < |r.outputs| =>
        OutputAt(r.outputs[k], if keep then Slice(r.outputs[k].data, i, m) else [])))
  }

  /** What the all-or-nothing `parse_tensor_response` returns. */
  function Debatch(r: Response): (ts: seq<Transaction>)
    ensures Dims(r).None? ==> ts == []
    ensures Dims(r).Some? ==> |ts| == Dims(r).value.0
  {
    match Dims(r)
    case None => []
    case Some((n, m)) => seq(n, i requires 0 <= i < n => TransactionAt(r, i, m))
  }

  /** Transaction `i`'s slice of `data`: the innermost loop. */
  method ReadSlice(data: seq<Json>, i: nat, m: nat) returns (txData: seq<Json>)
    ensures txData == Slice(data, i, m)
  {
    txData := [];
    var j := 0;
    while j < m
      invariant 0 <= j <= m
      invariant |txData| == j
      invariant forall p :: 0 <= p < j ==> txData[p] == Slice(data, i, m)[p]
    {
      var idx := i * m + j;
      var value := if idx < |data| then data[idx] else Empty;
      txData := txData + [value];
      j := j + 1;
    }
  }

  /** One transaction of the all-or-nothing variant: the two passes over the outputs. */
  method TransactionOf(r: Response, i: nat, m: nat) returns (t: Transaction)
    ensures t == TransactionAt(r, i, m)
  {
    var outs := r.outputs;
    // First pass: the raw slices, and whether any value is non-empty.
    var temp: seq<seq<Json>> := [];
    var hasEntities := false;
    var k := 0;
    while k < |outs|
      invariant 0 <= k <= |outs|
      invariant |temp| == k
      invariant forall q :: 0 <= q < k ==> temp[q] == Slice(outs[q].data, i, m)
      invariant hasEntities <==> exists q :: 0 <= q < k && HasEntity(Slice(outs[q].data, i, m))
    {
      var txData := ReadSlice(outs[k].data, i, m);
      temp := temp + [txData];
      if HasEntity(txData) {
        hasEntities := true;
      }
      k := k + 1;
    }
    // Second pass: every output keeps its slice, or every output is empty.
    var txOutputs: seq<TxnOutput> := [];
    k := 0;
    while k < |outs|
      invariant 0 <= k <= |outs|
      invariant |txOutputs| == k
      invariant forall q :: 0 <= q < k ==> txOutputs[q] == TransactionAt(r, i, m).outputs[q]
    {
      var data := if hasEntities then temp[k] else [];
      txOutputs := txOutputs + [OutputAt(outs[k], data)];
      k := k + 1;
    }
    t := Transaction(r.modelName.GetOr(Str("")), r.modelVersion.GetOr(Str("")), txOutputs);
  }

  /** All-or-nothing `parse_tensor_response`. */
  method ParseTensorResponse(r: Response) returns (results: seq<Transaction>)
    ensures results == Debatch(r)
  {
    if |r.outputs| == 0 || |r.outputs[0].shape| != 2 {
      return [];
    }
    var n := Count(r.outputs[0].shape[0]);
    var m := Count(r.outputs[0].shape[1]);
    results := [];
    var i := 0;
    while i < n
      invariant 0 <= i <= n
      invariant |results| == i
      invariant forall t :: 0 <= t < i ==> results[t] == TransactionAt(r, t, m)
    {
      var t := TransactionOf(r, i, m);
      results := results + [t];
      i := i + 1;
    }
    assert Dims(r) == Some((n, m));
  }

  /**
    The all-or-nothing rule: for each transaction either every output keeps
    all `m` values of its slice, padding included, or every output is empty,
    and the first happens exactly when some slice holds a non-empty value.
   */
  lemma AllOrNothing(r: Response, i: nat)
    requires Dims(r).Some? && i < Dims(r).value.0
    ensures var t := Debatch(r)[i];
            var m := Dims(r).value.1;
            (forall k :: 0 <= k < |t.outputs| ==> t.outputs[k].data == Slice(r.outputs[k].data, i, m))
            || (forall k :: 0 <= k < |t.outputs| ==> t.outputs[k].data == [])
    ensures var t := Debatch(r)[i];
            var m := Dims(r).value.1;
            (exists k :: 0 <= k < |t.outputs| && HasEntity(t.outputs[k].data))
            <==> TransactionHasEntities(r.outputs, i, m)
  {
    var t := Debatch(r)[i];
    var m := Dims(r).value.1;
    if TransactionHasEntities(r.outputs, i, m) {
      var k :| 0 <= k < |r.outputs| && HasEntity(Slice(r.outputs[k].data, i, m));
      assert t.outputs[k].data == Slice(r.outputs[k].data, i, m);
    }
  }

  /** Each transaction of the result keeps the outputs' names, order and type tags. */
  lemma OutputsKeepNamesAndOrder(r: Response, i: nat, k: nat)
    requires Dims(r).Some? && i < Dims(r).value.0 && k < |r.outputs|
    ensures var o := Debatch(r)[i].outputs[k];
            o.name == r.outputs[k].name
            && o.dataType == r.outputs[k].dataType.GetOr(Str("BYTES"))
            && o.shape == [1, |o.data|]
            && (|o.data| == 0 || |o.data| == Dims(r).value.1)
  {
  }

  /** Python's `sum(rows, [])`: the rows one after another. */
  function Flatten(rows: seq<seq<Json>>): (r: seq<Json>)
    decreases |rows|
  {
    if rows == [] then [] else Flatten(rows[..|rows| - 1]) + rows[|rows| - 1]
  }

  /** The slices of the first `n` transactions. */
  function Slices(data: seq<Json>, n: nat, m: nat): (s: seq<seq<Json>>)
    ensures |s| == n
    ensures forall i :: 0 <= i < n ==> s[i] == Slice(data, i, m)
  {
    seq(n, i requires 0 <= i < n => Slice(data, i, m))
  }

  lemma SliceIsSubrange(data: seq<Json>, i: nat, m: nat)
    requires (i + 1) * m <= |data|
    ensures i * m + m == (i + 1) * m
    ensures Slice(data, i, m) == data[i * m .. i * m + m]
  {
    assert i * m + m == (i + 1) * m;
  }

  /**
    De-batching inverts the flattening: when the data holds at least `n * m`
    values, the slices of the first `n` transactions, put back one after
    another, are the first `n * m` values.
   */
  lemma {:induction false} SlicesFlatten(data: seq<Json>, n: nat, m: nat)
    requires n * m <= |data|
    ensures Flatten(Slices(data, n, m)) == data[..n * m]
    decreases n
  {
    if n > 0 {
      var p := n - 1;
      assert p * m <= n * m by {
        assert n * m == p * m + m;
      }
      SlicesFlatten(data, p, m);
      assert Slices(data, n, m)[..p] == Slices(data, p, m);
      SliceIsSubrange(data, p, m);
      assert data[..n * m] == data[..p * m] + data[p * m .. p * m + m];
    }
  }

  /**
    So when every output holds exactly `n * m` values and every transaction has
    an entity, the de-batched outputs put back one after another are the
    response's data.
   */
  lemma DebatchFlattenRoundTrip(r: Response, k: nat)
    requires Dims(r).Some? && k < |r.outputs|
    requires |r.outputs[k].data| == Dims(r).value.0 * Dims(r).value.1
    requires forall i :: 0 <= i < Dims(r).value.0 ==> TransactionHasEntities(r.outputs, i, Dims(r).value.1)
    ensures var ts := Debatch(r);
            Flatten(seq(|ts|, i requires 0 <= i < |ts| => ts[i].outputs[k].data)) == r.outputs[k].data
  {
    var ts := Debatch(r);
    var n := Dims(r).value.0;
    var m := Dims(r).value.1;
    var rows := seq(|ts|, i requires 0 <= i < |ts| => ts[i].outputs[k].data);
    assert rows == Slices(r.outputs[k].data, n, m);
    SlicesFlatten(r.outputs[k].data, n, m);
  }

  // ---------------------------------------------------------------------
  // Drop-empties de-batching (`sanity.py`)
  // ---------------------------------------------------------------------

  /** A dict from output name to data, in insertion order. */
  type ByNameDict = seq<(string, seq<Json>)>

  function Keys(d: ByNameDict): (ks: seq<string>)
    ensures |ks| == |d| && forall a :: 0 <= a < |d| ==> ks[a] == d[a].0
  {
    seq(|d|, a requires 0 <= a < |d| => d[a].0)
  }

  /** The position of `name` in the dict, if present. */
  function Find(d: ByNameDict, name: string): (r: Option<nat>)
    ensures r.Some? ==> r.value < |d| && d[r.value].0 == name
    ensures r.None? <==> name !in Keys(d)
    decreases |d|
  {
    if d == [] then None
    else if d[|d| - 1].0 == name then Some(|d| - 1)
    else Find(d[..|d| - 1], name)
  }

  /** Every name occurs at most once, as in a dict. */
  predicate DistinctKeys(d: ByNameDict) {
    forall a, b :: 0 <= a < b < |d| ==> d[a].0 != d[b].0
  }

  /** `d[name] = data`: a present key keeps its position and takes the new data; a new key goes last. */
  function Store(d: ByNameDict, name: string, data: seq<Json>): (r: ByNameDict)
    requires DistinctKeys(d)
    ensures DistinctKeys(r)
    ensures Keys(r) == if name in Keys(d) then Keys(d) else Keys(d) + [name]
    ensures forall a :: 0 <= a < |r| ==> r[a].1 == if r[a].0 == name then data else d[a].1
  {
    match Find(d, name)
    case Some(a) => d[a := (name, data)]
    case None => d + [(name, data)]
  }

  /** The dict `output_dict` after storing every output. */
  function ByName(outs: seq<OutputTensor>): (d: ByNameDict)
    ensures DistinctKeys(d)
    decreases |outs|
  {
    if outs == [] then []
    else
      var o := outs[|outs| - 1];
      Store(ByName(outs[..|outs| - 1]), o.name, o.data)
  }

  /** The `for output in outputs: output_dict[name] = data` loop. */
  method CollectByName(outs: seq<OutputTensor>) returns (d: ByNameDict)
    ensures d == ByName(outs)
  {
    d := [];
    var k := 0;
    while k < |outs|
      invariant 0 <= k <= |outs|
      invariant d == ByName(outs[..k])
    {
      assert outs[..k + 1][..k] == outs[..k];
      d := Store(d, outs[k].name, outs[k].data);
      k := k + 1;
    }
    assert outs[..k] == outs;
  }

  function Names(outs: seq<OutputTensor>): (ns: seq<string>)
    ensures |ns| == |outs| && forall k :: 0 <= k < |outs| ==> ns[k] == outs[k].name
  {
    seq(|outs|, k requires 0 <= k < |outs| => outs[k].name)
  }

  /** The data of the last output called `name`. */
  function LastData(outs: seq<OutputTensor>, name: string): (r: Option<seq<Json>>)
    ensures r.None? <==> name !in Names(outs)
    decreases |outs|
  {
    if outs == [] then None
    else if outs[|outs| - 1].name == name then Some(outs[|outs| - 1].data)
    else LastData(outs[..|outs| - 1], name)
  }

  /** The dict's keys are the output names with repeats removed, in order of first appearance. */
  lemma {:induction false} ByNameFirstPosition(outs: seq<OutputTensor>)
    ensures Keys(ByName(outs)) == Distinct(Names(outs))
    decreases |outs|
  {
    if outs != [] {
      var init := outs[..|outs| - 1];
      ByNameFirstPosition(init);
      assert Names(outs)[..|outs| - 1] == Names(init);
    }
  }

  /** Each key of the dict holds the data of the last output with that name. */
  lemma {:induction false} ByNameLastData(outs: seq<OutputTensor>, a: nat)
    requires a < |ByName(outs)|
    ensures Some(ByName(outs)[a].1) == LastData(outs, ByName(outs)[a].0)
    decreases |outs|
  {
    var init := outs[..|outs| - 1];
    var o := outs[|outs| - 1];
    var prev := ByName(init);
    var name := ByName(outs)[a].0;
    assert Keys(ByName(outs))[a] == name;
    if name != o.name {
      assert a < |prev| && prev[a].0 == name;
      ByNameLastData(init, a);
    }
  }

  /** The dict of distinctly named outputs: each output's name and data, in order. */
  function Pairs(outs: seq<OutputTensor>): (d: ByNameDict)
    ensures |d| == |outs| && forall k :: 0 <= k < |outs| ==> d[k] == (outs[k].name, outs[k].data)
  {
    seq(|outs|, k requires 0 <= k < |outs| => (outs[k].name, outs[k].data))
  }

  /** With distinct names the dict is the outputs themselves, in order. */
  lemma {:induction false} ByNameDistinct(outs: seq<OutputTensor>)
    requires forall a, b :: 0 <= a < b < |outs| ==> outs[a].name != outs[b].name
    ensures ByName(outs) == Pairs(outs)
    decreases |outs|
  {
    if outs != [] {
      var init := outs[..|outs| - 1];
      var o := outs[|outs| - 1];
      ByNameDistinct(init);
      assert Keys(Pairs(init)) == Names(init);
      assert o.name !in Names(init);
      assert Pairs(outs) == Pairs(init) + [(o.name, o.data)];
    }
  }

  /** The non-empty values of `s`, in order. */
  function NonEmpty(s: seq<Json>): (r: seq<Json>)
    ensures |r| <= |s|
    ensures forall x :: x in r <==> x in s && x != Empty
    ensures !HasEntity(s) ==> r == []
    decreases |s|
  {
    if s == [] then []
    else
      var init := NonEmpty(s[..|s| - 1]);
      assert s == s[..|s| - 1] + [s[|s| - 1]];
      if s[|s| - 1] != Empty then init + [s[|s| - 1]] else init
  }

  /** One output of one transaction in the drop-empties variant: a name and its data only. */
  datatype NamedData = NamedData(name: string, data: seq<Json>)

  datatype SlimTransaction = SlimTransaction(modelName: Json, modelVersion: Json, outputs: seq<NamedData>)

  function SlimTransactionAt(r: Response, d: ByNameDict, i: nat, m: nat): (t: SlimTransaction)
    ensures |t.outputs| == |d|
  {
    SlimTransaction(r.modelName.GetOr(Str("")), r.modelVersion.GetOr(Str("")),
      seq(|d|, k requires 0 <= k < |d| => NamedData(d[k].0, NonEmpty(Slice(d[k].1, i, m)))))
  }

  /** What the drop-empties `parse_tensor_response` returns. */
  function DebatchDropEmpties(r: Response): (ts: seq<SlimTransaction>)
    ensures Dims(r).None? ==> ts == []
    ensures Dims(r).Some? ==> |ts| == Dims(r).value.0
  {
    match Dims(r)
    case None => []
    case Some((n, m)) =>
      var d := ByName(r.outputs);
      seq(n, i requires 0 <= i < n => SlimTransactionAt(r, d, i, m))
  }

  /** The inner loop of the drop-empties variant: transaction `i`'s non-empty values of `data`. */
  method NonEmptySlice(data: seq<Json>, i: nat, m: nat) returns (txData: seq<Json>)
    ensures txData == NonEmpty(Slice(data, i, m))
  {
    txData := [];
    var j := 0;
    while j < m
      invariant 0 <= j <= m
      invariant txData == NonEmpty(Slice(data, i, m)[..j])
    {
      var idx := i * m + j;
      var value := if idx < |data| then data[idx] else Empty;
      assert Slice(data, i, m)[..j + 1] == Slice(data, i, m)[..j] + [value];
      if value != Empty {
        txData := txData + [value];
      }
      j := j + 1;
    }
    assert Slice(data, i, m)[..m] == Slice(data, i, m);
  }

  /** One transaction of the drop-empties variant: each dict entry with its non-empty values. */
  method SlimTransactionOf(r: Response, d: ByNameDict, i: nat, m: nat) returns (t: SlimTransaction)
    ensures t == SlimTransactionAt(r, d, i, m)
  {
    var txOutputs: seq<NamedData> := [];
    var k := 0;
    while k < |d|
      invariant 0 <= k <= |d|
      invariant |txOutputs| == k
      invariant forall q :: 0 <= q < k ==> txOutputs[q] == SlimTransactionAt(r, d, i, m).outputs[q]
    {
      var txData := NonEmptySlice(d[k].1, i, m);
      txOutputs := txOutputs + [NamedData(d[k].0, txData)];
      k := k + 1;
    }
    t := SlimTransaction(r.modelName.GetOr(Str("")), r.modelVersion.GetOr(Str("")), txOutputs);
  }

  /** Drop-empties `parse_tensor_response`. */
  method ParseTensorResponseDropEmpties(r: Response) returns (results: seq<SlimTransaction>)
    ensures results == DebatchDropEmpties(r)
  {
    if |r.outputs| == 0 || |r.outputs[0].shape| != 2 {
      return [];
    }
    var n := Count(r.outputs[0].shape[0]);
    var m := Count(r.outputs[0].shape[1]);
    var d := CollectByName(r.outputs);
    results := [];
    var i := 0;
    while i < n
      invariant 0 <= i <= n
      invariant |results| == i
      invariant forall t :: 0 <= t < i ==> results[t] == SlimTransactionAt(r, d, t, m)
    {
      var t := SlimTransactionOf(r, d, i, m);
      results := results + [t];
      i := i + 1;
    }
    assert Dims(r) == Some((n, m));
  }

  /**
    The drop-empties data of a transaction are its slice's non-empty values,
    in order, so never more than `max_entities` of them and never `""`.
   */
  lemma DropEmptiesKeepsNonEmpty(r: Response, i: nat, k: nat)
    requires Dims(r).Some? && i < Dims(r).value.0 && k < |ByName(r.outputs)|
    ensures var o := DebatchDropEmpties(r)[i].outputs[k];
            var last := LastData(r.outputs, o.name);
            |o.data| <= Dims(r).value.1 && Empty !in o.data
            && last.Some? && o.data == NonEmpty(Slice(last.value, i, Dims(r).value.1))
  {
    ByNameLastData(r.outputs, k);
  }

  /**
    With distinct output names, the two variants agree up to the empty
    values: each drop-empties output is the all-or-nothing output with its
    `""` entries removed.
   */
  lemma VariantsAgreeUpToEmpties(r: Response, i: nat, k: nat)
    requires forall a, b :: 0 <= a < b < |r.outputs| ==> r.outputs[a].name != r.outputs[b].name
    requires Dims(r).Some? && i < Dims(r).value.0 && k < |r.outputs|
    ensures |DebatchDropEmpties(r)[i].outputs| == |Debatch(r)[i].outputs|
    ensures DebatchDropEmpties(r)[i].outputs[k].name == Debatch(r)[i].outputs[k].name
    ensures DebatchDropEmpties(r)[i].outputs[k].data == NonEmpty(Debatch(r)[i].outputs[k].data)
  {
    ByNameDistinct(r.outputs);
    var m := Dims(r).value.1;
    var s := Slice(r.outputs[k].data, i, m);
    if !TransactionHasEntities(r.outputs, i, m) {
      assert !HasEntity(s);
    }
  }

  // ---------------------------------------------------------------------
  // The JSON text written per transaction (`json.dumps(results[i])`)
  // ---------------------------------------------------------------------

  function JsonList(s: seq<int>): (j: Json)
    ensures j.Arr? && |j.items| == |s|
  {
    Arr(seq(|s|, k requires 0 <= k < |s| => Int(s[k])))
  }

  function TransactionJson(t: Transaction): (j: Json)
    ensures j.Obj? && j.fields.Keys == {"model_name", "model_version", "outputs"}
  {
    Obj(map["model_name" := t.modelName, "model_version" := t.modelVersion,
            "outputs" := Arr(seq(|t.outputs|, k requires 0 <= k < |t.outputs| =>
              Obj(map["name" := Str(t.outputs[k].name), "datatype" := t.outputs[k].dataType,
                      "shape" := JsonList(t.outputs[k].shape), "data" := Arr(t.outputs[k].data)])))])
  }

  function SlimTransactionJson(t: SlimTransaction): (j: Json)
    ensures j.Obj? && j.fields.Keys == {"model_name", "model_version", "outputs"}
  {
    Obj(map["model_name" := t.modelName, "model_version" := t.modelVersion,
            "outputs" := Arr(seq(|t.outputs|, k requires 0 <= k < |t.outputs| =>
              Obj(map["name" := Str(t.outputs[k].name), "data" := Arr(t.outputs[k].data)])))])
  }
}
