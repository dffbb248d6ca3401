/** The funding-transaction engine (internal/cardano/tx): the accounting check over what an untrusted
    builder returns, and the exclusion of inputs that earlier submissions already spent. */
module Tx {
  import opened Fingerprints
  import opened Text

  // -------------------------------------------------------------------------------------------
  // int64

  const TWO_64: int := 0x1_0000_0000_0000_0000
  const MAX_INT64: int := 0x7FFF_FFFF_FFFF_FFFF
  const MIN_INT64: int := -0x8000_0000_0000_0000

  predicate FitsInt64(x: int) {
    MIN_INT64 <= x <= MAX_INT64
  }

  type Int64 = x: int | FitsInt64(x)

  /** How many times the int64 range fits between `x` and the value it wraps to. */
  function Turns(x: int): (k: int)
    ensures FitsInt64(x - k * TWO_64)
  {
    (x - MIN_INT64) / TWO_64
  }

  /** The int64 a wrapping operation leaves behind. */
  function Wrap64(x: int): (w: Int64)
    ensures FitsInt64(x) ==> w == x
  {
    x - Turns(x) * TWO_64
  }

  /** Wrapping is arithmetic modulo 2^64: whole turns do not matter. */
  lemma WrapShift(x: int, k: int)
    ensures Wrap64(x + k * TWO_64) == Wrap64(x)
  {
    var w := Wrap64(x + k * TWO_64);
    assert w - Wrap64(x) == (k - Turns(x + k * TWO_64) + Turns(x)) * TWO_64;
  }

  /** An accumulator that wraps after every addition equals the wrapped sum. */
  lemma WrapAccumulates(x: int, y: int)
    ensures Wrap64(Wrap64(x) + y) == Wrap64(x + y)
  {
    WrapShift(x + y, -Turns(x));
  }

  lemma WrapOfDifference(x: int, y: int)
    ensures Wrap64(Wrap64(x) - Wrap64(y)) == Wrap64(x - y)
  {
    WrapShift(x - y, Turns(y) - Turns(x));
  }

  function Add64(x: int, y: int): Int64 {
    Wrap64(x + y)
  }

  function Sub64(x: int, y: int): Int64 {
    Wrap64(x - y)
  }

  // -------------------------------------------------------------------------------------------
  // Transactions

  type Byte = b: int | 0 <= b < 256

  datatype Input = Input(transactionId: seq<Byte>, index: int)

  /** `hasAssets`: some non-ADA asset is left once zero amounts are removed. */
  datatype Output = Output(address: string, lovelace: Int64, hasAssets: bool)

  datatype Transaction = Transaction(inputs: seq<Input>, outputs: seq<Output>, fee: Int64)

  /** A source UTxO; `key` is what the client library's `GetKey` returns for it. */
  datatype UTxO = UTxO(key: string, address: string, lovelace: Int64)

  function HexDigit(d: int): (c: char)
    requires 0 <= d < 16
  {
    if d < 10 then (d + 48) as char else (d + 87) as char
  }

  /** `hex.EncodeToString`. */
  function Hex(bytes: seq<Byte>): string {
    if bytes == [] then "" else [HexDigit(bytes[0] / 16), HexDigit(bytes[0] % 16)] + Hex(bytes[1..])
  }

  /** A character that is neither a colon nor a space nor an upper-case letter. */
  predicate Plain(c: char) {
    c != ':' && !IsSpace(c) && LowerChar(c) == c
  }

  lemma {:induction false} HexIsPlain(bytes: seq<Byte>)
    ensures forall i :: 0 <= i < |Hex(bytes)| ==> Plain(Hex(bytes)[i])
  {
    if bytes != [] {
      HexIsPlain(bytes[1..]);
      var s := Hex(bytes);
      assert s[2..] == Hex(bytes[1..]);
      forall i | 0 <= i < |s| ensures Plain(s[i]) {
        if i >= 2 { assert s[i] == s[2..][i - 2]; }
      }
    }
  }

  /** `inputKey`. */
  function InputKey(input: Input): string {
    Hex(input.transactionId) + ":" + FormatInt(input.index)
  }

  /** A key is its own lower-cased and trimmed form. */
  lemma InputKeyIsNormal(input: Input)
    ensures var key := InputKey(input); key != "" && Trimmed(key) && ToLower(key) == key
  {
    var key := InputKey(input);
    HexIsPlain(input.transactionId);
    FormatIntCharacters(input.index);
    forall i | 0 <= i < |key| ensures LowerChar(key[i]) == key[i] && !IsSpace(key[i]) {
      if i < |Hex(input.transactionId)| { assert Plain(Hex(input.transactionId)[i]); }
    }
    assert ToLower(key) == key;
  }

  lemma {:induction false} HexInjective(a: seq<Byte>, b: seq<Byte>)
    requires Hex(a) == Hex(b)
    ensures a == b
  {
    if a != [] && b != [] {
      assert HexDigit(a[0] / 16) == Hex(a)[0] == Hex(b)[0] == HexDigit(b[0] / 16);
      assert HexDigit(a[0] % 16) == Hex(a)[1] == Hex(b)[1] == HexDigit(b[0] % 16);
      assert Hex(a)[2..] == Hex(a[1..]) && Hex(b)[2..] == Hex(b[1..]);
      HexInjective(a[1..], b[1..]);
    }
  }

  lemma {:induction false} FirstColon(x: string, xs: string, y: string, ys: string)
    requires x + ":" + xs == y + ":" + ys && ':' !in x && ':' !in y
    ensures x == y && xs == ys
  {
    if x == "" || y == "" {
      assert (x + ":" + xs)[|x|] == ':' && (y + ":" + ys)[|y|] == ':';
      assert |x| == 0 && |y| == 0;
      assert (x + ":" + xs)[1..] == xs && (y + ":" + ys)[1..] == ys;
    } else {
      assert (x + ":" + xs)[0] == x[0] && (y + ":" + ys)[0] == y[0];
      assert (x + ":" + xs)[1..] == x[1..] + ":" + xs && (y + ":" + ys)[1..] == y[1..] + ":" + ys;
      FirstColon(x[1..], xs, y[1..], ys);
    }
  }

  /** Different inputs have different keys, also in lower case. */
  lemma InputKeyInjective(a: Input, b: Input)
    requires ToLower(InputKey(a)) == ToLower(InputKey(b))
    ensures a == b
  {
    InputKeyIsNormal(a);
    InputKeyIsNormal(b);
    HexIsPlain(a.transactionId);
    HexIsPlain(b.transactionId);
    FirstColon(Hex(a.transactionId), FormatInt(a.index), Hex(b.transactionId), FormatInt(b.index));
    HexInjective(a.transactionId, b.transactionId);
    FormatIntInjective(a.index, b.index);
  }

  // -------------------------------------------------------------------------------------------
  // The exclusion filter

  function NormalKey(key: string): string {
    ToLower(TrimSpace(key))
  }

  /** The keys to exclude, as the filter normalizes them. */
  function ExcludedSet(keys: seq<string>): set<string> {
    if keys == [] then {}
    else
      var key := NormalKey(keys[|keys| - 1]);
      ExcludedSet(keys[..|keys| - 1]) + if key == "" then {} else {key}
  }

  lemma {:induction false} Excludes(keys: seq<string>, i: nat)
    requires i < |keys| && NormalKey(keys[i]) != ""
    ensures NormalKey(keys[i]) in ExcludedSet(keys)
  {
    hide NormalKey;
    if i < |keys| - 1 {
      Excludes(keys[..|keys| - 1], i);
    }
  }

  /** The UTxOs that are left, in order. */
  function Kept(utxos: seq<UTxO>, excluded: set<string>): seq<UTxO> {
    if utxos == [] then []
    else
      var last := utxos[|utxos| - 1];
      Kept(utxos[..|utxos| - 1], excluded) + if ToLower(last.key) in excluded then [] else [last]
  }

  lemma {:induction false} KeptIsTheRest(utxos: seq<UTxO>, excluded: set<string>, u: UTxO)
    ensures u in Kept(utxos, excluded) <==> u in utxos && ToLower(u.key) !in excluded
  {
    hide ToLower;
    if utxos != [] {
      var n := |utxos| - 1;
      KeptIsTheRest(utxos[..n], excluded, u);
      assert utxos == utxos[..n] + [utxos[n]];
    }
  }

  lemma {:induction false} KeptAll(utxos: seq<UTxO>)
    ensures Kept(utxos, {}) == utxos
  {
    if utxos != [] {
      KeptAll(utxos[..|utxos| - 1]);
    }
  }

  method NormalizeExcluded(keys: seq<string>) returns (excluded: set<string>)
    ensures excluded == ExcludedSet(keys)
  {
    hide NormalKey;
    excluded := {};
    for i := 0 to |keys|
      invariant excluded == ExcludedSet(keys[..i])
    {
      assert keys[..i + 1][..i] == keys[..i];
      var inputKey := NormalKey(keys[i]);
      if inputKey == "" {
        continue;
      }
      excluded := excluded + {inputKey};
    }
    assert keys[..|keys|] == keys;
  }

  /** `filterExcludedUTxOs`. */
  method FilterExcludedUTxOs(utxos: seq<UTxO>, excludedInputKeys: seq<string>) returns (filtered: seq<UTxO>)
    ensures filtered == Kept(utxos, ExcludedSet(excludedInputKeys))
  {
    hide ToLower;
    KeptAll(utxos);
    if utxos == [] || excludedInputKeys == [] {
      return utxos;
    }
    var excluded := NormalizeExcluded(excludedInputKeys);
    if excluded == {} {
      return utxos;
    }
    filtered := [];
    for i := 0 to |utxos|
      invariant filtered == Kept(utxos[..i], excluded)
    {
      assert utxos[..i + 1][..i] == utxos[..i];
      if ToLower(utxos[i].key) in excluded {
        continue;
      }
      filtered := filtered + [utxos[i]];
    }
    assert utxos[..|utxos|] == utxos;
  }

  // -------------------------------------------------------------------------------------------
  // The accounting check

  datatype TxError =
    | NoTransaction | NegativeFee | FeeTooHigh | AmountOverflow | WrongSourceAddress | NoInputs | NonSourceInput
    | UnexpectedOutput | WrongAmount | AssetsAdded | WrongOutputCount | WrongLoss

  datatype Request = Request(source: string, destination: string, lovelace: Int64, maxFee: Int64)

  /** `sourceByInput`: of UTxOs with the same key the last one counts. */
  function ByKey(utxos: seq<UTxO>): map<string, Int64> {
    if utxos == [] then map[]
    else
      var last := utxos[|utxos| - 1];
      ByKey(utxos[..|utxos| - 1])[ToLower(last.key) := last.lovelace]
  }

  lemma {:induction false} KeyedUTxO(utxos: seq<UTxO>, key: string) returns (u: UTxO)
    requires key in ByKey(utxos)
    ensures u in utxos && ToLower(u.key) == key
  {
    hide ToLower;
    var n := |utxos| - 1;
    if key == ToLower(utxos[n].key) {
      u := utxos[n];
    } else {
      u := KeyedUTxO(utxos[..n], key);
    }
  }

  predicate SpendsFrom(inputs: seq<Input>, m: map<string, Int64>) {
    forall i :: 0 <= i < |inputs| ==> ToLower(InputKey(inputs[i])) in m
  }

  /** What the inputs are worth, each occurrence counted. */
  function SumInputs(inputs: seq<Input>, m: map<string, Int64>): int
    requires SpendsFrom(inputs, m)
  {
    if inputs == [] then 0
    else SumInputs(inputs[..|inputs| - 1], m) + m[ToLower(InputKey(inputs[|inputs| - 1]))]
  }

  function SumChange(outputs: seq<Output>, source: string): int {
    if outputs == [] then 0
    else
      var last := outputs[|outputs| - 1];
      SumChange(outputs[..|outputs| - 1], source) + if last.address == source then last.lovelace else 0
  }

  function SumOutputs(outputs: seq<Output>): int {
    if outputs == [] then 0 else SumOutputs(outputs[..|outputs| - 1]) + outputs[|outputs| - 1].lovelace
  }

  /** How many outputs are not change. */
  function Payments(outputs: seq<Output>, source: string): nat {
    if outputs == [] then 0
    else Payments(outputs[..|outputs| - 1], source) + if outputs[|outputs| - 1].address == source then 0 else 1
  }

  predicate PaysExactly(o: Output, r: Request) {
    o.address == r.destination && o.lovelace == r.lovelace && !o.hasAssets
  }

  predicate OutputsInOrder(outputs: seq<Output>, r: Request) {
    forall i :: 0 <= i < |outputs| && outputs[i].address != r.source ==> PaysExactly(outputs[i], r)
  }

  /** What an accepted transaction looks like. */
  predicate Accepts(tx: Transaction, r: Request, utxos: seq<UTxO>) {
    && 0 <= tx.fee <= r.maxFee && r.lovelace + tx.fee <= MAX_INT64
    && (forall i :: 0 <= i < |utxos| ==> utxos[i].address == r.source)
    && tx.inputs != [] && SpendsFrom(tx.inputs, ByKey(utxos))
    && OutputsInOrder(tx.outputs, r) && Payments(tx.outputs, r.source) == 1
    && Wrap64(SumInputs(tx.inputs, ByKey(utxos)) - SumChange(tx.outputs, r.source)) == r.lovelace + tx.fee
  }

  method IndexSources(utxos: seq<UTxO>, source: string) returns (m: map<string, Int64>, ok: bool)
    ensures ok <==> forall i :: 0 <= i < |utxos| ==> utxos[i].address == source
    ensures ok ==> m == ByKey(utxos)
  {
    m := map[];
    ok := true;
    for i := 0 to |utxos|
      invariant forall k :: 0 <= k < i ==> utxos[k].address == source
      invariant m == ByKey(utxos[..i])
    {
      if utxos[i].address != source {
        return m, false;
      }
      assert utxos[..i + 1][..i] == utxos[..i];
      m := m[ToLower(utxos[i].key) := utxos[i].lovelace];
    }
    assert utxos[..|utxos|] == utxos;
  }

  /** The input loop. */
  method AddInputs(inputs: seq<Input>, m: map<string, Int64>) returns (total: Int64, ok: bool)
    ensures ok <==> SpendsFrom(inputs, m)
    ensures ok ==> total == Wrap64(SumInputs(inputs, m))
  {
    hide InputKey, Wrap64;
    total, ok := 0, true;
    for i := 0 to |inputs|
      invariant SpendsFrom(inputs[..i], m) && total == Wrap64(SumInputs(inputs[..i], m))
    {
      var key := ToLower(InputKey(inputs[i]));
      if key !in m {
        return total, false;
      }
      assert inputs[..i + 1][..i] == inputs[..i];
      assert SpendsFrom(inputs[..i + 1], m);
      WrapAccumulates(SumInputs(inputs[..i], m), m[key]);
      total := Add64(total, m[key]);
    }
    assert inputs[..|inputs|] == inputs;
  }

  /** The output loop: the change, and the number of payments unless some output is out of order. */
  method AddOutputs(outputs: seq<Output>, r: Request) returns (change: Int64, payments: nat, err: Option<TxError>)
    ensures err.None? <==> OutputsInOrder(outputs, r)
    ensures err.None? ==> change == Wrap64(SumChange(outputs, r.source)) && payments == Payments(outputs, r.source)
    ensures err.Some? ==>
              exists i :: 0 <= i < |outputs| && outputs[i].address != r.source && Refutes(outputs[i], r, err.value)
  {
    hide Wrap64;
    change, payments, err := 0, 0, None;
    for i := 0 to |outputs|
      invariant OutputsInOrder(outputs[..i], r)
      invariant change == Wrap64(SumChange(outputs[..i], r.source)) && payments == Payments(outputs[..i], r.source)
    {
      var o := outputs[i];
      assert outputs[..i + 1][..i] == outputs[..i] && outputs[..i + 1][i] == o;
      if o.address == r.source {
        WrapAccumulates(SumChange(outputs[..i], r.source), o.lovelace);
        change := Add64(change, o.lovelace);
        continue;
      }
      if o.address != r.destination {
        return change, payments, Some(UnexpectedOutput);
      }
      payments := payments + 1;
      if o.lovelace != r.lovelace {
        return change, payments, Some(WrongAmount);
      }
      if o.hasAssets {
        return change, payments, Some(AssetsAdded);
      }
    }
    assert outputs[..|outputs|] == outputs;
  }

  /** The reported problem is really there. */
  predicate Refutes(o: Output, r: Request, e: TxError) {
    match e
    case UnexpectedOutput => o.address != r.destination
    case WrongAmount => o.lovelace != r.lovelace
    case AssetsAdded => o.hasAssets
    case _ => false
  }

  predicate Explains(e: TxError, tx: Transaction, r: Request, utxos: seq<UTxO>) {
    match e
    case NoTransaction => false
    case NegativeFee => tx.fee < 0
    case FeeTooHigh => tx.fee > r.maxFee
    case AmountOverflow => r.lovelace + tx.fee > MAX_INT64
    case WrongSourceAddress => exists i :: 0 <= i < |utxos| && utxos[i].address != r.source
    case NoInputs => tx.inputs == []
    case NonSourceInput => !SpendsFrom(tx.inputs, ByKey(utxos))
    case WrongOutputCount => Payments(tx.outputs, r.source) != 1
    case WrongLoss =>
      && SpendsFrom(tx.inputs, ByKey(utxos))
      && Wrap64(SumInputs(tx.inputs, ByKey(utxos)) - SumChange(tx.outputs, r.source)) != r.lovelace + tx.fee
    case _ => exists i :: 0 <= i < |tx.outputs| && tx.outputs[i].address != r.source && Refutes(tx.outputs[i], r, e)
  }

  /** `validateTransaction`. */
  method ValidateTransaction(transaction: Option<Transaction>, r: Request, utxos: seq<UTxO>) returns (err: Option<TxError>)
    ensures err.None? <==> transaction.Some? && Accepts(transaction.value, r, utxos)
    ensures err.Some? ==> if transaction.None? then err.value == NoTransaction
                          else Explains(err.value, transaction.value, r, utxos)
    ensures transaction.Some? ==>
              && (err == Some(NegativeFee) <==> transaction.value.fee < 0)
              && (err == Some(FeeTooHigh) <==> transaction.value.fee >= 0 && transaction.value.fee > r.maxFee)
              && (err == Some(UnexpectedOutput) ==> exists o :: o in transaction.value.outputs && o.address != r.destination)
              && (err == Some(WrongAmount) ==> exists o :: o in transaction.value.outputs && o.lovelace != r.lovelace)
              && (err == Some(AssetsAdded) ==> exists o :: o in transaction.value.outputs && o.hasAssets)
  {
    hide Wrap64, ByKey, SumInputs, SumChange, Payments, OutputsInOrder, SpendsFrom;
    if transaction.None? {
      return Some(NoTransaction);
    }
    var tx := transaction.value;
    if tx.fee < 0 {
      return Some(NegativeFee);
    }
    if tx.fee > r.maxFee {
      return Some(FeeTooHigh);
    }
    if r.lovelace > MAX_INT64 - tx.fee {
      return Some(AmountOverflow);
    }
    var sources, known := IndexSources(utxos, r.source);
    if !known {
      return Some(WrongSourceAddress);
    }
    if tx.inputs == [] {
      return Some(NoInputs);
    }
    var inputTotal, spendable := AddInputs(tx.inputs, sources);
    if !spendable {
      return Some(NonSourceInput);
    }
    var change, payments, problem := AddOutputs(tx.outputs, r);
    if problem.Some? {
      return problem;
    }
    if payments != 1 {
      return Some(WrongOutputCount);
    }
    WrapOfDifference(SumInputs(tx.inputs, sources), SumChange(tx.outputs, r.source));
    if Sub64(inputTotal, change) != r.lovelace + tx.fee {
      return Some(WrongLoss);
    }
    return None;
  }

  // -------------------------------------------------------------------------------------------
  // What an accepted transaction is

  predicate OnlyPaymentAt(outputs: seq<Output>, source: string, i: nat) {
    i < |outputs| && forall j :: 0 <= j < |outputs| ==> (outputs[j].address != source <==> j == i)
  }

  lemma {:induction false} OnePayment(outputs: seq<Output>, source: string) returns (i: nat)
    requires Payments(outputs, source) == 1
    ensures OnlyPaymentAt(outputs, source, i)
  {
    var n := |outputs| - 1;
    var before := outputs[..n];
    assert outputs == before + [outputs[n]];
    if outputs[n].address == source {
      i := OnePayment(before, source);
    } else {
      NoPayment(before, source);
      i := n;
    }
  }

  lemma {:induction false} NoPayment(outputs: seq<Output>, source: string)
    requires Payments(outputs, source) == 0
    ensures forall j :: 0 <= j < |outputs| ==> outputs[j].address == source
  {
    if outputs != [] {
      var n := |outputs| - 1;
      NoPayment(outputs[..n], source);
      assert forall j :: 0 <= j < n ==> outputs[j] == outputs[..n][j];
    }
  }

  lemma {:induction false} OutputsSplit(outputs: seq<Output>, r: Request)
    requires OutputsInOrder(outputs, r)
    ensures SumOutputs(outputs) == SumChange(outputs, r.source) + Payments(outputs, r.source) * r.lovelace
  {
    if outputs != [] {
      var n := |outputs| - 1;
      assert forall j :: 0 <= j < n ==> outputs[..n][j] == outputs[j];
      OutputsSplit(outputs[..n], r);
    }
  }

  /** What the transaction pays: one output to the destination, of the exact amount, without assets;
      every other output is change to the source. */
  lemma AcceptedPaysOnce(tx: Transaction, r: Request, utxos: seq<UTxO>)
    requires Accepts(tx, r, utxos)
    ensures exists i: nat :: OnlyPaymentAt(tx.outputs, r.source, i) && PaysExactly(tx.outputs[i], r)
    ensures SumOutputs(tx.outputs) == SumChange(tx.outputs, r.source) + r.lovelace
  {
    hide InputKey, ByKey, SumInputs, Wrap64;
    var i := OnePayment(tx.outputs, r.source);
    OutputsSplit(tx.outputs, r);
  }

  /** Conservation holds modulo 2^64 always. */
  lemma ConservationModulo(tx: Transaction, r: Request, utxos: seq<UTxO>)
    requires Accepts(tx, r, utxos)
    ensures exists k :: SumInputs(tx.inputs, ByKey(utxos)) == SumOutputs(tx.outputs) + tx.fee + k * TWO_64
  {
    hide InputKey, ByKey, SumInputs, SumChange, SumOutputs;
    AcceptedPaysOnce(tx, r, utxos);
    var loss := SumInputs(tx.inputs, ByKey(utxos)) - SumChange(tx.outputs, r.source);
    assert loss == r.lovelace + tx.fee + Turns(loss) * TWO_64;
  }

  /** It holds exactly if and only if the source's true loss fits the int64 it is computed in. */
  lemma ConservationIff(tx: Transaction, r: Request, utxos: seq<UTxO>)
    requires Accepts(tx, r, utxos)
    ensures SumInputs(tx.inputs, ByKey(utxos)) == SumOutputs(tx.outputs) + tx.fee
            <==> FitsInt64(SumInputs(tx.inputs, ByKey(utxos)) - SumChange(tx.outputs, r.source))
  {
    hide InputKey, ByKey, SumInputs, SumChange, SumOutputs, Wrap64;
    AcceptedPaysOnce(tx, r, utxos);
    WrapIsExactIff(SumInputs(tx.inputs, ByKey(utxos)) - SumChange(tx.outputs, r.source));
  }

  lemma WrapIsExactIff(x: int)
    ensures Wrap64(x) == x <==> FitsInt64(x)
  {
  }

  predicate NonNegative(utxos: seq<UTxO>, outputs: seq<Output>) {
    && (forall i :: 0 <= i < |utxos| ==> utxos[i].lovelace >= 0)
    && (forall i :: 0 <= i < |outputs| ==> outputs[i].lovelace >= 0)
  }

  lemma {:induction false} ChangeIsNonNegative(outputs: seq<Output>, source: string)
    requires forall i :: 0 <= i < |outputs| ==> outputs[i].lovelace >= 0
    ensures 0 <= SumChange(outputs, source) <= SumOutputs(outputs)
  {
    if outputs != [] {
      ChangeIsNonNegative(outputs[..|outputs| - 1], source);
    }
  }

  lemma {:induction false} SourcesAreNonNegative(utxos: seq<UTxO>, k: string)
    requires forall i :: 0 <= i < |utxos| ==> utxos[i].lovelace >= 0
    requires k in ByKey(utxos)
    ensures ByKey(utxos)[k] >= 0
  {
    hide ToLower;
    var n := |utxos| - 1;
    if k != ToLower(utxos[n].key) {
      SourcesAreNonNegative(utxos[..n], k);
    }
  }

  lemma {:induction false} InputsAreNonNegative(inputs: seq<Input>, utxos: seq<UTxO>)
    requires SpendsFrom(inputs, ByKey(utxos)) && forall i :: 0 <= i < |utxos| ==> utxos[i].lovelace >= 0
    ensures SumInputs(inputs, ByKey(utxos)) >= 0
  {
    hide InputKey, ByKey;
    if inputs != [] {
      InputsAreNonNegative(inputs[..|inputs| - 1], utxos);
      SourcesAreNonNegative(utxos, ToLower(InputKey(inputs[|inputs| - 1])));
    }
  }

  /** In particular for real amounts: none negative and both totals within int64. */
  lemma ConservationOfRealAmounts(tx: Transaction, r: Request, utxos: seq<UTxO>)
    requires Accepts(tx, r, utxos) && NonNegative(utxos, tx.outputs)
    requires SumInputs(tx.inputs, ByKey(utxos)) <= MAX_INT64 && SumChange(tx.outputs, r.source) <= MAX_INT64
    ensures SumInputs(tx.inputs, ByKey(utxos)) == SumOutputs(tx.outputs) + tx.fee
  {
    hide InputKey, ByKey, Wrap64;
    ConservationIff(tx, r, utxos);
    ChangeIsNonNegative(tx.outputs, r.source);
    InputsAreNonNegative(tx.inputs, utxos);
  }

  // -------------------------------------------------------------------------------------------
  // Repeated inputs

  /** Each input once, at its first occurrence: what the ledger consumes. */
  function Once(inputs: seq<Input>): seq<Input> {
    if inputs == [] then []
    else
      var n := |inputs| - 1;
      Once(inputs[..n]) + if inputs[n] in inputs[..n] then [] else [inputs[n]]
  }

  lemma {:induction false} OnceSpends(inputs: seq<Input>, m: map<string, Int64>)
    requires SpendsFrom(inputs, m)
    ensures SpendsFrom(Once(inputs), m)
  {
    hide InputKey;
    if inputs != [] {
      var n := |inputs| - 1;
      OnceSpends(inputs[..n], m);
      var before := Once(inputs[..n]);
      assert inputs[n] !in inputs[..n] ==> Once(inputs) == before + [inputs[n]];
    }
  }

  /** The worth of the repeated occurrences. */
  function RepeatedWorth(inputs: seq<Input>, m: map<string, Int64>): int
    requires SpendsFrom(inputs, m)
  {
    if inputs == [] then 0
    else
      var n := |inputs| - 1;
      RepeatedWorth(inputs[..n], m) + if inputs[n] in inputs[..n] then m[ToLower(InputKey(inputs[n]))] else 0
  }

  lemma {:induction false} SumSplitsIntoOnceAndRepeated(inputs: seq<Input>, m: map<string, Int64>)
    requires SpendsFrom(inputs, m)
    ensures SpendsFrom(Once(inputs), m)
    ensures SumInputs(inputs, m) == SumInputs(Once(inputs), m) + RepeatedWorth(inputs, m)
  {
    hide InputKey;
    OnceSpends(inputs, m);
    if inputs != [] {
      var n := |inputs| - 1;
      SumSplitsIntoOnceAndRepeated(inputs[..n], m);
      var before := Once(inputs[..n]);
      if inputs[n] !in inputs[..n] {
        var all := before + [inputs[n]];
        assert Once(inputs) == all && all[..|before|] == before && all[|all| - 1] == inputs[n];
        assert SumInputs(all, m) == SumInputs(before, m) + m[ToLower(InputKey(inputs[n]))];
      } else {
        assert Once(inputs) == before;
      }
    }
  }

  lemma {:induction false} NoRepeatedWorth(inputs: seq<Input>, m: map<string, Int64>)
    requires SpendsFrom(inputs, m) && forall i, j :: 0 <= i < j < |inputs| ==> inputs[i] != inputs[j]
    ensures RepeatedWorth(inputs, m) == 0
  {
    if inputs != [] {
      NoRepeatedWorth(inputs[..|inputs| - 1], m);
    }
  }

  /** The validator counts an input once per occurrence, the ledger once. What the ledger consumes
      covers outputs and fee exactly if and only if the repeated occurrences are worth nothing; in
      particular when no input is repeated. */
  lemma LedgerConservationIff(tx: Transaction, r: Request, utxos: seq<UTxO>)
    requires Accepts(tx, r, utxos)
    requires FitsInt64(SumInputs(tx.inputs, ByKey(utxos)) - SumChange(tx.outputs, r.source))
    ensures SpendsFrom(Once(tx.inputs), ByKey(utxos))
    ensures SumInputs(Once(tx.inputs), ByKey(utxos)) == SumOutputs(tx.outputs) + tx.fee
            <==> RepeatedWorth(tx.inputs, ByKey(utxos)) == 0
    ensures (forall i, j :: 0 <= i < j < |tx.inputs| ==> tx.inputs[i] != tx.inputs[j]) ==>
              RepeatedWorth(tx.inputs, ByKey(utxos)) == 0
  {
    hide InputKey, ByKey, Wrap64;
    ConservationIff(tx, r, utxos);
    SumSplitsIntoOnceAndRepeated(tx.inputs, ByKey(utxos));
    if forall i, j :: 0 <= i < j < |tx.inputs| ==> tx.inputs[i] != tx.inputs[j] {
      NoRepeatedWorth(tx.inputs, ByKey(utxos));
    }
  }

  // -------------------------------------------------------------------------------------------
  // Chained submissions

  function SpentKeys(inputs: seq<Input>): (keys: seq<string>)
    ensures |keys| == |inputs|
    ensures forall i :: 0 <= i < |inputs| ==> keys[i] == InputKey(inputs[i])
  {
    seq(|inputs|, i requires 0 <= i < |inputs| => InputKey(inputs[i]))
  }

  /** `spentInputKeys`. */
  method SpentInputKeys(inputs: seq<Input>) returns (result: seq<string>)
    ensures result == SpentKeys(inputs)
  {
    hide InputKey;
    result := [];
    for i := 0 to |inputs|
      invariant |result| == i && forall k :: 0 <= k < i ==> result[k] == InputKey(inputs[k])
    {
      result := result + [InputKey(inputs[i])];
    }
    assert result == SpentKeys(inputs);
  }

  lemma NothingToSpend(tx: Transaction, r: Request)
    ensures !Accepts(tx, r, [])
  {
  }

  /** A submission as the caller asks for it. Whether the destination is a testnet address and whether the
      keys are 32 bytes of hex that belong to the source address are decided outside this model. */
  datatype Call = Call(sourceName: string, request: Request, excludeInputKeys: seq<string>, testnetDestination: bool,
                       keysMatch: bool)

  /** What the chain client and the builder answer: the source's UTxOs, the built transaction, if it comes
      to completing one, and the transaction id the node returns. */
  datatype Chain = Chain(connects: bool, utxos: Option<seq<UTxO>>, completes: bool, built: Option<Transaction>,
                         submits: Option<string>)

  datatype RequestProblem = SourceNameRequired | DestinationRequired | DestinationInvalid | LovelaceNotPositive
                          | SourceKeysInvalid | DestinationIsSource

  datatype SubmitError = InvalidRequest(problem: RequestProblem) | ChainUnavailable | NoUTxOs | AllPending
                       | Invalid(error: TxError)

  datatype Submitted = Submitted(txID: string, spentInputKeys: seq<string>)

  /** `validateRequest`. */
  method ValidateRequest(c: Call) returns (problem: Option<RequestProblem>)
    ensures problem.None? <==> ValidRequest(c)
    ensures problem == Some(SourceNameRequired) <==> TrimSpace(c.sourceName) == ""
    ensures problem.Some? ==>
              match problem.value
              case SourceNameRequired => true
              case DestinationRequired => TrimSpace(c.request.destination) == ""
              case DestinationInvalid => !c.testnetDestination
              case LovelaceNotPositive => c.request.lovelace <= 0
              case SourceKeysInvalid => !c.keysMatch
              case DestinationIsSource => c.request.destination == c.request.source
    ensures problem.None? ==>
              && TrimSpace(c.request.destination) != "" && c.testnetDestination && c.request.lovelace > 0 && c.keysMatch
              && c.request.destination != c.request.source
  {
    hide TrimSpace;
    if TrimSpace(c.sourceName) == "" {
      return Some(SourceNameRequired);
    }
    if TrimSpace(c.request.destination) == "" {
      return Some(DestinationRequired);
    }
    if !c.testnetDestination {
      return Some(DestinationInvalid);
    }
    if c.request.lovelace <= 0 {
      return Some(LovelaceNotPositive);
    }
    if !c.keysMatch {
      return Some(SourceKeysInvalid);
    }
    if c.request.destination == c.request.source {
      return Some(DestinationIsSource);
    }
    return None;
  }

  predicate ValidRequest(c: Call) {
    && TrimSpace(c.sourceName) != "" && TrimSpace(c.request.destination) != "" && c.testnetDestination
    && c.request.lovelace > 0 && c.keysMatch && c.request.destination != c.request.source
  }

  /** The transaction may be signed and sent. */
  predicate MaySend(c: Call, chain: Chain) {
    && ValidRequest(c) && chain.connects && chain.utxos.Some? && chain.completes && chain.built.Some?
    && Accepts(chain.built.value, c.request, Kept(chain.utxos.value, ExcludedSet(c.excludeInputKeys)))
  }

  /** `Apollo.Submit`; `sent` tells whether the signed transaction goes out, whatever is answered. */
  method Submit(c: Call, chain: Chain) returns (result: Result<Submitted, SubmitError>, sent: bool)
    ensures sent <==> MaySend(c, chain)
    ensures result.Ok? <==> sent && chain.submits.Some?
    ensures result.Ok? ==>
              result.value == Submitted(chain.submits.value, SpentKeys(chain.built.value.inputs))
              && result.value.spentInputKeys != []
    ensures result.Err? && result.error.InvalidRequest? <==> !ValidRequest(c)
    ensures result == Err(NoUTxOs) <==> ValidRequest(c) && chain.connects && chain.utxos == Some([])
    ensures sent ==> chain.connects && chain.utxos.Some? && chain.completes && chain.built.Some?
    ensures result.Err? && result.error.Invalid? ==>
              chain.connects && chain.utxos.Some? && chain.completes
              && if chain.built.None? then result.error.error == NoTransaction
                 else Explains(result.error.error, chain.built.value, c.request,
                               Kept(chain.utxos.value, ExcludedSet(c.excludeInputKeys)))
  {
    hide InputKey, ToLower, Wrap64, SumInputs, SumChange, TrimSpace, ValidRequest;
    var problem := ValidateRequest(c);
    if problem.Some? {
      return Err(InvalidRequest(problem.value)), false;
    }
    if !chain.connects || chain.utxos.None? {
      return Err(ChainUnavailable), false;
    }
    if chain.built.Some? {
      NothingToSpend(chain.built.value, c.request);
    }
    var utxos := chain.utxos.value;
    if utxos == [] {
      assert Kept(utxos, ExcludedSet(c.excludeInputKeys)) == [];
      return Err(NoUTxOs), false;
    }
    var available := FilterExcludedUTxOs(utxos, c.excludeInputKeys);
    if available == [] {
      return Err(AllPending), false;
    }
    if !chain.completes {
      return Err(ChainUnavailable), false;
    }
    var err := ValidateTransaction(chain.built, c.request, available);
    if err.Some? {
      return Err(Invalid(err.value)), false;
    }
    var spent := SpentInputKeys(chain.built.value.inputs);
    if chain.submits.None? {
      return Err(ChainUnavailable), true;
    }
    return Ok(Submitted(chain.submits.value, spent)), true;
  }

  /** One successful submission. */
  datatype Submission = Submission(request: Request, excluded: seq<string>, utxos: seq<UTxO>, tx: Transaction)

  predicate Succeeded(x: Submission) {
    Accepts(x.tx, x.request, Kept(x.utxos, ExcludedSet(x.excluded)))
  }

  /** `key` is on the list, up to case and surrounding whitespace. */
  predicate Lists(excluded: seq<string>, key: string) {
    exists i :: 0 <= i < |excluded| && NormalKey(excluded[i]) == ToLower(key)
  }

  /** Every submission excludes what all earlier ones reported as spent. */
  predicate Chained(run: seq<Submission>) {
    forall i, j, k :: 0 <= i < j < |run| && 0 <= k < |run[i].tx.inputs| ==>
      Lists(run[j].excluded, InputKey(run[i].tx.inputs[k]))
  }

  /** A spent key put on the list as it was reported is listed. */
  lemma ReportedKeysAreListed(excluded: seq<string>, inputs: seq<Input>)
    requires forall key :: key in SpentKeys(inputs) ==> key in excluded
    ensures forall k :: 0 <= k < |inputs| ==> Lists(excluded, InputKey(inputs[k]))
  {
    hide InputKey, TrimSpace, ToLower;
    forall k | 0 <= k < |inputs| ensures Lists(excluded, InputKey(inputs[k])) {
      var key := InputKey(inputs[k]);
      InputKeyIsNormal(inputs[k]);
      assert key == SpentKeys(inputs)[k] && key in SpentKeys(inputs);
      var i :| 0 <= i < |excluded| && excluded[i] == key;
      assert NormalKey(excluded[i]) == ToLower(key);
    }
  }

  lemma ListedInputIsNotSpent(x: Submission, input: Input)
    requires Succeeded(x) && Lists(x.excluded, InputKey(input))
    ensures forall k :: 0 <= k < |x.tx.inputs| ==> ToLower(InputKey(x.tx.inputs[k])) != ToLower(InputKey(input))
  {
    hide InputKey, ToLower, TrimSpace, Wrap64, SumInputs, SumChange;
    var excluded := ExcludedSet(x.excluded);
    var available := Kept(x.utxos, excluded);
    var i :| 0 <= i < |x.excluded| && NormalKey(x.excluded[i]) == ToLower(InputKey(input));
    LoweredKeyIsPresent(input);
    Excludes(x.excluded, i);
    forall k | 0 <= k < |x.tx.inputs| ensures ToLower(InputKey(x.tx.inputs[k])) != ToLower(InputKey(input)) {
      assert ToLower(InputKey(x.tx.inputs[k])) in ByKey(available);
      var u := KeyedUTxO(available, ToLower(InputKey(x.tx.inputs[k])));
      KeptIsTheRest(x.utxos, excluded, u);
    }
  }

  lemma LoweredKeyIsPresent(input: Input)
    ensures ToLower(InputKey(input)) != ""
  {
    InputKeyIsNormal(input);
  }

  /** No UTxO is spent twice: in any run of successful submissions, each excluding what all earlier
      ones reported, no two share an input, not even up to the case of its key. */
  lemma NoUTxOReuse(run: seq<Submission>, i: nat, j: nat)
    requires Chained(run) && i < j < |run| && forall x :: x in run ==> Succeeded(x)
    ensures forall k, l :: 0 <= k < |run[i].tx.inputs| && 0 <= l < |run[j].tx.inputs| ==>
              && ToLower(InputKey(run[i].tx.inputs[k])) != ToLower(InputKey(run[j].tx.inputs[l]))
              && run[i].tx.inputs[k] != run[j].tx.inputs[l]
  {
    hide InputKey, ToLower, Lists, Succeeded;
    assert run[j] in run;
    forall k | 0 <= k < |run[i].tx.inputs|
      ensures forall l :: 0 <= l < |run[j].tx.inputs| ==>
                ToLower(InputKey(run[i].tx.inputs[k])) != ToLower(InputKey(run[j].tx.inputs[l]))
    {
      ListedInputIsNotSpent(run[j], run[i].tx.inputs[k]);
    }
  }

  /** A doubled input pays twice: with one UTxO of `worth` lovelace the validator accepts a transaction
      that pays out twice as much. */
  lemma DoubledInputIsAccepted(input: Input, r: Request, worth: int, fee: Int64)
    requires worth > 0 && 0 <= fee <= r.maxFee && r.lovelace + fee == 2 * worth <= MAX_INT64
    requires r.source != r.destination
    ensures var utxos := [UTxO(InputKey(input), r.source, worth)];
            var tx := Transaction([input, input], [Output(r.destination, r.lovelace, false)], fee);
            && Accepts(tx, r, utxos)
            && Once(tx.inputs) == [input] && ByKey(utxos) == map[ToLower(InputKey(input)) := worth]
            && SumOutputs(tx.outputs) + tx.fee == 2 * worth
  {
    hide InputKey, ToLower;
    DoubledInputTotals(input, r.source, worth);
    var outputs := [Output(r.destination, r.lovelace, false)];
    assert outputs[..|outputs| - 1] == [] && outputs[|outputs| - 1] == outputs[0];
    assert SumChange([], r.source) == 0 && Payments([], r.source) == 0 && SumOutputs([]) == 0;
    assert SumChange(outputs, r.source) == 0;
    assert Payments(outputs, r.source) == 1;
  }

  lemma DoubledInputTotals(input: Input, source: string, worth: Int64)
    ensures var m := ByKey([UTxO(InputKey(input), source, worth)]);
            && m == map[ToLower(InputKey(input)) := worth]
            && SpendsFrom([input, input], m) && SumInputs([input, input], m) == 2 * worth
            && Once([input, input]) == [input]
  {
    hide InputKey, ToLower;
    var u := UTxO(InputKey(input), source, worth);
    assert [u][..0] == [] && ByKey([]) == map[];
    var m := ByKey([u]);
    var inputs := [input, input];
    assert inputs[..1] == [input] && [input][..0] == [];
    assert SumInputs([input], m) == worth;
    assert Once([input]) == [input];
  }
}
