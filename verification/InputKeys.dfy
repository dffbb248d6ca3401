/** What an input key denotes, and the accounting check restated on that: which source UTxO an input spends, and the
    plain sums of what comes in and goes back (internal/cardano/tx/apollo.go). */
module InputKeys {
  import opened Fingerprints
  import opened Text
  import opened Tx

  // -------------------------------------------------------------------------------------------
  // Keys

  predicate IsHexDigit(c: char) {
    '0' <= c <= '9' || 'a' <= c <= 'f'
  }

  /** The value of a hexadecimal digit. */
  function HexValue(c: char): int
    requires IsHexDigit(c)
  {
    if c <= '9' then c as int - '0' as int else c as int - 'a' as int + 10
  }

  /** `s` spells `bytes`, two digits each, the higher one first. */
  predicate Spells(s: string, bytes: seq<Byte>) {
    && |s| == 2 * |bytes|
    && forall i :: 0 <= i < |bytes| ==>
         IsHexDigit(s[2 * i]) && IsHexDigit(s[2 * i + 1]) && bytes[i] == 16 * HexValue(s[2 * i]) + HexValue(s[2 * i + 1])
  }

  /** A decimal without leading zeros. */
  predicate Canonical(s: string) {
    s != "" && AllDigits(s) && (|s| > 1 ==> s[0] != '0')
  }

  predicate SpellsNumber(s: string, n: int) {
    if n < 0 then s != "" && s[0] == '-' && Canonical(s[1..]) && ParseNat(s[1..]) == -n
    else Canonical(s) && ParseNat(s) == n
  }

  /** The key of an input: its transaction id in hexadecimal, a colon, its index in decimal. */
  predicate Denotes(key: string, input: Input) {
    var n := 2 * |input.transactionId|;
    |key| > n && Spells(key[..n], input.transactionId) && key[n] == ':' && SpellsNumber(key[n + 1..], input.index)
  }

  lemma HexDigitIsWorth(d: int)
    requires 0 <= d < 16
    ensures IsHexDigit(HexDigit(d)) && HexValue(HexDigit(d)) == d
  {
  }

  lemma {:induction false} HexLength(bytes: seq<Byte>)
    ensures |Hex(bytes)| == 2 * |bytes|
  {
    if bytes != [] {
      HexLength(bytes[1..]);
    }
  }

  lemma {:induction false} HexAt(bytes: seq<Byte>, i: nat)
    requires i < |bytes|
    ensures |Hex(bytes)| == 2 * |bytes|
    ensures Hex(bytes)[2 * i] == HexDigit(bytes[i] / 16) && Hex(bytes)[2 * i + 1] == HexDigit(bytes[i] % 16)
  {
    hide HexDigit;
    HexLength(bytes);
    if i > 0 {
      HexAt(bytes[1..], i - 1);
      var s := Hex(bytes);
      assert s[2..] == Hex(bytes[1..]);
      assert s[2 * i] == s[2..][2 * (i - 1)] && s[2 * i + 1] == s[2..][2 * (i - 1) + 1];
    }
  }

  lemma HexSpells(bytes: seq<Byte>)
    ensures Spells(Hex(bytes), bytes)
  {
    hide HexDigit, HexValue, IsHexDigit, Hex;
    HexLength(bytes);
    var s := Hex(bytes);
    forall i | 0 <= i < |bytes|
      ensures IsHexDigit(s[2 * i]) && IsHexDigit(s[2 * i + 1])
      ensures bytes[i] == 16 * HexValue(s[2 * i]) + HexValue(s[2 * i + 1])
    {
      HexAt(bytes, i);
      HexDigitIsWorth(bytes[i] / 16);
      HexDigitIsWorth(bytes[i] % 16);
    }
  }

  lemma OneByteOneSpelling(a: char, b: char, c: char, d: char)
    requires IsHexDigit(a) && IsHexDigit(b) && IsHexDigit(c) && IsHexDigit(d)
    requires 16 * HexValue(a) + HexValue(b) == 16 * HexValue(c) + HexValue(d)
    ensures a == c && b == d
  {
  }

  lemma OneSpelling(s: string, t: string, bytes: seq<Byte>)
    requires Spells(s, bytes) && Spells(t, bytes)
    ensures s == t
  {
    forall i | 0 <= i < |bytes| ensures s[2 * i] == t[2 * i] && s[2 * i + 1] == t[2 * i + 1] {
      OneByteOneSpelling(s[2 * i], s[2 * i + 1], t[2 * i], t[2 * i + 1]);
    }
    forall k | 0 <= k < |s| ensures s[k] == t[k] {
      assert k == 2 * (k / 2) || k == 2 * (k / 2) + 1;
    }
  }

  lemma {:induction false} LeadingDigitCounts(s: string)
    requires AllDigits(s) && s != "" && s[0] != '0'
    ensures ParseNat(s) > 0
  {
    if |s| > 1 {
      LeadingDigitCounts(s[..|s| - 1]);
    } else {
      assert s[..0] == "";
    }
  }

  lemma {:induction false} OneDecimal(s: string, t: string)
    requires Canonical(s) && Canonical(t) && ParseNat(s) == ParseNat(t)
    ensures s == t
  {
    var m, n := |s| - 1, |t| - 1;
    if m > 0 { LeadingDigitCounts(s[..m]); }
    if n > 0 { LeadingDigitCounts(t[..n]); }
    assert s == s[..m] + [s[m]] && t == t[..n] + [t[n]];
    assert ParseNat(s[..m]) == ParseNat(s) / 10 && ParseNat(t[..n]) == ParseNat(t) / 10;
    if m > 0 && n > 0 {
      OneDecimal(s[..m], t[..n]);
    }
  }

  lemma FormatIntSpells(n: int)
    ensures SpellsNumber(FormatInt(n), n)
  {
    ItoaIsDecimal(if n < 0 then -n else n);
  }

  lemma OneNumber(s: string, t: string, n: int)
    requires SpellsNumber(s, n) && SpellsNumber(t, n)
    ensures s == t
  {
    if n < 0 {
      OneDecimal(s[1..], t[1..]);
      assert s == ['-'] + s[1..] && t == ['-'] + t[1..];
    } else {
      OneDecimal(s, t);
    }
  }

  /** The key that is computed is the one that denotes the input, and the only one. */
  lemma KeyDenotesIff(key: string, input: Input)
    ensures Denotes(key, input) <==> key == InputKey(input)
  {
    hide Hex, FormatInt, Spells, SpellsNumber;
    var id, index := Hex(input.transactionId), FormatInt(input.index);
    HexLength(input.transactionId);
    HexSpells(input.transactionId);
    FormatIntSpells(input.index);
    var own := InputKey(input);
    var n := 2 * |input.transactionId|;
    assert own[..n] == id && own[n] == ':' && own[n + 1..] == index;
    if Denotes(key, input) {
      OneSpelling(key[..n], id, input.transactionId);
      OneNumber(key[n + 1..], index, input.index);
      assert key == key[..n] + [key[n]] + key[n + 1..] && own == own[..n] + [own[n]] + own[n + 1..];
    }
  }

  // -------------------------------------------------------------------------------------------
  // The UTxO an input spends

  /** The UTxO's key, in any case, denotes the input. */
  predicate Holds(u: UTxO, input: Input) {
    Denotes(ToLower(u.key), input)
  }

  /** The last of the UTxOs that hold the input. */
  predicate HeldAt(utxos: seq<UTxO>, input: Input, j: nat) {
    j < |utxos| && Holds(utxos[j], input) && forall k :: j < k < |utxos| ==> !Holds(utxos[k], input)
  }

  lemma HoldsByKey(u: UTxO, input: Input)
    ensures Holds(u, input) <==> ToLower(u.key) == ToLower(InputKey(input))
  {
    KeyDenotesIff(ToLower(u.key), input);
    InputKeyIsNormal(input);
  }

  /** An input is found exactly if some UTxO holds it, and is worth what the last one is. */
  lemma {:induction false} FoundIff(utxos: seq<UTxO>, input: Input)
    ensures var m, key := ByKey(utxos), ToLower(InputKey(input));
            && (key in m <==> exists j: nat :: HeldAt(utxos, input, j))
            && (forall j: nat :: HeldAt(utxos, input, j) ==> key in m && m[key] == utxos[j].lovelace)
    decreases |utxos|
  {
    hide InputKey, ToLower, Holds;
    var m, key := ByKey(utxos), ToLower(InputKey(input));
    if utxos != [] {
      var n := |utxos| - 1;
      HoldsByKey(utxos[n], input);
      FoundIff(utxos[..n], input);
      if Holds(utxos[n], input) {
        assert HeldAt(utxos, input, n);
      } else {
        forall j: nat ensures HeldAt(utxos, input, j) <==> HeldAt(utxos[..n], input, j) {
          HeldBefore(utxos, input, j);
        }
      }
    }
  }

  lemma HeldBefore(utxos: seq<UTxO>, input: Input, j: nat)
    requires utxos != [] && !Holds(utxos[|utxos| - 1], input)
    ensures HeldAt(utxos, input, j) <==> HeldAt(utxos[..|utxos| - 1], input, j)
  {
    hide Holds;
    var n := |utxos| - 1;
    assert forall k :: 0 <= k < n ==> utxos[..n][k] == utxos[k];
    if HeldAt(utxos[..n], input, j) {
      forall k | j < k < |utxos| ensures !Holds(utxos[k], input) {
        assert k < n ==> !Holds(utxos[..n][k], input);
      }
    }
    if HeldAt(utxos, input, j) {
      assert j != n;
    }
  }

  // -------------------------------------------------------------------------------------------
  // Sums

  function Total(amounts: seq<int>): int {
    if amounts == [] then 0 else amounts[0] + Total(amounts[1..])
  }

  lemma {:induction false} TotalLast(amounts: seq<int>, last: int)
    ensures Total(amounts + [last]) == Total(amounts) + last
  {
    if amounts == [] {
      assert amounts + [last] == [last] && [last][1..] == [];
    } else {
      assert (amounts + [last])[1..] == amounts[1..] + [last];
      TotalLast(amounts[1..], last);
    }
  }

  /** What goes back to the source. */
  function Change(outputs: seq<Output>, source: string): seq<int> {
    if outputs == [] then []
    else Back(outputs[0], source) + Change(outputs[1..], source)
  }

  function Back(o: Output, source: string): seq<int> {
    if o.address == source then [o.lovelace as int] else []
  }

  lemma {:induction false} ChangeLast(outputs: seq<Output>, last: Output, source: string)
    ensures Change(outputs + [last], source) == Change(outputs, source) + Back(last, source)
  {
    hide Back;
    if outputs == [] {
      assert outputs + [last] == [last] && [last][1..] == [];
      assert Change([last], source) == Back(last, source) + [];
    } else {
      var rest := outputs[1..];
      assert (outputs + [last])[0] == outputs[0] && (outputs + [last])[1..] == rest + [last];
      ChangeLast(rest, last, source);
      assert Back(outputs[0], source) + (Change(rest, source) + Back(last, source))
             == Back(outputs[0], source) + Change(rest, source) + Back(last, source);
    }
  }

  lemma {:induction false} ChangeIsSummed(outputs: seq<Output>, source: string)
    ensures SumChange(outputs, source) == Total(Change(outputs, source))
  {
    if outputs != [] {
      var n := |outputs| - 1;
      assert outputs == outputs[..n] + [outputs[n]];
      ChangeIsSummed(outputs[..n], source);
      ChangeLast(outputs[..n], outputs[n], source);
      if outputs[n].address == source {
        TotalLast(Change(outputs[..n], source), outputs[n].lovelace);
      } else {
        assert Change(outputs[..n], source) + [] == Change(outputs[..n], source);
      }
    }
  }

  /** The worth of the UTxO the input spends. */
  ghost predicate IsWorth(utxos: seq<UTxO>, input: Input, worth: int) {
    exists j: nat :: HeldAt(utxos, input, j) && worth == utxos[j].lovelace
  }

  ghost predicate Worths(inputs: seq<Input>, utxos: seq<UTxO>, worths: seq<int>) {
    |worths| == |inputs| && forall i :: 0 <= i < |inputs| ==> IsWorth(utxos, inputs[i], worths[i])
  }

  lemma {:induction false} InputsAreSummed(inputs: seq<Input>, utxos: seq<UTxO>, worths: seq<int>)
    requires Worths(inputs, utxos, worths)
    ensures SpendsFrom(inputs, ByKey(utxos)) && SumInputs(inputs, ByKey(utxos)) == Total(worths)
  {
    hide InputKey, ByKey, HeldAt, ToLower;
    WorthsAreFound(inputs, utxos, worths);
    if inputs != [] {
      var n := |inputs| - 1;
      assert forall i :: 0 <= i < n ==> inputs[..n][i] == inputs[i] && worths[..n][i] == worths[i];
      InputsAreSummed(inputs[..n], utxos, worths[..n]);
      assert worths == worths[..n] + [worths[n]];
      TotalLast(worths[..n], worths[n]);
    }
  }

  lemma WorthsAreFound(inputs: seq<Input>, utxos: seq<UTxO>, worths: seq<int>)
    requires Worths(inputs, utxos, worths)
    ensures forall i :: 0 <= i < |inputs| ==>
              ToLower(InputKey(inputs[i])) in ByKey(utxos) && ByKey(utxos)[ToLower(InputKey(inputs[i]))] == worths[i]
  {
    hide InputKey, ByKey, HeldAt, ToLower;
    forall i | 0 <= i < |inputs|
      ensures ToLower(InputKey(inputs[i])) in ByKey(utxos) && ByKey(utxos)[ToLower(InputKey(inputs[i]))] == worths[i]
    {
      FoundIff(utxos, inputs[i]);
    }
  }

  lemma SpendableHasWorths(inputs: seq<Input>, utxos: seq<UTxO>) returns (worths: seq<int>)
    requires SpendsFrom(inputs, ByKey(utxos))
    ensures Worths(inputs, utxos, worths)
  {
    hide InputKey, ByKey, Holds, ToLower;
    var m := ByKey(utxos);
    worths := seq(|inputs|, i requires 0 <= i < |inputs| => m[ToLower(InputKey(inputs[i]))] as int);
    forall i | 0 <= i < |inputs| ensures IsWorth(utxos, inputs[i], worths[i]) {
      FoundIff(utxos, inputs[i]);
      var j: nat :| HeldAt(utxos, inputs[i], j);
    }
  }

  // -------------------------------------------------------------------------------------------
  // Acceptance

  /** One output is not change, and it pays what was asked for, without assets. */
  predicate PaysOnceAt(outputs: seq<Output>, r: Request, i: nat) {
    && i < |outputs| && outputs[i] == Output(r.destination, r.lovelace, false) && r.destination != r.source
    && forall j :: 0 <= j < |outputs| && j != i ==> outputs[j].address == r.source
  }

  /** The source loses the amount and the fee, as far as an int64 tells. */
  predicate LosesUpTo(worths: seq<int>, change: seq<int>, loss: int, turns: int) {
    Total(worths) - Total(change) == loss + turns * 0x1_0000_0000_0000_0000
  }

  /** Every input is held by some UTxO, and with the worth of those the source loses the amount and the fee. */
  ghost predicate Balances(inputs: seq<Input>, utxos: seq<UTxO>, change: seq<int>, loss: int) {
    exists worths :: Worths(inputs, utxos, worths) && exists turns :: LosesUpTo(worths, change, loss, turns)
  }

  /** The transactions that are let through: a fee within bounds, every input held by a UTxO of the source, one
      payment, and sums that balance modulo 2^64. */
  lemma AcceptsIff(tx: Transaction, r: Request, utxos: seq<UTxO>)
    ensures Accepts(tx, r, utxos) <==>
              && 0 <= tx.fee <= r.maxFee && r.lovelace + tx.fee <= 9_223_372_036_854_775_807
              && (forall u :: u in utxos ==> u.address == r.source) && tx.inputs != []
              && (exists i: nat :: PaysOnceAt(tx.outputs, r, i))
              && Balances(tx.inputs, utxos, Change(tx.outputs, r.source), r.lovelace + tx.fee)
  {
    hide InputKey, ByKey, SumInputs, SumChange, Wrap64, Worths, Payments, OutputsInOrder, SpendsFrom, Total, Change;
    ChangeIsSummed(tx.outputs, r.source);
    OnePaymentIff(tx.outputs, r);
    var change, loss := Change(tx.outputs, r.source), r.lovelace + tx.fee;
    if SpendsFrom(tx.inputs, ByKey(utxos)) {
      var own := SpendableHasWorths(tx.inputs, utxos);
      InputsAreSummed(tx.inputs, utxos, own);
      WrapsToIff(Total(own) - Total(change), loss);
      if Accepts(tx, r, utxos) {
        var turns :| Total(own) - Total(change) == loss + turns * 0x1_0000_0000_0000_0000;
        assert LosesUpTo(own, change, loss, turns);
      }
    }
    if Balances(tx.inputs, utxos, change, loss) {
      var worths :| Worths(tx.inputs, utxos, worths) && exists turns :: LosesUpTo(worths, change, loss, turns);
      var turns :| LosesUpTo(worths, change, loss, turns);
      assert Total(worths) - Total(change) == loss + turns * 0x1_0000_0000_0000_0000;
      InputsAreSummed(tx.inputs, utxos, worths);
      WrapsToIff(Total(worths) - Total(change), loss);
    }
  }

  lemma WrapsToIff(x: int, loss: int)
    ensures FitsInt64(loss) ==> (Wrap64(x) == loss <==> exists turns :: x == loss + turns * 0x1_0000_0000_0000_0000)
  {
    if FitsInt64(loss) {
      if exists turns :: x == loss + turns * 0x1_0000_0000_0000_0000 {
        var turns :| x == loss + turns * 0x1_0000_0000_0000_0000;
        WrapShift(loss, turns);
      }
      assert x == Wrap64(x) + Turns(x) * 0x1_0000_0000_0000_0000;
    }
  }

  lemma OnePaymentIff(outputs: seq<Output>, r: Request)
    ensures OutputsInOrder(outputs, r) && Payments(outputs, r.source) == 1 <==> exists i: nat :: PaysOnceAt(outputs, r, i)
  {
    if OutputsInOrder(outputs, r) && Payments(outputs, r.source) == 1 {
      var i := OnePayment(outputs, r.source);
      assert PaysOnceAt(outputs, r, i);
    }
    if exists i: nat :: PaysOnceAt(outputs, r, i) {
      var i: nat :| PaysOnceAt(outputs, r, i);
      PaymentsAt(outputs, r.source, i);
    }
  }

  lemma {:induction false} PaymentsAt(outputs: seq<Output>, source: string, i: nat)
    requires i < |outputs| && outputs[i].address != source
    requires forall j :: 0 <= j < |outputs| && j != i ==> outputs[j].address == source
    ensures Payments(outputs, source) == 1
    decreases |outputs|
  {
    var n := |outputs| - 1;
    assert forall j :: 0 <= j < n ==> outputs[..n][j] == outputs[j];
    if i == n {
      OnlyChange(outputs[..n], source);
    } else {
      PaymentsAt(outputs[..n], source, i);
    }
  }

  lemma {:induction false} OnlyChange(outputs: seq<Output>, source: string)
    requires forall j :: 0 <= j < |outputs| ==> outputs[j].address == source
    ensures Payments(outputs, source) == 0
  {
    if outputs != [] {
      var n := |outputs| - 1;
      assert forall j :: 0 <= j < n ==> outputs[..n][j] == outputs[j];
      OnlyChange(outputs[..n], source);
    }
  }

  // -------------------------------------------------------------------------------------------
  // Reporting and exclusion

  /** The keys reported as spent denote the inputs, one by one. */
  lemma SpentKeysDenote(inputs: seq<Input>)
    ensures |SpentKeys(inputs)| == |inputs|
    ensures forall i :: 0 <= i < |inputs| ==> Denotes(SpentKeys(inputs)[i], inputs[i])
  {
    hide InputKey, Denotes;
    forall i | 0 <= i < |inputs| ensures Denotes(SpentKeys(inputs)[i], inputs[i]) {
      KeyDenotesIff(SpentKeys(inputs)[i], inputs[i]);
    }
  }

  /** What is excluded: the listed keys, trimmed and in lower case, but blanks. */
  lemma {:induction false} ExcludedIff(keys: seq<string>, key: string)
    ensures key in ExcludedSet(keys) <==> key != "" && exists i :: 0 <= i < |keys| && ToLower(TrimSpace(keys[i])) == key
  {
    hide ToLower, TrimSpace;
    if keys != [] {
      var n := |keys| - 1;
      ExcludedIff(keys[..n], key);
      assert forall i :: 0 <= i < n ==> keys[..n][i] == keys[i];
    }
  }

  /** The UTxOs are left out one by one, the others keep their order. */
  lemma {:induction false} KeptOneByOne(first: seq<UTxO>, u: UTxO, rest: seq<UTxO>, excluded: set<string>)
    ensures Kept([], excluded) == []
    ensures Kept(first + [u] + rest, excluded) ==
            Kept(first, excluded) + (if ToLower(u.key) in excluded then [] else [u]) + Kept(rest, excluded)
    decreases |rest|
  {
    hide ToLower;
    if rest == [] {
      assert first + [u] + rest == first + [u] && (first + [u])[..|first|] == first;
    } else {
      var n := |rest| - 1;
      var all := first + [u] + rest;
      assert all[..|all| - 1] == first + [u] + rest[..n] && all[|all| - 1] == rest[n];
      KeptOneByOne(first, u, rest[..n], excluded);
    }
  }
}
