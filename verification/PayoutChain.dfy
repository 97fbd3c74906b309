/** Whole chains of payout updates: each built from a new coinbase and the transaction the
    previous update built, with any signing calls in between. */
module PayoutChains {
  import opened Wrappers
  import opened Sequences
  import opened Bitcoin
  import opened Signing
  import opened PayoutUpdates

  /** One link: the coinbase spent, the payout address, the fee, and the signing calls made
      before the update is built. */
  datatype Epoch = Epoch(coinbase: Tx, address: Script, fee: nat, calls: seq<Call>)

  function Extend(secp: Secp, prev: Option<Tx>, e: Epoch): Result<Tx, Panic> {
    match NewUpdate(prev, e.coinbase, e.address, e.fee)
    case Err(p) => Err(p)
    case Ok(u) => Ok(ApplyCalls(secp, u, e.calls).tx)
  }

  function Latest(txs: seq<Tx>): Option<Tx> {
    if txs == [] then None else Some(txs[|txs| - 1])
  }

  /** The transactions of a chain, or the panic that cut it short. */
  function Chain(secp: Secp, epochs: seq<Epoch>): Result<seq<Tx>, Panic> {
    if epochs == [] then Ok([])
    else
      match Chain(secp, epochs[..|epochs| - 1])
      case Err(p) => Err(p)
      case Ok(txs) =>
        match Extend(secp, Latest(txs), epochs[|epochs| - 1])
        case Err(p) => Err(p)
        case Ok(tx) => Ok(txs + [tx])
  }

  /** `tx` is an update for epoch `e` on top of `prev`, whatever its witnesses. */
  ghost predicate Linked(prev: Option<Tx>, e: Epoch, tx: Tx) {
    && e.coinbase.output != [] && (prev.Some? ==> prev.value.output != [])
    && |tx.input| == (if prev.Some? then 2 else 1)
    && tx.input[0].previousOutput == OutPoint(ComputeTxid(e.coinbase), 0)
    && (prev.Some? ==> tx.input[1].previousOutput == OutPoint(ComputeTxid(prev.value), 0))
    && |tx.output| == 1 && tx.output[0].scriptPubkey == e.address
    && tx.output[0].value + e.fee ==
       e.coinbase.output[0].value + (if prev.Some? then prev.value.output[0].value else 0)
  }

  lemma ExtendLinked(secp: Secp, prev: Option<Tx>, e: Epoch)
    requires Extend(secp, prev, e).Ok?
    ensures Linked(prev, e, Extend(secp, prev, e).value)
  {
    NewSucceedsIff(prev, e.coinbase, e.address, e.fee);
    NewValid(prev, e.coinbase, e.address, e.fee);
    SigningHistory(secp, NewUpdate(prev, e.coinbase, e.address, e.fee).value, e.calls);
  }

  ghost predicate LinkedAt(epochs: seq<Epoch>, txs: seq<Tx>, i: nat)
    requires i < |epochs| == |txs|
  {
    Linked(Latest(txs[..i]), epochs[i], txs[i])
  }

  ghost predicate ChainLinked(epochs: seq<Epoch>, txs: seq<Tx>) {
    |txs| == |epochs| && forall i :: 0 <= i < |txs| ==> LinkedAt(epochs, txs, i)
  }

  lemma {:induction false} ChainIsLinked(secp: Secp, epochs: seq<Epoch>)
    requires Chain(secp, epochs).Ok?
    ensures ChainLinked(epochs, Chain(secp, epochs).value)
  {
    if epochs != [] {
      var n := |epochs| - 1;
      ChainIsLinked(secp, epochs[..n]);
      var before, txs := Chain(secp, epochs[..n]).value, Chain(secp, epochs).value;
      ExtendLinked(secp, Latest(before), epochs[n]);
      forall i | 0 <= i < |txs| ensures LinkedAt(epochs, txs, i) {
        if i < n {
          assert LinkedAt(epochs[..n], before, i);
          assert txs[..i] == before[..i];
        } else {
          assert txs[..n] == before;
        }
      }
    }
  }

  // ---------------------------------------------------------------- signatures

  /** The outputs a transaction spends, read off the outpoints its inputs name. */
  function SpentBy(tx: Tx): seq<TxOut> {
    seq(|tx.input|, i requires 0 <= i < |tx.input| =>
      match Named(tx.input[i].previousOutput) case Some(o) => o case None => TxOut(0, []))
  }

  /** The witnesses of update `i` are exactly the signatures its own epoch's calls made, each
      valid over the outputs the transaction really spends. */
  ghost predicate SignedAt(secp: Secp, epochs: seq<Epoch>, txs: seq<Tx>, i: nat)
    requires i < |epochs| == |txs|
  {
    var e := epochs[i];
    var u := NewUpdate(Latest(txs[..i]), e.coinbase, e.address, e.fee);
    && u.Ok? && txs[i] == ApplyCalls(secp, u.value, e.calls).tx
    && (forall k :: 0 <= k < |txs[i].input| ==> Named(txs[i].input[k].previousOutput).Some?)
    && AllHold(secp, txs[i], SpentBy(txs[i]), AllSignings(secp, u.value, e.calls))
  }

  lemma ExtendSigned(secp: Secp, prev: Option<Tx>, e: Epoch)
    requires Extend(secp, prev, e).Ok?
    ensures var u := NewUpdate(prev, e.coinbase, e.address, e.fee).value;
            var tx := Extend(secp, prev, e).value;
            && (forall k :: 0 <= k < |tx.input| ==> Named(tx.input[k].previousOutput).Some?)
            && SpentBy(tx) == Spent(u)
            && AllHold(secp, tx, SpentBy(tx), AllSignings(secp, u, e.calls))
  {
    var u := NewUpdate(prev, e.coinbase, e.address, e.fee).value;
    NewValid(prev, e.coinbase, e.address, e.fee);
    SigningHistory(secp, u, e.calls);
    var v := ApplyCalls(secp, u, e.calls);
    assert SpentBy(v.tx) == Spent(v);
  }

  /** Along a whole chain, whatever was signed when, every witness holds the signatures of its
      own epoch's successful calls and nothing else, all valid over the outputs spent. */
  lemma {:induction false} ChainSigned(secp: Secp, epochs: seq<Epoch>)
    requires Chain(secp, epochs).Ok?
    ensures var txs := Chain(secp, epochs).value;
            |txs| == |epochs| && forall i :: 0 <= i < |txs| ==> SignedAt(secp, epochs, txs, i)
  {
    if epochs != [] {
      var n := |epochs| - 1;
      var before, txs := Chain(secp, epochs[..n]).value, Chain(secp, epochs).value;
      ChainSigned(secp, epochs[..n]);
      ExtendSigned(secp, Latest(before), epochs[n]);
      forall i | 0 <= i < |txs| ensures SignedAt(secp, epochs, txs, i) {
        if i < n {
          assert SignedAt(secp, epochs[..n], before, i);
          assert txs[..i] == before[..i];
        } else {
          assert txs[..n] == before;
        }
      }
    }
  }

  // ---------------------------------------------------------------- value

  function CoinbaseValue(e: Epoch): nat {
    if e.coinbase.output == [] then 0 else e.coinbase.output[0].value
  }

  function Fee(e: Epoch): nat { e.fee }

  /** What the latest update carries. */
  function Carried(txs: seq<Tx>): nat {
    if txs == [] || txs[|txs| - 1].output == [] then 0 else txs[|txs| - 1].output[0].value
  }

  /** Value is conserved along a chain of any length: what the latest update pays, plus every
      fee, is exactly what the coinbases brought in. */
  lemma {:induction false} ValueConserved(epochs: seq<Epoch>, txs: seq<Tx>)
    requires ChainLinked(epochs, txs)
    ensures Carried(txs) + Total(epochs, Fee) == Total(epochs, CoinbaseValue)
    ensures forall tx :: tx in txs ==> |tx.output| == 1
  {
    if txs != [] {
      var n := |txs| - 1;
      LinkedPrefix(epochs, txs, n);
      ValueConserved(epochs[..n], txs[..n]);
      assert LinkedAt(epochs, txs, n);
      assert txs == txs[..n] + [txs[n]];
      assert n > 0 ==> txs[..n][n - 1] in txs[..n];
    }
  }

  lemma LinkedPrefix(epochs: seq<Epoch>, txs: seq<Tx>, n: nat)
    requires ChainLinked(epochs, txs) && n <= |txs|
    ensures ChainLinked(epochs[..n], txs[..n])
  {
    forall i | 0 <= i < n ensures LinkedAt(epochs[..n], txs[..n], i) {
      assert LinkedAt(epochs, txs, i);
      assert txs[..n][..i] == txs[..i];
    }
  }

  /** Epoch `i` can be paid for, judged from the coinbases and fees alone. */
  ghost predicate Affordable(epochs: seq<Epoch>, i: nat)
    requires i < |epochs|
  {
    var carried := Total(epochs[..i], CoinbaseValue) - Total(epochs[..i], Fee);
    && epochs[i].coinbase.output != []
    && epochs[i].fee <= CoinbaseValue(epochs[i]) + carried
    && (i > 0 ==> CoinbaseValue(epochs[i]) + carried <= MAX_AMOUNT)
  }

  /** A chain is built without a panic exactly when every epoch is affordable. */
  lemma {:induction false} ChainSucceedsIff(secp: Secp, epochs: seq<Epoch>)
    ensures Chain(secp, epochs).Ok? <==> forall i :: 0 <= i < |epochs| ==> Affordable(epochs, i)
  {
    if epochs != [] {
      var n := |epochs| - 1;
      ChainSucceedsIff(secp, epochs[..n]);
      forall i: nat | i < n ensures Affordable(epochs[..n], i) == Affordable(epochs, i) {
        assert epochs[..n][..i] == epochs[..i];
      }
      if Chain(secp, epochs[..n]).Ok? {
        LastAffordable(secp, epochs);
      } else {
        var i :| 0 <= i < n && !Affordable(epochs[..n], i);
        assert !Affordable(epochs, i);
      }
    }
  }

  lemma LastAffordable(secp: Secp, epochs: seq<Epoch>)
    requires epochs != [] && Chain(secp, epochs[..|epochs| - 1]).Ok?
    ensures Chain(secp, epochs).Ok? <==> Affordable(epochs, |epochs| - 1)
  {
    var n := |epochs| - 1;
    var txs := Chain(secp, epochs[..n]).value;
    ChainIsLinked(secp, epochs[..n]);
    ValueConserved(epochs[..n], txs);
    assert n > 0 ==> txs[n - 1] in txs;
    NewSucceedsIff(Latest(txs), epochs[n].coinbase, epochs[n].address, epochs[n].fee);
  }

  /** Up to epoch `i` the fees do not exceed what the coinbases brought in. */
  predicate FeesCovered(epochs: seq<Epoch>, i: nat)
    requires i < |epochs|
  {
    Total(epochs[..i + 1], Fee) <= Total(epochs[..i + 1], CoinbaseValue)
  }

  /** Within Bitcoin's supply, 21,000,000 coins of 100,000,000 each, no amount operation can
      overflow: the fees are then the only thing that can stop a chain. */
  lemma SupplyNeverOverflows(secp: Secp, epochs: seq<Epoch>)
    requires Total(epochs, CoinbaseValue) <= 21_000_000 * 100_000_000
    requires forall i :: 0 <= i < |epochs| ==> epochs[i].coinbase.output != []
    ensures Chain(secp, epochs).Ok? <==> forall i :: 0 <= i < |epochs| ==> FeesCovered(epochs, i)
  {
    ChainSucceedsIff(secp, epochs);
    forall i: nat | i < |epochs|
      ensures Affordable(epochs, i) <==> FeesCovered(epochs, i)
    {
      assert epochs[..i + 1] == epochs[..i] + [epochs[i]];
      TotalAppend(epochs[..i], epochs[i], Fee);
      TotalAppend(epochs[..i], epochs[i], CoinbaseValue);
      TotalPrefix(epochs[..i + 1], epochs, CoinbaseValue);
    }
  }

  // ---------------------------------------------------------------- double spends

  /** A coinbase has a single input, which spends nothing. */
  predicate IsCoinbase(tx: Tx) {
    |tx.input| == 1 && tx.input[0].previousOutput == Null
  }

  ghost predicate Genuine(epochs: seq<Epoch>) {
    forall i :: 0 <= i < |epochs| ==> IsCoinbase(epochs[i].coinbase)
  }

  ghost predicate Distinct(epochs: seq<Epoch>) {
    forall i, j :: 0 <= i < j < |epochs| ==> ComputeTxid(epochs[i].coinbase) != ComputeTxid(epochs[j].coinbase)
  }

  predicate Spends(txs: seq<Tx>, i: nat, k: nat, o: OutPoint) {
    i < |txs| && k < |txs[i].input| && txs[i].input[k].previousOutput == o
  }

  /** No outpoint is spent by two different inputs of the chain. */
  ghost predicate NoDoubleSpend(txs: seq<Tx>) {
    forall i: nat, k: nat, j: nat, l: nat, o ::
      Spends(txs, i, k, o) && Spends(txs, j, l, o) ==> i == j && k == l
  }

  /** Distinct coinbases give distinct updates, and no update is a coinbase. */
  lemma UpdatesDistinct(epochs: seq<Epoch>, txs: seq<Tx>, i: nat, j: nat)
    requires ChainLinked(epochs, txs) && Genuine(epochs) && i < |txs| && j < |txs|
    ensures ComputeTxid(txs[i]) != ComputeTxid(epochs[j].coinbase)
    ensures ComputeTxid(txs[i]) == ComputeTxid(txs[j]) ==>
              ComputeTxid(epochs[i].coinbase) == ComputeTxid(epochs[j].coinbase)
  {
    assert LinkedAt(epochs, txs, i) && LinkedAt(epochs, txs, j);
    assert ComputeTxid(txs[i]).input[0].previousOutput == OutPoint(ComputeTxid(epochs[i].coinbase), 0);
    assert ComputeTxid(txs[j]).input[0].previousOutput == OutPoint(ComputeTxid(epochs[j].coinbase), 0);
    assert IsCoinbase(epochs[j].coinbase);
    assert ComputeTxid(epochs[j].coinbase).input[0].previousOutput == Null;
  }

  /** What input `k` of update `i` spends. */
  lemma SpendsWhat(epochs: seq<Epoch>, txs: seq<Tx>, i: nat, k: nat, o: OutPoint)
    requires ChainLinked(epochs, txs)
    ensures Spends(txs, i, k, o) <==>
            || (i < |txs| && k == 0 && o == OutPoint(ComputeTxid(epochs[i].coinbase), 0))
            || (0 < i < |txs| && k == 1 && o == OutPoint(ComputeTxid(txs[i - 1]), 0))
  {
    if i < |txs| {
      assert LinkedAt(epochs, txs, i);
    }
  }

  /** With genuine coinbases, a chain of any length spends no outpoint twice exactly when the
      coinbases are distinct. */
  lemma NoDoubleSpendIff(epochs: seq<Epoch>, txs: seq<Tx>)
    requires ChainLinked(epochs, txs) && Genuine(epochs)
    ensures NoDoubleSpend(txs) <==> Distinct(epochs)
  {
    if Distinct(epochs) {
      forall i: nat, k: nat, j: nat, l: nat, o | Spends(txs, i, k, o) && Spends(txs, j, l, o)
        ensures i == j && k == l
      {
        SpendsWhat(epochs, txs, i, k, o);
        SpendsWhat(epochs, txs, j, l, o);
        if k == 0 && l == 1 {
          UpdatesDistinct(epochs, txs, j - 1, i);
        } else if k == 1 && l == 0 {
          UpdatesDistinct(epochs, txs, i - 1, j);
        } else if k == 1 {
          UpdatesDistinct(epochs, txs, i - 1, j - 1);
        }
      }
    } else {
      var i, j :| 0 <= i < j < |epochs| && ComputeTxid(epochs[i].coinbase) == ComputeTxid(epochs[j].coinbase);
      var o := OutPoint(ComputeTxid(epochs[i].coinbase), 0);
      SpendsWhat(epochs, txs, i, 0, o);
      SpendsWhat(epochs, txs, j, 0, o);
    }
  }

  /** Every update but the latest has its output spent, by the next update's second input and
      by nothing else; the latest one's is unspent. */
  lemma SpentBySuccessorOnly(epochs: seq<Epoch>, txs: seq<Tx>, i: nat, j: nat, k: nat)
    requires ChainLinked(epochs, txs) && Genuine(epochs) && Distinct(epochs) && i < |txs|
    ensures Spends(txs, j, k, OutPoint(ComputeTxid(txs[i]), 0)) <==> j == i + 1 < |txs| && k == 1
  {
    var o := OutPoint(ComputeTxid(txs[i]), 0);
    SpendsWhat(epochs, txs, j, k, o);
    if j < |txs| {
      UpdatesDistinct(epochs, txs, i, j);
      if j > 0 {
        UpdatesDistinct(epochs, txs, i, j - 1);
      }
    }
  }

  // ---------------------------------------------------------------- against a ledger

  type Ledger = map<OutPoint, TxOut>

  function Inputs(tx: Tx): set<OutPoint> {
    set k | 0 <= k < |tx.input| :: tx.input[k].previousOutput
  }

  function InputValue(utxo: Ledger, inputs: seq<TxIn>): nat {
    if inputs == [] then 0
    else
      var o := inputs[|inputs| - 1].previousOutput;
      InputValue(utxo, inputs[..|inputs| - 1]) + (if o in utxo then utxo[o].value else 0)
  }

  function OutputValue(outputs: seq<TxOut>): nat {
    if outputs == [] then 0 else OutputValue(outputs[..|outputs| - 1]) + outputs[|outputs| - 1].value
  }

  /** A node's rule for the unspent outputs: every input exists, none is named twice, and no
      more is paid out than is taken in. */
  ghost predicate Acceptable(utxo: Ledger, tx: Tx) {
    && (forall k :: 0 <= k < |tx.input| ==> tx.input[k].previousOutput in utxo)
    && (forall k, l :: 0 <= k < l < |tx.input| ==> tx.input[k].previousOutput != tx.input[l].previousOutput)
    && OutputValue(tx.output) <= InputValue(utxo, tx.input)
  }

  function Outputs(tx: Tx): Ledger {
    map o: OutPoint | o in (set k | 0 <= k < |tx.output| :: OutPoint(ComputeTxid(tx), k)) :: tx.output[o.vout]
  }

  ghost function Confirm(utxo: Ledger, txs: seq<Tx>): Option<Ledger> {
    if txs == [] then Some(utxo)
    else
      var n := |txs| - 1;
      var before := Confirm(utxo, txs[..n]);
      if before.Some? && Acceptable(before.value, txs[n]) then
        Some(before.value - Inputs(txs[n]) + Outputs(txs[n]))
      else None
  }

  function CoinbaseOut(e: Epoch): OutPoint {
    OutPoint(ComputeTxid(e.coinbase), 0)
  }

  function Consumed(epochs: seq<Epoch>, n: nat): set<OutPoint>
    requires n <= |epochs|
  {
    set i | 0 <= i < n :: CoinbaseOut(epochs[i])
  }

  /** The coinbase outputs of the first `n` epochs are gone, and of the updates only the latest
      one's output is there. */
  ghost function Expected(utxo: Ledger, epochs: seq<Epoch>, txs: seq<Tx>, n: nat): Ledger
    requires n <= |txs| == |epochs| && forall tx :: tx in txs ==> |tx.output| == 1
  {
    var kept := utxo - Consumed(epochs, n);
    if n == 0 then kept else kept[OutPoint(ComputeTxid(txs[n - 1]), 0) := txs[n - 1].output[0]]
  }

  /** A ledger holding every coinbase output and none of the updates. */
  ghost predicate Funded(utxo: Ledger, epochs: seq<Epoch>, txs: seq<Tx>)
    requires |epochs| == |txs|
  {
    && (forall i :: 0 <= i < |epochs| ==>
          epochs[i].coinbase.output != [] && CoinbaseOut(epochs[i]) in utxo
          && utxo[CoinbaseOut(epochs[i])] == epochs[i].coinbase.output[0])
    && (forall i :: 0 <= i < |txs| ==> OutPoint(ComputeTxid(txs[i]), 0) !in utxo)
  }

  lemma SoleOutput(tx: Tx)
    requires |tx.output| == 1
    ensures Outputs(tx) == map[OutPoint(ComputeTxid(tx), 0) := tx.output[0]]
    ensures OutputValue(tx.output) == tx.output[0].value
  {
    assert tx.output[..0] == [];
  }

  lemma InputsValued(utxo: Ledger, inputs: seq<TxIn>)
    requires |inputs| == 1 || |inputs| == 2
    requires forall k :: 0 <= k < |inputs| ==> inputs[k].previousOutput in utxo
    ensures InputValue(utxo, inputs) ==
            utxo[inputs[0].previousOutput].value + (if |inputs| == 2 then utxo[inputs[1].previousOutput].value else 0)
  {
    assert inputs[..0] == [];
    if |inputs| == 2 {
      assert inputs[..1] == [inputs[0]] && [inputs[0]][..0] == [];
    }
  }

  /** The ledger accepts a whole chain, in order, and ends up without the coinbase outputs it
      consumed and with one new output: that of the latest update. */
  lemma {:induction false} LedgerAcceptsChain(utxo: Ledger, epochs: seq<Epoch>, txs: seq<Tx>, n: nat)
    requires ChainLinked(epochs, txs) && Genuine(epochs) && Distinct(epochs)
    requires Funded(utxo, epochs, txs) && n <= |txs|
    ensures forall tx :: tx in txs ==> |tx.output| == 1
    ensures Confirm(utxo, txs[..n]) == Some(Expected(utxo, epochs, txs, n))
  {
    ValueConserved(epochs, txs);
    if n == 0 {
      assert Consumed(epochs, 0) == {} && txs[..0] == [];
      assert utxo - Consumed(epochs, 0) == utxo;
    } else {
      LedgerAcceptsChain(utxo, epochs, txs, n - 1);
      assert txs[..n][..n - 1] == txs[..n - 1];
      NextAcceptable(utxo, epochs, txs, n - 1);
      NextExpected(utxo, epochs, txs, n - 1);
    }
  }

  lemma NextAcceptable(utxo: Ledger, epochs: seq<Epoch>, txs: seq<Tx>, n: nat)
    requires ChainLinked(epochs, txs) && Genuine(epochs) && Distinct(epochs)
    requires Funded(utxo, epochs, txs) && n < |txs|
    requires forall tx :: tx in txs ==> |tx.output| == 1
    ensures Acceptable(Expected(utxo, epochs, txs, n), txs[n])
  {
    var now, tx := Expected(utxo, epochs, txs, n), txs[n];
    assert LinkedAt(epochs, txs, n);
    assert tx in txs;
    SoleOutput(tx);
    if n > 0 {
      assert txs[..n][n - 1] == txs[n - 1];
      UpdatesDistinct(epochs, txs, n - 1, n);
    }
    assert CoinbaseOut(epochs[n]) in now && now[CoinbaseOut(epochs[n])] == epochs[n].coinbase.output[0];
    InputsValued(now, tx.input);
  }

  /** What a ledger turns away: an input that is missing or already spent, one named twice, and an
      overpayment, each on its own. */
  lemma LedgerRefuses(utxo: Ledger, tx: Tx)
    ensures Acceptable(utxo, tx) <==>
            && !(exists k :: 0 <= k < |tx.input| && tx.input[k].previousOutput !in utxo)
            && !(exists k, l :: 0 <= k < l < |tx.input| && tx.input[k].previousOutput == tx.input[l].previousOutput)
            && !(OutputValue(tx.output) > InputValue(utxo, tx.input))
  {
  }

  /** No update can be confirmed a second time: once the ledger has taken the first `n`, it refuses
      each of them. */
  lemma ReplayRefused(utxo: Ledger, epochs: seq<Epoch>, txs: seq<Tx>, n: nat, i: nat)
    requires ChainLinked(epochs, txs) && Genuine(epochs) && Distinct(epochs)
    requires Funded(utxo, epochs, txs) && i < n <= |txs|
    ensures Confirm(utxo, txs[..n]).Some? && Confirm(utxo, txs[..n] + [txs[i]]) == None
  {
    LedgerAcceptsChain(utxo, epochs, txs, n);
    assert LinkedAt(epochs, txs, i);
    UpdatesDistinct(epochs, txs, n - 1, i);
    var all := txs[..n] + [txs[i]];
    assert all[..n] == txs[..n];
    assert CoinbaseOut(epochs[i]) in Consumed(epochs, n);
    assert txs[i].input[0].previousOutput !in Expected(utxo, epochs, txs, n);
  }

  /** The script that must authorise input `k` of update `i`: that of the coinbase's first output,
      or the address the previous epoch paid. */
  function Owner(epochs: seq<Epoch>, i: nat, k: nat): Script
    requires i < |epochs| && epochs[i].coinbase.output != [] && (k > 0 ==> i > 0)
  {
    if k == 0 then epochs[i].coinbase.output[0].scriptPubkey else epochs[i - 1].address
  }

  /** What the inputs of `tx` take from the ledger. */
  function Taken(utxo: Ledger, tx: Tx): seq<TxOut>
    requires forall k :: 0 <= k < |tx.input| ==> tx.input[k].previousOutput in utxo
  {
    seq(|tx.input|, k requires 0 <= k < |tx.input| => utxo[tx.input[k].previousOutput])
  }

  /** A ledger that also checks signatures accepts the witnesses of `tx`. */
  ghost predicate Authorised(secp: Secp, outputKey: OutputKey, utxo: Ledger, tx: Tx) {
    && Acceptable(utxo, tx)
    && forall k :: 0 <= k < |tx.input| ==> KeyPathSpends(secp, outputKey, tx, Taken(utxo, tx), k)
  }

  /** In epoch `i` every input was signed exactly once, by the key of its owner. */
  ghost predicate OwnersSigned(secp: Secp, outputKey: OutputKey, epochs: seq<Epoch>, i: nat)
    requires i < |epochs| && epochs[i].coinbase.output != []
  {
    forall k :: 0 <= k < (if i > 0 then 2 else 1) ==>
      SignedOnceByOwner(secp, outputKey, epochs[i].calls, Owner(epochs, i, k), k)
  }

  /** When update `i` reaches the ledger, a ledger that checks key-path signatures against the
      outputs it holds accepts it exactly when, in its epoch, the coinbase input was signed once
      with the key of the coinbase's first output and the other once with the key of the
      previous epoch's address. */
  lemma LedgerAcceptsSignaturesIff(secp: Secp, outputKey: OutputKey, utxo: Ledger, epochs: seq<Epoch>, i: nat)
    requires Sound(secp) && Chain(secp, epochs).Ok? && Genuine(epochs) && Distinct(epochs)
    requires i < |epochs| == |Chain(secp, epochs).value| && Funded(utxo, epochs, Chain(secp, epochs).value)
    ensures var txs := Chain(secp, epochs).value;
            && Confirm(utxo, txs[..i]).Some? && Acceptable(Confirm(utxo, txs[..i]).value, txs[i])
            && (Authorised(secp, outputKey, Confirm(utxo, txs[..i]).value, txs[i])
                <==> OwnersSigned(secp, outputKey, epochs, i))
  {
    var txs, e := Chain(secp, epochs).value, epochs[i];
    ChainIsLinked(secp, epochs);
    ChainSigned(secp, epochs);
    LedgerAcceptsChain(utxo, epochs, txs, i);
    NextAcceptable(utxo, epochs, txs, i);
    TakenIsSpent(utxo, epochs, txs, i);
    assert SignedAt(secp, epochs, txs, i);
    assert Extend(secp, Latest(txs[..i]), e) == Ok(txs[i]);
    forall k: nat | k < |txs[i].input|
      ensures KeyPathSpends(secp, outputKey, txs[i], SpentBy(txs[i]), k)
              <==> SignedOnceByOwner(secp, outputKey, e.calls, Owner(epochs, i, k), k)
    {
      ExtendAuthorisedIff(secp, outputKey, Latest(txs[..i]), e, k);
    }
  }

  /** A ledger that also checks signatures confirms `txs` one after the other. */
  ghost function ConfirmSigned(secp: Secp, outputKey: OutputKey, utxo: Ledger, txs: seq<Tx>): Option<Ledger> {
    if txs == [] then Some(utxo)
    else
      var n := |txs| - 1;
      var before := ConfirmSigned(secp, outputKey, utxo, txs[..n]);
      if before.Some? && Authorised(secp, outputKey, before.value, txs[n]) then
        Some(before.value - Inputs(txs[n]) + Outputs(txs[n]))
      else None
  }

  lemma {:induction false} ConfirmSignedConfirms(secp: Secp, outputKey: OutputKey, utxo: Ledger, txs: seq<Tx>)
    requires ConfirmSigned(secp, outputKey, utxo, txs).Some?
    ensures Confirm(utxo, txs) == ConfirmSigned(secp, outputKey, utxo, txs)
  {
    if txs != [] {
      ConfirmSignedConfirms(secp, outputKey, utxo, txs[..|txs| - 1]);
    }
  }

  lemma ConfirmSignedStep(secp: Secp, outputKey: OutputKey, utxo: Ledger, txs: seq<Tx>, i: nat)
    requires i < |txs| && Confirm(utxo, txs[..i]).Some?
    ensures ConfirmSigned(secp, outputKey, utxo, txs[..i + 1]).Some? <==>
            && ConfirmSigned(secp, outputKey, utxo, txs[..i]).Some?
            && Authorised(secp, outputKey, Confirm(utxo, txs[..i]).value, txs[i])
  {
    assert txs[..i + 1][..i] == txs[..i];
    if ConfirmSigned(secp, outputKey, utxo, txs[..i]).Some? {
      ConfirmSignedConfirms(secp, outputKey, utxo, txs[..i]);
    }
  }

  /** The first `n` updates get past a ledger that checks signatures. */
  ghost predicate GetPast(secp: Secp, outputKey: OutputKey, utxo: Ledger, txs: seq<Tx>, n: nat)
    requires n <= |txs|
  {
    ConfirmSigned(secp, outputKey, utxo, txs[..n]).Some?
  }

  lemma GetPastStep(secp: Secp, outputKey: OutputKey, utxo: Ledger, epochs: seq<Epoch>, i: nat)
    requires Sound(secp) && Chain(secp, epochs).Ok? && Genuine(epochs) && Distinct(epochs)
    requires i < |epochs| == |Chain(secp, epochs).value| && Funded(utxo, epochs, Chain(secp, epochs).value)
    ensures var txs := Chain(secp, epochs).value;
            GetPast(secp, outputKey, utxo, txs, i + 1)
            <==> GetPast(secp, outputKey, utxo, txs, i) && OwnersSigned(secp, outputKey, epochs, i)
  {
    LedgerAcceptsSignaturesIff(secp, outputKey, utxo, epochs, i);
    ConfirmSignedStep(secp, outputKey, utxo, Chain(secp, epochs).value, i);
  }

  lemma {:induction false} AllSteps(past: seq<bool>, signed: seq<bool>)
    requires |past| == |signed| + 1 && past[0]
    requires forall i :: 0 <= i < |signed| ==> (past[i + 1] <==> past[i] && signed[i])
    ensures past[|signed|] <==> forall i :: 0 <= i < |signed| ==> signed[i]
  {
    if signed != [] {
      AllSteps(past[..|signed|], signed[..|signed| - 1]);
    }
  }

  /** A whole chain gets past a ledger that checks every signature as it comes exactly when in
      every epoch each input was signed once, with the key of its owner. */
  lemma LedgerAcceptsSignedChainIff(secp: Secp, outputKey: OutputKey, utxo: Ledger, epochs: seq<Epoch>, n: nat)
    requires Sound(secp) && Chain(secp, epochs).Ok? && Genuine(epochs) && Distinct(epochs)
    requires n <= |epochs| == |Chain(secp, epochs).value| && Funded(utxo, epochs, Chain(secp, epochs).value)
    ensures ConfirmSigned(secp, outputKey, utxo, Chain(secp, epochs).value[..n]).Some?
            <==> forall i :: 0 <= i < n ==> OwnersSigned(secp, outputKey, epochs, i)
  {
    var txs := Chain(secp, epochs).value;
    var past := seq(n + 1, i requires 0 <= i <= n => GetPast(secp, outputKey, utxo, txs, i));
    var signed := seq(n, i requires 0 <= i < n && epochs[i].coinbase.output != [] =>
      OwnersSigned(secp, outputKey, epochs, i));
    forall i | 0 <= i < n ensures past[i + 1] <==> past[i] && signed[i] {
      GetPastStep(secp, outputKey, utxo, epochs, i);
    }
    assert txs[..0] == [] && past[0];
    AllSteps(past, signed);
    assert forall i :: 0 <= i < n ==> signed[i] == OwnersSigned(secp, outputKey, epochs, i);
  }

  /** The ledger is then the one a ledger without that check comes to. */
  lemma SignedChainExpected(secp: Secp, outputKey: OutputKey, utxo: Ledger, epochs: seq<Epoch>, txs: seq<Tx>, n: nat)
    requires ChainLinked(epochs, txs) && Genuine(epochs) && Distinct(epochs)
    requires Funded(utxo, epochs, txs) && n <= |txs|
    requires ConfirmSigned(secp, outputKey, utxo, txs[..n]).Some?
    ensures forall tx :: tx in txs ==> |tx.output| == 1
    ensures ConfirmSigned(secp, outputKey, utxo, txs[..n]) == Some(Expected(utxo, epochs, txs, n))
  {
    LedgerAcceptsChain(utxo, epochs, txs, n);
    ConfirmSignedConfirms(secp, outputKey, utxo, txs[..n]);
  }

  lemma ExtendAuthorisedIff(secp: Secp, outputKey: OutputKey, prev: Option<Tx>, e: Epoch, k: nat)
    requires Sound(secp) && Extend(secp, prev, e).Ok? && k < |Extend(secp, prev, e).value.input|
    ensures var tx := Extend(secp, prev, e).value;
            KeyPathSpends(secp, outputKey, tx, SpentBy(tx), k)
            <==> SignedOnceByOwner(secp, outputKey, e.calls, SpentBy(tx)[k].scriptPubkey, k)
  {
    var u := NewUpdate(prev, e.coinbase, e.address, e.fee).value;
    NewValid(prev, e.coinbase, e.address, e.fee);
    ExtendSigned(secp, prev, e);
    SigningHistory(secp, u, e.calls);
    KeyPathSpendsIff(secp, outputKey, u, e.calls, k);
  }

  /** What update `n` takes from the ledger is what its inputs name, and belongs to its owners. */
  lemma TakenIsSpent(utxo: Ledger, epochs: seq<Epoch>, txs: seq<Tx>, n: nat)
    requires ChainLinked(epochs, txs) && Genuine(epochs) && Distinct(epochs)
    requires Funded(utxo, epochs, txs) && n < |txs|
    requires forall tx :: tx in txs ==> |tx.output| == 1
    requires Acceptable(Expected(utxo, epochs, txs, n), txs[n])
    ensures var taken := Taken(Expected(utxo, epochs, txs, n), txs[n]);
            && |taken| == (if n > 0 then 2 else 1) && taken == SpentBy(txs[n])
            && forall k :: 0 <= k < |taken| ==> taken[k].scriptPubkey == Owner(epochs, n, k)
  {
    assert LinkedAt(epochs, txs, n);
    assert Named(CoinbaseOut(epochs[n])) == Some(epochs[n].coinbase.output[0]);
    if n > 0 {
      assert LinkedAt(epochs, txs, n - 1);
      assert txs[..n][n - 1] == txs[n - 1];
      UpdatesDistinct(epochs, txs, n - 1, n);
    }
  }

  lemma NextExpected(utxo: Ledger, epochs: seq<Epoch>, txs: seq<Tx>, n: nat)
    requires ChainLinked(epochs, txs) && Genuine(epochs) && Distinct(epochs)
    requires Funded(utxo, epochs, txs) && n < |txs|
    requires forall tx :: tx in txs ==> |tx.output| == 1
    ensures Expected(utxo, epochs, txs, n) - Inputs(txs[n]) + Outputs(txs[n]) == Expected(utxo, epochs, txs, n + 1)
  {
    var tx := txs[n];
    assert LinkedAt(epochs, txs, n);
    assert tx in txs;
    SoleOutput(tx);
    assert Consumed(epochs, n + 1) == Consumed(epochs, n) + {CoinbaseOut(epochs[n])};
    if n == 0 {
      assert Inputs(tx) == {CoinbaseOut(epochs[n])};
    } else {
      assert txs[..n][n - 1] == txs[n - 1];
      var last := OutPoint(ComputeTxid(txs[n - 1]), 0);
      assert Inputs(tx) == {CoinbaseOut(epochs[n]), last};
    }
  }
}
