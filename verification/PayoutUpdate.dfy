/** One payout update: it spends output 0 of a coinbase and, except for the first, output 0 of
    the previous update, into a single output (node/uhpo/src/payout_update.rs). */
module PayoutUpdates {
  import opened Wrappers
  import opened Bitcoin
  import opened Signing
  import opened TransactionBuilding

  /** Why `PayoutUpdate::new` panics. */
  datatype Panic = NoCoinbaseOutput | NoPrevUpdateOutput | AmountOverflow | AmountUnderflow

  datatype Update = Update(tx: Tx, coinbaseTxout: TxOut, prevUpdateTxout: Option<TxOut>)

  /** The outputs the update spends, as passed to the sighash. */
  function Spent(u: Update): seq<TxOut> {
    if u.prevUpdateTxout.Some? then [u.coinbaseTxout, u.prevUpdateTxout.value] else [u.coinbaseTxout]
  }

  function TotalAmount(coinbase: nat, prev: Option<TxOut>): Option<nat> {
    if prev.Some? then Add(coinbase, prev.value.value) else Some(coinbase)
  }

  function NewUpdate(prev: Option<Tx>, coinbase: Tx, address: Script, fee: nat): Result<Update, Panic> {
    if coinbase.output == [] then Err(NoCoinbaseOutput)
    else if prev.Some? && prev.value.output == [] then Err(NoPrevUpdateOutput)
    else
      var cb := coinbase.output[0];
      var prevOut := if prev.Some? then Some(prev.value.output[0]) else None;
      var total := TotalAmount(cb.value, prevOut);
      if total.None? then Err(AmountOverflow)
      else
        var paid := Sub(total.value, fee);
        if paid.None? then Err(AmountUnderflow)
        else
          var inputs := [Spend(ComputeTxid(coinbase), 0)]
                        + (if prev.Some? then [Spend(ComputeTxid(prev.value), 0)] else []);
          Ok(Update(Tx(VERSION_TWO, 0, inputs, [TxOut(paid.value, address)]), cb, prevOut))
  }

  /** `new` succeeds exactly when both transactions have an output, the inputs do not overflow
      an amount and the fee does not exceed them; then nothing is created and only the fee is
      lost. */
  lemma NewSucceedsIff(prev: Option<Tx>, coinbase: Tx, address: Script, fee: nat)
    ensures var r := NewUpdate(prev, coinbase, address, fee);
            r.Ok? <==>
              && coinbase.output != [] && (prev.Some? ==> prev.value.output != [])
              && var carried := if prev.Some? then prev.value.output[0].value else 0;
                 fee <= coinbase.output[0].value + carried
                 && (prev.Some? ==> coinbase.output[0].value + carried <= 0xFFFF_FFFF_FFFF_FFFF)
    ensures var r := NewUpdate(prev, coinbase, address, fee);
            r.Ok? ==>
              && r.value.tx.version == 2 && r.value.tx.lockTime == 0
              && r.value.tx.input == [TxIn(OutPoint(ComputeTxid(coinbase), 0), [], 0xFFFF_FFFF, [])]
                 + (if prev.Some? then [TxIn(OutPoint(ComputeTxid(prev.value), 0), [], 0xFFFF_FFFF, [])] else [])
              && |r.value.tx.output| == 1 && r.value.tx.output[0].scriptPubkey == address
              && r.value.tx.output[0].value + fee == coinbase.output[0].value
                 + (if prev.Some? then prev.value.output[0].value else 0)
  {
  }

  datatype Call = SignCoinbase(signer: Signer) | SignPrev(signer: Signer)

  function CallIndex(call: Call): nat {
    if call.SignCoinbase? then 0 else 1
  }

  function CallOutcome(secp: Secp, u: Update, call: Call): Outcome {
    if call.SignPrev? && u.prevUpdateTxout.None? then Outcome.NoPrevUpdateTxOut
    else OutcomeOf(secp, u.tx, CallIndex(call), Spent(u), call.signer)
  }

  function ApplyCall(secp: Secp, u: Update, call: Call): Update {
    if CallOutcome(secp, u, call) == Outcome.NoPrevUpdateTxOut then u
    else u.(tx := AfterSigning(secp, u.tx, CallIndex(call), Spent(u), call.signer))
  }

  function ApplyCalls(secp: Secp, u: Update, calls: seq<Call>): Update {
    if calls == [] then u
    else ApplyCall(secp, ApplyCalls(secp, u, calls[..|calls| - 1]), calls[|calls| - 1])
  }

  /** What a call adds to the witness of input `i`. */
  function CallMade(secp: Secp, u: Update, call: Call, i: nat): seq<Made> {
    if call.SignPrev? && u.prevUpdateTxout.None? then []
    else MadeBy(secp, u.tx, CallIndex(call), Spent(u), call.signer, i)
  }

  /** The signatures of the successful calls on input `i`, in order. */
  function Signings(secp: Secp, u: Update, calls: seq<Call>, i: nat): seq<Made> {
    if calls == [] then []
    else
      var calls0, call := calls[..|calls| - 1], calls[|calls| - 1];
      Signings(secp, u, calls0, i) + CallMade(secp, ApplyCalls(secp, u, calls0), call, i)
  }

  function AllSignings(secp: Secp, u: Update, calls: seq<Call>): seq<seq<Made>> {
    seq(|u.tx.input|, i requires 0 <= i < |u.tx.input| => Signings(secp, u, calls, i))
  }

  /** What `new` establishes and signing keeps: the recorded outputs are exactly those the
      inputs name. */
  ghost predicate Valid(u: Update) {
    && |u.tx.input| == |Spent(u)|
    && forall i :: 0 <= i < |u.tx.input| ==> Named(u.tx.input[i].previousOutput) == Some(Spent(u)[i])
  }

  ghost predicate Unsigned(u: Update) {
    forall i :: 0 <= i < |u.tx.input| ==> u.tx.input[i].stack == []
  }

  lemma NewValid(prev: Option<Tx>, coinbase: Tx, address: Script, fee: nat)
    requires NewUpdate(prev, coinbase, address, fee).Ok?
    ensures var u := NewUpdate(prev, coinbase, address, fee).value;
            Valid(u) && Unsigned(u) && (u.prevUpdateTxout.Some? <==> prev.Some?)
  {
    var u := NewUpdate(prev, coinbase, address, fee).value;
    assert Named(OutPoint(ComputeTxid(coinbase), 0)) == Some(u.coinbaseTxout);
  }

  /** `v` differs from `u` in witnesses alone. */
  ghost predicate SameButWitnesses(u: Update, v: Update) {
    && ComputeTxid(v.tx) == ComputeTxid(u.tx) && v.tx.output == u.tx.output
    && v.coinbaseTxout == u.coinbaseTxout && v.prevUpdateTxout == u.prevUpdateTxout
    && |v.tx.input| == |u.tx.input|
    && forall i :: 0 <= i < |u.tx.input| ==> v.tx.input[i].previousOutput == u.tx.input[i].previousOutput
  }

  /** Signing touches nothing but witnesses, and a call that fails not even those. */
  lemma CallKeeps(secp: Secp, u: Update, call: Call)
    requires Valid(u)
    ensures Valid(ApplyCall(secp, u, call)) && SameButWitnesses(u, ApplyCall(secp, u, call))
    ensures CallOutcome(secp, u, call) != TaprootError && CallOutcome(secp, u, call) != IndexPanic
    ensures CallOutcome(secp, u, call) != Signed ==> ApplyCall(secp, u, call) == u
    ensures CallOutcome(secp, u, call) == Outcome.NoPrevUpdateTxOut <==> call.SignPrev? && u.prevUpdateTxout.None?
  {
    if CallOutcome(secp, u, call) == Signed {
      var i := CallIndex(call);
      WitnessFree(u.tx, i, ApplyCall(secp, u, call).tx.input[i].stack[|u.tx.input[i].stack|]);
    }
  }

  lemma CallKeepsValid(secp: Secp, u: Update, call: Call, made: seq<seq<Made>>, more: seq<seq<Made>>)
    requires AllHold(secp, u.tx, Spent(u), made) && |more| == |made|
    requires forall i :: 0 <= i < |made| ==> more[i] == made[i] + CallMade(secp, u, call, i)
    ensures var next := ApplyCall(secp, u, call); AllHold(secp, next.tx, Spent(u), more)
  {
    if call.SignPrev? && u.prevUpdateTxout.None? {
      assert forall i :: 0 <= i < |made| ==> more[i] == made[i];
    } else {
      SigningKeepsValid(secp, u.tx, CallIndex(call), Spent(u), call.signer, made, more);
    }
  }

  /** Over any history of signing calls: the txid, the output and the outputs spent never
      change, and the witness of each input is exactly the list of signatures its successful
      calls made, each with the byte 0x01, each valid against the transaction as it now stands
      under the key that made it. */
  lemma {:induction false} SigningHistory(secp: Secp, u: Update, calls: seq<Call>)
    requires Valid(u) && Unsigned(u)
    ensures var v := ApplyCalls(secp, u, calls);
            && Valid(v) && SameButWitnesses(u, v)
            && AllHold(secp, v.tx, Spent(v), AllSignings(secp, u, calls))
  {
    if calls == [] {
      assert forall i :: 0 <= i < |u.tx.input| ==> AllSignings(secp, u, calls)[i] == [];
    } else {
      var calls0, call := calls[..|calls| - 1], calls[|calls| - 1];
      SigningHistory(secp, u, calls0);
      var v0 := ApplyCalls(secp, u, calls0);
      CallKeeps(secp, v0, call);
      CallKeepsValid(secp, v0, call, AllSignings(secp, u, calls0), AllSignings(secp, u, calls));
    }
  }

  /** Whatever is signed later, what a witness holds stays in place. */
  lemma {:induction false} WitnessesRetained(secp: Secp, u: Update, calls: seq<Call>, more: seq<Call>, i: nat)
    requires i < |u.tx.input|
    ensures var v, w := ApplyCalls(secp, u, calls), ApplyCalls(secp, u, calls + more);
            && |v.tx.input| == |w.tx.input| == |u.tx.input|
            && v.tx.input[i].stack <= w.tx.input[i].stack
    decreases |calls| + |more|
  {
    if more != [] {
      var more0 := more[..|more| - 1];
      WitnessesRetained(secp, u, calls, more0, i);
      assert (calls + more)[..|calls + more| - 1] == calls + more0;
    } else {
      assert calls + more == calls;
      if calls != [] {
        WitnessesRetained(secp, u, calls[..|calls| - 1], [], i);
        assert calls[..|calls| - 1] + [] == calls[..|calls| - 1];
      }
    }
  }

  /** No signing call on a constructed update, whatever was signed before, can hit a prevout
      count mismatch or an index out of range; on a first update the previous-update input
      can never be signed; and a call succeeds exactly when the tweak and the verification
      do. */
  lemma SigningOutcomes(secp: Secp, prev: Option<Tx>, coinbase: Tx, address: Script, fee: nat,
                        calls: seq<Call>, call: Call)
    requires NewUpdate(prev, coinbase, address, fee).Ok?
    ensures var v := ApplyCalls(secp, NewUpdate(prev, coinbase, address, fee).value, calls);
            var o := CallOutcome(secp, v, call);
            && o != TaprootError && o != IndexPanic
            && (o == Outcome.NoPrevUpdateTxOut <==> call.SignPrev? && prev.None?)
            && (o != Signed ==> ApplyCall(secp, v, call) == v)
            && (o == Signed <==>
                  && !(call.SignPrev? && prev.None?)
                  && SigningKeypair(secp, call.signer).Some?
                  && var k := SigningKeypair(secp, call.signer).value;
                     var d := KeySpendDigest(v.tx, CallIndex(call), Spent(v), SIGHASH_ALL);
                     secp.verify(secp.sign(d, k, call.signer.rng), d, secp.xOnly(k)))
  {
    var u := NewUpdate(prev, coinbase, address, fee).value;
    NewValid(prev, coinbase, address, fee);
    SigningHistory(secp, u, calls);
    CallKeeps(secp, ApplyCalls(secp, u, calls), call);
  }

  /** The public keys of the calls on input `i` whose tweak the curve accepts. */
  function KeysUsed(secp: Secp, calls: seq<Call>, i: nat): seq<XOnlyKey> {
    if calls == [] then []
    else
      var call := calls[|calls| - 1];
      var keypair := SigningKeypair(secp, call.signer);
      KeysUsed(secp, calls[..|calls| - 1], i)
      + (if CallIndex(call) == i && keypair.Some? then [secp.xOnly(keypair.value)] else [])
  }

  /** On a sound curve the successful calls on an input are those whose tweak is accepted. */
  lemma {:induction false} SigningsAreKeysUsed(secp: Secp, u: Update, calls: seq<Call>, i: nat)
    requires Sound(secp) && Valid(u) && Unsigned(u) && i < |u.tx.input|
    ensures |Signings(secp, u, calls, i)| == |KeysUsed(secp, calls, i)|
    ensures forall j :: 0 <= j < |Signings(secp, u, calls, i)| ==>
              secp.xOnly(Signings(secp, u, calls, i)[j].keypair) == KeysUsed(secp, calls, i)[j]
  {
    if calls != [] {
      var calls0, call := calls[..|calls| - 1], calls[|calls| - 1];
      SigningsAreKeysUsed(secp, u, calls0, i);
      SigningHistory(secp, u, calls0);
      var v := ApplyCalls(secp, u, calls0);
      if CallIndex(call) == i && SigningKeypair(secp, call.signer).Some? {
        var k, d := SigningKeypair(secp, call.signer).value, KeySpendDigest(v.tx, i, Spent(v), SIGHASH_ALL);
        assert secp.verify(secp.sign(d, k, call.signer.rng), d, secp.xOnly(k));
        assert CallMade(secp, v, call, i) == [Made(k, call.signer.rng)];
      } else {
        assert CallMade(secp, v, call, i) == [];
      }
    }
  }

  /** The key a script pays to, if it is a key-path output. */
  type OutputKey = Script -> Option<XOnlyKey>

  /** The last of two or more elements, if its first byte is 0x50. */
  function Annex(stack: seq<Element>): Option<Element> {
    if |stack| >= 2 && stack[|stack| - 1] != [] && stack[|stack| - 1][0] == 0x50 then
      Some(stack[|stack| - 1])
    else None
  }

  /** The witness of input `i` is a key-path spend of the output it names: apart from an annex it
      is a single signature, of 64 bytes under the default type or of 65 of which the last is the
      type, valid under the key of that output (BIP 341, section 'Script validation rules').
      Types that leave out inputs or outputs are not considered. */
  ghost predicate KeyPathSpends(secp: Secp, outputKey: OutputKey, tx: Tx, spent: seq<TxOut>, i: nat)
    requires i < |tx.input| == |spent|
  {
    var stack, key := tx.input[i].stack, outputKey(spent[i].scriptPubkey);
    var annex := Annex(stack);
    && key.Some? && |stack| == (if annex.Some? then 2 else 1)
    && var e := stack[0];
       || (|e| == 64 && secp.verify(e, KeySpendDigest(tx, i, spent, SIGHASH_DEFAULT).(annex := annex), key.value))
       || (|e| == 65 && e[64] == SIGHASH_ALL
           && secp.verify(e[..64], KeySpendDigest(tx, i, spent, SIGHASH_ALL).(annex := annex), key.value))
  }

  /** The calls on input `i` use the key of the script `owner`, and do so once. */
  predicate SignedOnceByOwner(secp: Secp, outputKey: OutputKey, calls: seq<Call>, owner: Script, i: nat) {
    outputKey(owner).Some? && KeysUsed(secp, calls, i) == [outputKey(owner).value]
  }

  /** The code checks a signature only against its own key, and adds to whatever is there. So an
      input can be spent by the key of the output it names exactly when one call with an
      accepted tweak was made on it, with that key: another key spoils it, and so does signing
      twice. */
  lemma KeyPathSpendsIff(secp: Secp, outputKey: OutputKey, u: Update, calls: seq<Call>, i: nat)
    requires Sound(secp) && Valid(u) && Unsigned(u) && i < |u.tx.input|
    ensures var v := ApplyCalls(secp, u, calls);
            && |v.tx.input| == |Spent(v)| == |u.tx.input| && Spent(v) == Spent(u)
            && (KeyPathSpends(secp, outputKey, v.tx, Spent(v), i)
                <==> SignedOnceByOwner(secp, outputKey, calls, Spent(u)[i].scriptPubkey, i))
  {
    SigningHistory(secp, u, calls);
    SigningsAreKeysUsed(secp, u, calls, i);
    var v, made, keys := ApplyCalls(secp, u, calls), AllSignings(secp, u, calls), KeysUsed(secp, calls, i);
    assert made[i] == Signings(secp, u, calls, i) && |keys| == |v.tx.input[i].stack|;
    if |keys| > 0 {
      var e, m := v.tx.input[i].stack[0], made[i][0];
      assert Holds(secp, v.tx, i, Spent(v), e, m);
      var d := KeySpendDigest(v.tx, i, Spent(v), SIGHASH_ALL);
      assert e[..64] == secp.sign(d, m.keypair, m.rng);
      forall annex, x ensures secp.verify(e[..64], d.(annex := annex), x) <==> annex == None && x == keys[0] {
        SoundFor(secp, d, m.keypair, m.rng, annex, x);
      }
    }
  }

  /** A single call with the output's own key makes the input spendable; the same call again
      succeeds as well, and spoils it. */
  lemma SigningTwiceSpoils(secp: Secp, outputKey: OutputKey, u: Update, call: Call)
    requires Sound(secp) && Valid(u) && Unsigned(u) && CallIndex(call) < |u.tx.input|
    requires SigningKeypair(secp, call.signer).Some?
    requires outputKey(Spent(u)[CallIndex(call)].scriptPubkey)
             == Some(secp.xOnly(SigningKeypair(secp, call.signer).value))
    ensures var i, v, w := CallIndex(call), ApplyCalls(secp, u, [call]), ApplyCalls(secp, u, [call, call]);
            && CallOutcome(secp, u, call) == Signed && CallOutcome(secp, v, call) == Signed
            && |v.tx.input| == |w.tx.input| == |Spent(v)| == |Spent(w)| == |u.tx.input|
            && KeyPathSpends(secp, outputKey, v.tx, Spent(v), i)
            && !KeyPathSpends(secp, outputKey, w.tx, Spent(w), i)
  {
    var i := CallIndex(call);
    assert [call][..0] == [] && [call, call][..1] == [call];
    KeyPathSpendsIff(secp, outputKey, u, [call], i);
    KeyPathSpendsIff(secp, outputKey, u, [call, call], i);
    SoundSigns(secp, u, call);
    SigningHistory(secp, u, [call]);
    SoundSigns(secp, ApplyCalls(secp, u, [call]), call);
  }

  /** A call with any other key succeeds too, and leaves the input unspendable. */
  lemma OtherKeySpoils(secp: Secp, outputKey: OutputKey, u: Update, call: Call)
    requires Sound(secp) && Valid(u) && Unsigned(u) && CallIndex(call) < |u.tx.input|
    requires SigningKeypair(secp, call.signer).Some?
    requires outputKey(Spent(u)[CallIndex(call)].scriptPubkey)
             != Some(secp.xOnly(SigningKeypair(secp, call.signer).value))
    ensures var i, v := CallIndex(call), ApplyCalls(secp, u, [call]);
            && CallOutcome(secp, u, call) == Signed && |v.tx.input| == |Spent(v)| == |u.tx.input|
            && !KeyPathSpends(secp, outputKey, v.tx, Spent(v), i)
  {
    assert [call][..0] == [];
    KeyPathSpendsIff(secp, outputKey, u, [call], CallIndex(call));
    SoundSigns(secp, u, call);
  }

  lemma SoundSigns(secp: Secp, u: Update, call: Call)
    requires Sound(secp) && Valid(u) && CallIndex(call) < |u.tx.input|
    requires SigningKeypair(secp, call.signer).Some?
    ensures CallOutcome(secp, u, call) == Signed
  {
    var k := SigningKeypair(secp, call.signer).value;
    var d := KeySpendDigest(u.tx, CallIndex(call), Spent(u), SIGHASH_ALL);
    assert secp.verify(secp.sign(d, k, call.signer.rng), d, secp.xOnly(k));
  }

  /** An output that pays to a tweaked key is spendable after a call with that tweak, by the pair
      the curve makes of it; a call that leaves the tweak out, or any other whose pair has another
      public key, succeeds and is of no use. */
  lemma TweakedKeySpends(secp: Secp, outputKey: OutputKey, u: Update, key: SecretKey, tweak: Scalar, rng: nat)
    requires Sound(secp) && Valid(u) && Unsigned(u) && u.tx.input != []
    requires secp.addXonlyTweak(secp.keypair(key), tweak).Some?
    requires outputKey(Spent(u)[0].scriptPubkey)
             == Some(secp.xOnly(secp.addXonlyTweak(secp.keypair(key), tweak).value))
    ensures var v := ApplyCalls(secp, u, [SignCoinbase(Signer(key, Some(tweak), rng))]);
            |v.tx.input| == |Spent(v)| == |u.tx.input| && KeyPathSpends(secp, outputKey, v.tx, Spent(v), 0)
    ensures var w := ApplyCalls(secp, u, [SignCoinbase(Signer(key, None, rng))]);
            && |w.tx.input| == |Spent(w)| == |u.tx.input|
            && (KeyPathSpends(secp, outputKey, w.tx, Spent(w), 0) <==>
                  secp.xOnly(secp.keypair(key)) == secp.xOnly(secp.addXonlyTweak(secp.keypair(key), tweak).value))
  {
    var tweaked, plain := SignCoinbase(Signer(key, Some(tweak), rng)), SignCoinbase(Signer(key, None, rng));
    assert [tweaked][..0] == [] && [plain][..0] == [];
    KeyPathSpendsIff(secp, outputKey, u, [tweaked], 0);
    KeyPathSpendsIff(secp, outputKey, u, [plain], 0);
  }

  /** A call for the coinbase touches the first input alone, one for the previous update the
      second; a successful one adds one element. */
  lemma CallSignsItsInput(secp: Secp, u: Update, call: Call)
    requires Valid(u)
    ensures var next, i := ApplyCall(secp, u, call).tx, if call.SignCoinbase? then 0 else 1;
            && |next.input| == |u.tx.input|
            && (forall k :: 0 <= k < |u.tx.input| && k != i ==> next.input[k] == u.tx.input[k])
            && (CallOutcome(secp, u, call) == Signed ==>
                  i < |u.tx.input| && |next.input[i].stack| == |u.tx.input[i].stack| + 1)
  {
  }

  class PayoutUpdate {
    const transaction: Transaction
    const coinbaseTxout: TxOut
    const prevUpdateTxout: Option<TxOut>

    function View(): Update
      reads transaction
    {
      Update(transaction.Value(), coinbaseTxout, prevUpdateTxout)
    }

    constructor FromParts(transaction: Transaction, coinbaseTxout: TxOut, prevUpdateTxout: Option<TxOut>)
      ensures this.transaction == transaction
      ensures View() == Update(transaction.Value(), coinbaseTxout, prevUpdateTxout)
    {
      this.transaction, this.coinbaseTxout, this.prevUpdateTxout := transaction, coinbaseTxout, prevUpdateTxout;
    }

    static method New(prev: Option<Tx>, coinbase: Tx, address: Script, fee: nat)
      returns (result: Result<PayoutUpdate, Panic>)
      ensures result.Ok? <==> NewUpdate(prev, coinbase, address, fee).Ok?
      ensures result.Err? ==> NewUpdate(prev, coinbase, address, fee) == Err(result.error)
      ensures result.Ok? ==>
                && fresh(result.value) && fresh(result.value.transaction)
                && result.value.View() == NewUpdate(prev, coinbase, address, fee).value
                && Valid(result.value.View())
    {
      if coinbase.output == [] {
        return Err(NoCoinbaseOutput);
      }
      var coinbaseTxout := coinbase.output[0];
      var builder := new TransactionBuilder();
      builder.AddInput(ComputeTxid(coinbase), 0);
      var prevUpdateTxout: Option<TxOut> := None;
      if prev.Some? {
        builder.AddInput(ComputeTxid(prev.value), 0);
        if prev.value.output == [] {
          return Err(NoPrevUpdateOutput);
        }
        prevUpdateTxout := Some(prev.value.output[0]);
      }
      var total := TotalAmount(coinbaseTxout.value, prevUpdateTxout);
      if total.None? {
        return Err(AmountOverflow);
      }
      var paid := Sub(total.value, fee);
      if paid.None? {
        return Err(AmountUnderflow);
      }
      builder.AddOutput(address, paid.value);
      var transaction := builder.Build();
      var update := new PayoutUpdate.FromParts(transaction, coinbaseTxout, prevUpdateTxout);
      NewValid(prev, coinbase, address, fee);
      return Ok(update);
    }

    method AddCoinbaseSig(s: Signer, secp: Secp) returns (outcome: Outcome)
      requires Valid(View())
      modifies transaction
      ensures outcome == CallOutcome(secp, old(View()), SignCoinbase(s))
      ensures View() == ApplyCall(secp, old(View()), SignCoinbase(s)) && Valid(View())
      ensures outcome != TaprootError && outcome != IndexPanic
      ensures |transaction.input| == |old(transaction.input)|
      ensures forall i :: 1 <= i < |transaction.input| ==> transaction.input[i] == old(transaction.input)[i]
      ensures outcome == Signed ==>
                |transaction.input| > 0
                && |transaction.input[0].stack| == |old(transaction.input)[0].stack| + 1
    {
      CallSignsItsInput(secp, View(), SignCoinbase(s));
      CallKeeps(secp, View(), SignCoinbase(s));
      var prevouts := if prevUpdateTxout.Some? then [coinbaseTxout, prevUpdateTxout.value] else [coinbaseTxout];
      outcome := AddSignature(transaction, 0, prevouts, s, secp);
    }

    method AddPrevUpdateSig(s: Signer, secp: Secp) returns (outcome: Outcome)
      requires Valid(View())
      modifies transaction
      ensures outcome == CallOutcome(secp, old(View()), SignPrev(s))
      ensures View() == ApplyCall(secp, old(View()), SignPrev(s)) && Valid(View())
      ensures prevUpdateTxout.None? ==> outcome == Outcome.NoPrevUpdateTxOut && View() == old(View())
      ensures outcome != TaprootError && outcome != IndexPanic
      ensures |transaction.input| == |old(transaction.input)|
      ensures forall i :: 0 <= i < |transaction.input| && i != 1 ==> transaction.input[i] == old(transaction.input)[i]
      ensures outcome == Signed ==>
                |transaction.input| > 1
                && |transaction.input[1].stack| == |old(transaction.input)[1].stack| + 1
    {
      CallSignsItsInput(secp, View(), SignPrev(s));
      CallKeeps(secp, View(), SignPrev(s));
      if prevUpdateTxout.None? {
        return Outcome.NoPrevUpdateTxOut;
      }
      outcome := AddSignature(transaction, 1, [coinbaseTxout, prevUpdateTxout.value], s, secp);
    }

    method Build() returns (tx: Tx)
      ensures tx == View().tx
    {
      tx := transaction.Value();
    }
  }
}
