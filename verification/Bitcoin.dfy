/** Bitcoin transactions as the payout code uses them, with hashes as free terms: a txid is the
    term of the transaction without its witnesses (BIP 141, section 'Transaction ID'), a
    signature digest the term of the fields it commits to (BIP 341, section 'Common signature
    message'). Injectivity and acyclicity then hold by construction. */
module Bitcoin {
  import opened Wrappers

  type Script = seq<nat>

  datatype TxOut = TxOut(value: nat, scriptPubkey: Script)

  datatype OutPoint = Null | OutPoint(txid: Txid, vout: nat)

  datatype StrippedIn = StrippedIn(previousOutput: OutPoint, scriptSig: Script, sequence: nat)

  datatype Txid = Txid(version: int, lockTime: nat, input: seq<StrippedIn>, output: seq<TxOut>)

  type Element = seq<nat>

  datatype TxIn = TxIn(
    previousOutput: OutPoint,
    scriptSig: Script,
    sequence: nat,
    stack: seq<Element>)     // the witness

  datatype Tx = Tx(version: int, lockTime: nat, input: seq<TxIn>, output: seq<TxOut>)

  const VERSION_TWO := 2
  const SEQUENCE_MAX: nat := 0xFFFF_FFFF
  const SIGHASH_DEFAULT: nat := 0x00
  const SIGHASH_ALL: nat := 0x01

  function StripIn(i: TxIn): StrippedIn {
    StrippedIn(i.previousOutput, i.scriptSig, i.sequence)
  }

  function ComputeTxid(tx: Tx): Txid {
    Txid(tx.version, tx.lockTime, seq(|tx.input|, i requires 0 <= i < |tx.input| => StripIn(tx.input[i])), tx.output)
  }

  /** What a txid commits to: two transactions have the same one exactly when they agree on
      everything but their witnesses. */
  lemma TxidCommits(a: Tx, b: Tx)
    ensures ComputeTxid(a) == ComputeTxid(b) <==>
            && a.version == b.version && a.lockTime == b.lockTime && a.output == b.output
            && |a.input| == |b.input|
            && forall i :: 0 <= i < |a.input| ==>
                 && a.input[i].previousOutput == b.input[i].previousOutput
                 && a.input[i].scriptSig == b.input[i].scriptSig
                 && a.input[i].sequence == b.input[i].sequence
  {
    var x, y := ComputeTxid(a).input, ComputeTxid(b).input;
    if ComputeTxid(a) == ComputeTxid(b) {
      forall i | 0 <= i < |a.input| ensures StripIn(a.input[i]) == StripIn(b.input[i]) {
        assert x[i] == StripIn(a.input[i]) && y[i] == StripIn(b.input[i]);
      }
    } else if |a.input| == |b.input| && forall i :: 0 <= i < |x| ==> x[i] == y[i] {
      assert x == y;
    }
  }

  /** The output an outpoint names. */
  function Named(o: OutPoint): Option<TxOut> {
    if o.OutPoint? && o.vout < |o.txid.output| then Some(o.txid.output[o.vout]) else None
  }

  /** An outpoint of a transaction names the output at its position, if there is one. */
  lemma NamedOutput(tx: Tx, vout: nat)
    ensures Named(OutPoint(ComputeTxid(tx), vout)) == if vout < |tx.output| then Some(tx.output[vout]) else None
    ensures Named(Null) == None
  {
  }

  /** Amounts are 64-bit satoshi counts, and the operators panic on overflow and underflow. */
  const MAX_AMOUNT: nat := 0xFFFF_FFFF_FFFF_FFFF

  function Add(a: nat, b: nat): Option<nat> {
    if a + b <= MAX_AMOUNT then Some(a + b) else None
  }

  function Sub(a: nat, b: nat): Option<nat> {
    if b <= a then Some(a - b) else None
  }

  datatype Digest = SigMsg(
    hashType: nat,
    version: int,
    lockTime: nat,
    prevouts: seq<OutPoint>,
    spent: seq<TxOut>,       // amounts and scripts of the outputs spent
    sequences: seq<nat>,
    outputs: seq<TxOut>,
    index: nat,
    annex: Option<Element>)

  /** The digest of a key-path spend committing to every input and output, without an annex. */
  function KeySpendDigest(tx: Tx, index: nat, spent: seq<TxOut>, hashType: nat): Digest {
    SigMsg(hashType, tx.version, tx.lockTime,
           seq(|tx.input|, i requires 0 <= i < |tx.input| => tx.input[i].previousOutput),
           spent,
           seq(|tx.input|, i requires 0 <= i < |tx.input| => tx.input[i].sequence),
           tx.output, index, None)
  }

  /** What a key-path signature commits to: the type, the index of its input, everything of the
      transaction but the scripts and witnesses of its inputs, and all outputs spent. */
  lemma DigestCommits(a: Tx, i: nat, spentA: seq<TxOut>, typeA: nat, b: Tx, j: nat, spentB: seq<TxOut>, typeB: nat)
    ensures KeySpendDigest(a, i, spentA, typeA) == KeySpendDigest(b, j, spentB, typeB) <==>
            && typeA == typeB && i == j && spentA == spentB
            && a.version == b.version && a.lockTime == b.lockTime && a.output == b.output
            && |a.input| == |b.input|
            && forall k :: 0 <= k < |a.input| ==>
                 && a.input[k].previousOutput == b.input[k].previousOutput
                 && a.input[k].sequence == b.input[k].sequence
  {
    var x, y := KeySpendDigest(a, i, spentA, typeA), KeySpendDigest(b, j, spentB, typeB);
    if x == y {
      forall k | 0 <= k < |a.input|
        ensures a.input[k].previousOutput == b.input[k].previousOutput && a.input[k].sequence == b.input[k].sequence
      {
        assert x.prevouts[k] == y.prevouts[k] && x.sequences[k] == y.sequences[k];
      }
    } else if |a.input| == |b.input| && forall k :: 0 <= k < |a.input| ==>
                x.prevouts[k] == y.prevouts[k] && x.sequences[k] == y.sequences[k] {
      assert x.prevouts == y.prevouts && x.sequences == y.sequences;
    }
  }

  /** `tx` with one more element on the witness of input `i`. */
  function PushWitness(tx: Tx, i: nat, e: Element): Tx
    requires i < |tx.input|
  {
    tx.(input := tx.input[i := tx.input[i].(stack := tx.input[i].stack + [e])])
  }

  /** Neither the txid nor any digest depends on a witness. */
  lemma WitnessFree(tx: Tx, i: nat, e: Element)
    requires i < |tx.input|
    ensures ComputeTxid(PushWitness(tx, i, e)) == ComputeTxid(tx)
    ensures forall k: nat, spent, h: nat ::
              KeySpendDigest(PushWitness(tx, i, e), k, spent, h) == KeySpendDigest(tx, k, spent, h)
  {
    var next := PushWitness(tx, i, e);
    assert ComputeTxid(next).input == ComputeTxid(tx).input;
    forall k: nat, spent, h: nat ensures KeySpendDigest(next, k, spent, h) == KeySpendDigest(tx, k, spent, h) {
      assert KeySpendDigest(next, k, spent, h).prevouts == KeySpendDigest(tx, k, spent, h).prevouts;
      assert KeySpendDigest(next, k, spent, h).sequences == KeySpendDigest(tx, k, spent, h).sequences;
    }
  }

  /** The transaction object the builder and the signer update in place. */
  class Transaction {
    const version: int
    const lockTime: nat
    var input: seq<TxIn>
    var output: seq<TxOut>

    constructor ()
      ensures Value() == Tx(2, 0, [], [])
    {
      version, lockTime, input, output := VERSION_TWO, 0, [], [];
    }

    /** A snapshot, as `clone` takes. */
    function Value(): Tx
      reads this
    {
      Tx(version, lockTime, input, output)
    }
  }
}
