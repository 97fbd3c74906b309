/** Step-by-step construction of a transaction (node/uhpo/src/transaction/builder.rs). */
module TransactionBuilding {
  import opened Bitcoin

  /** An input spending `vout` of `txid`, with nothing to unlock it yet. */
  function Spend(txid: Txid, vout: nat): TxIn {
    TxIn(OutPoint(txid, vout), [], SEQUENCE_MAX, [])
  }

  class TransactionBuilder {
    const transaction: Transaction

    constructor ()
      ensures fresh(transaction) && transaction.Value() == Tx(2, 0, [], [])
    {
      transaction := new Transaction();
    }

    method AddInput(txid: Txid, vout: nat)
      modifies transaction
      ensures transaction.input == old(transaction.input) + [TxIn(OutPoint(txid, vout), [], 0xFFFF_FFFF, [])]
      ensures transaction.output == old(transaction.output)
    {
      transaction.input := transaction.input + [Spend(txid, vout)];
    }

    method AddOutput(address: Script, amount: nat)
      modifies transaction
      ensures transaction.output == old(transaction.output) + [TxOut(amount, address)]
      ensures transaction.input == old(transaction.input)
    {
      transaction.output := transaction.output + [TxOut(amount, address)];
    }

    method Build() returns (built: Transaction)
      ensures built == transaction
    {
      built := transaction;
    }
  }
}
