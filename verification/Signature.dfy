/** Signing one input in place (node/uhpo/src/crypto/signature.rs, `add_signature`). The curve
    is whatever the code was given: keys, tweaks, signing and verification are parameters. */
module Signing {
  import opened Wrappers
  import opened Bitcoin

  type SecretKey = nat
  type Scalar = nat
  type Keypair = nat
  type XOnlyKey = nat

  /** 64 bytes. */
  type Signature = s: seq<nat> | |s| == 64 && forall b :: b in s ==> b < 256 witness seq(64, _ => 0)

  datatype Secp = Secp(
    keypair: SecretKey -> Keypair,
    addXonlyTweak: (Keypair, Scalar) -> Option<Keypair>,
    xOnly: Keypair -> XOnlyKey,
    sign: (Digest, Keypair, nat) -> Signature,      // the last argument is the randomness
    verify: (Element, Digest, XOnlyKey) -> bool)

  /** A signing request: the key, an optional tweak, and the randomness drawn. */
  datatype Signer = Signer(key: SecretKey, tweak: Option<Scalar>, rng: nat)

  datatype Outcome =
    | Signed
    | KeypairCreationError
    | TaprootError
    | SignatureVerificationError
    | NoPrevUpdateTxOut
    | IndexPanic

  function SigningKeypair(secp: Secp, s: Signer): Option<Keypair> {
    match s.tweak
    case Some(t) => secp.addXonlyTweak(secp.keypair(s.key), t)
    case None => Some(secp.keypair(s.key))
  }

  /** What the signer would put on the witness: the signature and the sighash byte. */
  function ElementFor(secp: Secp, keypair: Keypair, digest: Digest, rng: nat): Element {
    secp.sign(digest, keypair, rng) + [SIGHASH_ALL]
  }

  /** The result of a signing request, in the order the code can fail. */
  function OutcomeOf(secp: Secp, tx: Tx, index: nat, spent: seq<TxOut>, s: Signer): Outcome {
    var keypair := SigningKeypair(secp, s);
    if keypair.None? then KeypairCreationError
    else if |spent| != |tx.input| then TaprootError
    else
      var digest := KeySpendDigest(tx, index, spent, SIGHASH_ALL);
      if !secp.verify(secp.sign(digest, keypair.value, s.rng), digest, secp.xOnly(keypair.value)) then
        SignatureVerificationError
      else if index >= |tx.input| then IndexPanic
      else Signed
  }

  /** The transaction after a signing request. */
  function AfterSigning(secp: Secp, tx: Tx, index: nat, spent: seq<TxOut>, s: Signer): Tx {
    if OutcomeOf(secp, tx, index, spent, s) == Signed then
      var digest := KeySpendDigest(tx, index, spent, SIGHASH_ALL);
      PushWitness(tx, index, ElementFor(secp, SigningKeypair(secp, s).value, digest, s.rng))
    else tx
  }

  /** What is assumed of the curve where the key of an output matters: a signature verifies under
      the public key of the pair that made it and under no other, and not at all once an annex
      is added to what was signed. */
  ghost predicate Sound(secp: Secp) {
    forall signed: Digest, k, r, d: Digest, x ::
      signed.annex.None? && d == signed.(annex := d.annex) ==>
        (secp.verify(secp.sign(signed, k, r), d, x) <==> d.annex.None? && x == secp.xOnly(k))
  }

  lemma SoundFor(secp: Secp, d: Digest, k: Keypair, r: nat, annex: Option<Element>, x: XOnlyKey)
    requires Sound(secp) && d.annex.None?
    ensures secp.verify(secp.sign(d, k, r), d.(annex := annex), x) <==> annex.None? && x == secp.xOnly(k)
  {
  }

  /** That assumption can be met, by a curve with more than one key. */
  lemma SoundExists() returns (secp: Secp)
    ensures Sound(secp) && secp.xOnly(0) != secp.xOnly(1)
    ensures forall k, t :: secp.addXonlyTweak(k, t).Some?
  {
    secp := Secp(
      key => key,
      (keypair, t) => Some(keypair + t),
      keypair => keypair % 256,
      (d, keypair, rng) => Repeated(keypair % 256),
      (s, d: Digest, x) => d.annex.None? && s != [] && s[0] == x);
  }

  function Repeated(b: nat): Signature
    requires b < 256
  {
    seq(64, _ => b)
  }

  /** A signature put on a witness: the key pair that made it, tweaked or not, and the randomness
      it drew. */
  datatype Made = Made(keypair: Keypair, rng: nat)

  /** `e` is the signature `m` stands for, and verifies against `tx` as it stands. */
  ghost predicate Holds(secp: Secp, tx: Tx, index: nat, spent: seq<TxOut>, e: Element, m: Made) {
    var digest := KeySpendDigest(tx, index, spent, SIGHASH_ALL);
    && e == ElementFor(secp, m.keypair, digest, m.rng)
    && |e| == 65 && e[64] == SIGHASH_ALL
    && secp.verify(e[..64], digest, secp.xOnly(m.keypair))
  }

  /** Every witness is exactly the list of signatures given for it. */
  ghost predicate AllHold(secp: Secp, tx: Tx, spent: seq<TxOut>, made: seq<seq<Made>>) {
    && |made| == |tx.input|
    && forall i :: 0 <= i < |tx.input| ==>
         |made[i]| == |tx.input[i].stack|
         && forall j :: 0 <= j < |made[i]| ==> Holds(secp, tx, i, spent, tx.input[i].stack[j], made[i][j])
  }

  /** What a signing request for input `index` adds to the witness of input `i`. */
  function MadeBy(secp: Secp, tx: Tx, index: nat, spent: seq<TxOut>, s: Signer, i: nat): seq<Made> {
    if i == index && OutcomeOf(secp, tx, index, spent, s) == Signed then
      [Made(SigningKeypair(secp, s).value, s.rng)]
    else []
  }

  /** One signing request leaves the txid and every earlier element alone, keeps those valid, and
      adds on success exactly the signature it made and the byte 0x01. */
  lemma SigningKeepsValid(secp: Secp, tx: Tx, index: nat, spent: seq<TxOut>, s: Signer,
                          made: seq<seq<Made>>, more: seq<seq<Made>>)
    requires AllHold(secp, tx, spent, made) && |more| == |made|
    requires forall i :: 0 <= i < |made| ==> more[i] == made[i] + MadeBy(secp, tx, index, spent, s, i)
    ensures var next := AfterSigning(secp, tx, index, spent, s);
            && ComputeTxid(next) == ComputeTxid(tx) && AllHold(secp, next, spent, more)
            && forall i :: 0 <= i < |tx.input| ==> tx.input[i].stack <= next.input[i].stack
  {
    if OutcomeOf(secp, tx, index, spent, s) == Signed {
      var keypair := SigningKeypair(secp, s).value;
      var digest := KeySpendDigest(tx, index, spent, SIGHASH_ALL);
      var e := ElementFor(secp, keypair, digest, s.rng);
      WitnessFree(tx, index, e);
      assert e[..64] == secp.sign(digest, keypair, s.rng);
      var next := PushWitness(tx, index, e);
      forall i, j | 0 <= i < |next.input| && 0 <= j < |more[i]|
        ensures Holds(secp, next, i, spent, next.input[i].stack[j], more[i][j])
      {
        if j < |made[i]| {
          assert Holds(secp, tx, i, spent, tx.input[i].stack[j], made[i][j]);
        }
      }
    } else {
      assert forall i :: 0 <= i < |made| ==> more[i] == made[i];
    }
  }

  /** Signing in terms of the curve alone. With key pair k, tweaked if the request has a tweak, the
      witness of that input gets k's signature of the digest and the byte 0x01; a rejected tweak,
      a wrong number of spent outputs, a rejected verification and an index beyond the inputs
      each have an outcome of their own, in that order, and change nothing. */
  lemma SigningOnCurve(secp: Secp, tx: Tx, index: nat, spent: seq<TxOut>, s: Signer)
    ensures var outcome, next := OutcomeOf(secp, tx, index, spent, s), AfterSigning(secp, tx, index, spent, s);
            var pair := secp.keypair(s.key);
            var k := if s.tweak.None? then Some(pair) else secp.addXonlyTweak(pair, s.tweak.value);
            var d := KeySpendDigest(tx, index, spent, 0x01);
            if k.None? then outcome == KeypairCreationError && next == tx
            else if |spent| != |tx.input| then outcome == TaprootError && next == tx
            else if !secp.verify(secp.sign(d, k.value, s.rng), d, secp.xOnly(k.value)) then
              outcome == SignatureVerificationError && next == tx
            else if index >= |tx.input| then outcome == IndexPanic && next == tx
            else
              && outcome == Signed && next == tx.(input := next.input) && |next.input| == |tx.input|
              && next.input[index] ==
                 tx.input[index].(stack := tx.input[index].stack + [secp.sign(d, k.value, s.rng) + [0x01]])
              && forall i :: 0 <= i < |tx.input| && i != index ==> next.input[i] == tx.input[i]
  {
  }

  method AddSignature(transaction: Transaction, index: nat, spent: seq<TxOut>, s: Signer, secp: Secp)
    returns (outcome: Outcome)
    modifies transaction
    ensures outcome == OutcomeOf(secp, old(transaction.Value()), index, spent, s)
    ensures transaction.Value() == AfterSigning(secp, old(transaction.Value()), index, spent, s)
    ensures outcome == Signed ==>
              && index < |old(transaction.input)| && (s.tweak.Some? ==>
                    secp.addXonlyTweak(secp.keypair(s.key), s.tweak.value).Some?)
              && var pair := secp.keypair(s.key);
                 var k := if s.tweak.None? then pair else secp.addXonlyTweak(pair, s.tweak.value).value;
                 var d := KeySpendDigest(old(transaction.Value()), index, spent, 0x01);
                 var signed := old(transaction.input)[index];
                 transaction.input == old(transaction.input)[index :=
                   signed.(stack := signed.stack + [secp.sign(d, k, s.rng) + [0x01]])]
    ensures outcome != Signed ==> transaction.input == old(transaction.input)
  {
    var keypair := secp.keypair(s.key);
    if s.tweak.Some? {
      var tweaked := secp.addXonlyTweak(keypair, s.tweak.value);
      if tweaked.None? {
        return KeypairCreationError;
      }
      keypair := tweaked.value;
    }
    var clone := transaction.Value();
    if |spent| != |clone.input| {
      return TaprootError;
    }
    var digest := KeySpendDigest(clone, index, spent, SIGHASH_ALL);
    var signature := secp.sign(digest, keypair, s.rng);
    if !secp.verify(signature, digest, secp.xOnly(keypair)) {
      return SignatureVerificationError;
    }
    if index >= |transaction.input| {
      return IndexPanic;
    }
    var signed := transaction.input[index];
    signed := signed.(stack := signed.stack + [signature + [SIGHASH_ALL]]);
    transaction.input := transaction.input[index := signed];
    return Signed;
  }
}
