/** The block record of the vote chain (Block.py).
    A block is built once from a previous hash, a list of transaction strings
    and a clock reading, and its fields are never reassigned afterwards, so it
    is a value: a datatype plus the function that plays the constructor. */
module Blocks {

  const HexDigits: string := "0123456789abcdef"

  /** A digest as `hexdigest()` prints it: 64 lowercase hexadecimal characters. */
  predicate IsHexDigest(h: string) {
    |h| == 64 && forall i :: 0 <= i < |h| ==> h[i] in HexDigits
  }

  /** The hex rendering of `n mod 16^width`, most significant digit first. */
  function ToHex(n: nat, width: nat): (r: string)
    ensures |r| == width
    ensures forall i :: 0 <= i < |r| ==> r[i] in HexDigits
  {
    if width == 0 then [] else ToHex(n / 16, width - 1) + [HexDigits[n % 16]]
  }

  /** A polynomial fold of the characters of `s`. */
  function Fold(s: string): nat {
    if s == [] then 0 else Fold(s[..|s| - 1]) * 131 + s[|s| - 1] as nat
  }

  /** Stand-in for `hashlib.sha256(s.encode()).hexdigest()`: a deterministic
      function of the hashed string whose result has the digest's shape.
      Nothing else about the model depends on which function it is. */
  function Digest(s: string): (h: string)
    ensures IsHexDigest(h)
  {
    ToHex(Fold(s), 64)
  }

  /** Python's `"".join(transaction)`: the strings concatenated in order. */
  function Join(transaction: seq<string>): (r: string)
    ensures |r| == TotalLength(transaction)
  {
    if transaction == [] then [] else Join(transaction[..|transaction| - 1]) + transaction[|transaction| - 1]
  }

  /** The decimal rendering of a clock reading (`str(self.timestamp)`). */
  function TimeString(t: nat): (r: string)
    ensures |r| > 0
    ensures forall i :: 0 <= i < |r| ==> '0' <= r[i] <= '9'
  {
    if t < 10 then ["0123456789"[t]] else TimeString(t / 10) + ["0123456789"[t % 10]]
  }

  /** The string the block hash is taken over: after the joined transactions
      come the previous hash and then the timestamp's string, which ends it. */
  function HashInput(transaction: seq<string>, previousHash: string, timestamp: nat): (r: string)
    ensures |r| == TotalLength(transaction) + |previousHash| + |TimeString(timestamp)|
    ensures r[TotalLength(transaction)..TotalLength(transaction) + |previousHash|] == previousHash
    ensures r[TotalLength(transaction) + |previousHash|..] == TimeString(timestamp)
  {
    Join(transaction) + previousHash + TimeString(timestamp)
  }

  datatype Block = Block(transaction: seq<string>, previousHash: string, timestamp: nat, blockHash: string)

  /** A block whose hash is the digest of its own inputs. */
  predicate WellFormed(b: Block) {
    b.blockHash == Digest(HashInput(b.transaction, b.previousHash, b.timestamp))
  }

  /** `Block(previous_hash, transaction)` with `time()` read as `timestamp`. */
  function NewBlock(previousHash: string, transaction: seq<string>, timestamp: nat): (b: Block)
    ensures b.transaction == transaction && b.previousHash == previousHash && b.timestamp == timestamp
    ensures WellFormed(b)
    ensures IsHexDigest(b.blockHash)
  {
    Block(transaction, previousHash, timestamp, Digest(HashInput(transaction, previousHash, timestamp)))
  }

  /** Joining two transaction lists joins their strings. */
  lemma {:induction false} JoinAppend(a: seq<string>, b: seq<string>)
    ensures Join(a + b) == Join(a) + Join(b)
    decreases |b|
  {
    if b == [] {
      assert a + b == a;
    } else {
      var b' := b[..|b| - 1];
      assert (a + b)[..|a + b| - 1] == a + b';
      JoinAppend(a, b');
    }
  }

  /** The joined string is as long as all transaction strings together. */
  function TotalLength(transaction: seq<string>): nat {
    if transaction == [] then 0 else TotalLength(transaction[..|transaction| - 1]) + |transaction[|transaction| - 1]|
  }

  /** In the hashed string each transaction sits at the offset given by the
      lengths of those before it. */
  lemma HashInputLayout(transaction: seq<string>, previousHash: string, timestamp: nat, k: nat)
    requires k < |transaction|
    ensures var s := HashInput(transaction, previousHash, timestamp);
            var off := TotalLength(transaction[..k]);
            off + |transaction[k]| <= |s| && s[off..off + |transaction[k]|] == transaction[k]
  {
    var s := HashInput(transaction, previousHash, timestamp);
    assert transaction == transaction[..k] + [transaction[k]] + transaction[k + 1..];
    JoinAppend(transaction[..k] + [transaction[k]], transaction[k + 1..]);
    JoinAppend(transaction[..k], [transaction[k]]);
    assert Join([transaction[k]]) == transaction[k] by {
      assert [transaction[k]][..0] == [];
    }
    assert s == Join(transaction[..k]) + transaction[k] + Join(transaction[k + 1..]) + previousHash + TimeString(timestamp);
  }

  /** A well-formed block is determined by its three inputs: two blocks built
      from equal inputs are equal, hash included. */
  lemma WellFormedDeterministic(b1: Block, b2: Block)
    requires WellFormed(b1) && WellFormed(b2)
    requires b1.transaction == b2.transaction && b1.previousHash == b2.previousHash && b1.timestamp == b2.timestamp
    ensures b1 == b2
  {
  }
}
