/** The vote chain and the vote operation (main.py).
    The chain is a list of blocks linked by hashes: each block records the hash
    of the block before it. It starts with a genesis block, grows only by
    appending, and a vote appends one block and then consumes the voter's token. */
module VoteChain {
  import opened Blocks
  import Database

  /** `GENESIS_PREV_HASH`: 64 zero characters. */
  const GenesisPrevHash: string := "0000000000000000000000000000000000000000000000000000000000000000"
  const GenesisTransaction: seq<string> := ["Genesis block"]

  const InvalidTokenMessage: string := "Invalid or already used token."
  const IntegrityMessage: string := "Blockchain integrity compromised. Vote not recorded."
  const SuccessMessage: string := "Vote successfully added to the blockchain!"

  /** Every block after the first records the hash of its predecessor. */
  predicate Linked(chain: seq<Block>) {
    forall i :: 1 <= i < |chain| ==> chain[i].previousHash == chain[i - 1].blockHash
  }

  function GenesisBlock(timestamp: nat): (b: Block)
    ensures b.previousHash == GenesisPrevHash && b.transaction == GenesisTransaction
    ensures WellFormed(b)
  {
    NewBlock(GenesisPrevHash, GenesisTransaction, timestamp)
  }

  /** The chain after `add_block(transactions)` with the clock at `timestamp`. */
  function WithBlock(chain: seq<Block>, transactions: seq<string>, timestamp: nat): (r: seq<Block>)
    requires |chain| > 0
    ensures |r| == |chain| + 1 && r[..|chain|] == chain
    ensures r[|chain|].previousHash == chain[|chain| - 1].blockHash
    ensures r[|chain|].transaction == transactions && WellFormed(r[|chain|])
  {
    chain + [NewBlock(chain[|chain| - 1].blockHash, transactions, timestamp)]
  }

  /** The transaction lists of a chain, block by block. */
  function Transactions(chain: seq<Block>): (r: seq<seq<string>>)
    ensures |r| == |chain|
    ensures forall i :: 0 <= i < |chain| ==> r[i] == chain[i].transaction
  {
    seq(|chain|, i requires 0 <= i < |chain| => chain[i].transaction)
  }

  lemma TransactionsAppend(chain: seq<Block>, b: Block)
    ensures Transactions(chain + [b]) == Transactions(chain) + [b.transaction]
  {
    assert forall i :: 0 <= i < |chain| ==> (chain + [b])[i] == chain[i];
  }

  /** `add_block` appends its transactions to the chain's transaction log. */
  lemma WithBlockTransactions(chain: seq<Block>, transactions: seq<string>, timestamp: nat)
    requires |chain| > 0
    ensures Transactions(WithBlock(chain, transactions, timestamp)) == Transactions(chain) + [transactions]
  {
    var r := WithBlock(chain, transactions, timestamp);
    assert r == r[..|chain|] + [r[|chain|]];
    TransactionsAppend(chain, r[|chain|]);
  }

  /** Appending one block keeps the chain linked exactly when the chain was
      linked and the new block records the hash of the old last block. */
  lemma AppendLinked(chain: seq<Block>, b: Block)
    ensures Linked(chain + [b]) <==>
              Linked(chain) && (chain == [] || b.previousHash == chain[|chain| - 1].blockHash)
  {
    var r := chain + [b];
    if Linked(r) {
      forall i | 1 <= i < |chain| ensures chain[i].previousHash == chain[i - 1].blockHash {
        assert r[i] == chain[i] && r[i - 1] == chain[i - 1];
      }
      if chain != [] {
        assert r[|chain|] == b && r[|chain| - 1] == chain[|chain| - 1];
      }
    } else if Linked(chain) && (chain == [] || b.previousHash == chain[|chain| - 1].blockHash) {
      forall i | 1 <= i < |r| ensures r[i].previousHash == r[i - 1].blockHash {
        assert r[i - 1] == chain[i - 1];
        if i < |chain| {
          assert r[i] == chain[i];
        }
      }
    }
  }

  /** Appending a block never breaks or repairs the links already there. */
  lemma WithBlockLinked(chain: seq<Block>, transactions: seq<string>, timestamp: nat)
    requires |chain| > 0
    ensures Linked(WithBlock(chain, transactions, timestamp)) <==> Linked(chain)
  {
    var b := NewBlock(chain[|chain| - 1].blockHash, transactions, timestamp);
    assert WithBlock(chain, transactions, timestamp) == chain + [b];
    AppendLinked(chain, b);
  }

  /** The module-level `blockchain` list. */
  class Blockchain {
    var blocks: seq<Block>

    /** `blockchain = []`. */
    constructor ()
      ensures blocks == []
    {
      blocks := [];
    }

    /** `create_genesis_block`: appends the genesis block to whatever is there. */
    method CreateGenesisBlock(timestamp: nat)
      modifies this
      ensures blocks == old(blocks) + [GenesisBlock(timestamp)]
      ensures old(blocks) == [] ==> |blocks| == 1 && Linked(blocks)
      ensures Linked(blocks) <==>
                Linked(old(blocks)) && (old(blocks) == [] || old(blocks)[|old(blocks)| - 1].blockHash == GenesisPrevHash)
    {
      AppendLinked(blocks, GenesisBlock(timestamp));
      blocks := blocks + [GenesisBlock(timestamp)];
    }

    /** `add_block`: `blockchain[-1]` needs a non-empty chain. */
    method AddBlock(transactions: seq<string>, timestamp: nat)
      requires |blocks| > 0
      modifies this
      ensures blocks == WithBlock(old(blocks), transactions, timestamp)
      ensures Linked(blocks) <==> Linked(old(blocks))
    {
      WithBlockLinked(blocks, transactions, timestamp);
      blocks := WithBlock(blocks, transactions, timestamp);
    }
  }

  /** `validate_blockchain`: scans the links from index 1 and stops at the first
      block whose recorded previous hash is not its predecessor's hash. */
  method ValidateBlockchain(chain: seq<Block>) returns (ok: bool)
    ensures ok <==> Linked(chain)
  {
    var i := 1;
    while i < |chain|
      invariant 1 <= i && (i <= |chain| || i == 1)
      invariant forall j :: 1 <= j < i ==> chain[j].previousHash == chain[j - 1].blockHash
    {
      if chain[i].previousHash != chain[i - 1].blockHash {
        return false;
      }
      i := i + 1;
    }
    return true;
  }

  /** One `add_block` request: the transactions and the clock reading. */
  datatype Addition = Addition(transactions: seq<string>, timestamp: nat)

  /** The chain after `create_genesis_block` on an empty list followed by the
      given `add_block` calls, in order. */
  function BuildChain(genesisTime: nat, additions: seq<Addition>): (r: seq<Block>)
    ensures |r| == |additions| + 1
    decreases |additions|
  {
    if additions == [] then [GenesisBlock(genesisTime)]
    else
      var last := additions[|additions| - 1];
      WithBlock(BuildChain(genesisTime, additions[..|additions| - 1]), last.transactions, last.timestamp)
  }

  /** The transaction lists of a sequence of `add_block` calls. */
  function AddedTransactions(additions: seq<Addition>): (r: seq<seq<string>>)
    ensures |r| == |additions|
    decreases |additions|
  {
    if additions == [] then [] else AddedTransactions(additions[..|additions| - 1]) + [additions[|additions| - 1].transactions]
  }

  /** Any chain built only by `create_genesis_block` and `add_block` validates,
      starts with the genesis block, and holds each addition's transactions. */
  lemma BuiltChainValidates(genesisTime: nat, additions: seq<Addition>)
    ensures Linked(BuildChain(genesisTime, additions))
    ensures BuildChain(genesisTime, additions)[0] == GenesisBlock(genesisTime)
    ensures Transactions(BuildChain(genesisTime, additions)) == [GenesisTransaction] + AddedTransactions(additions)
  {
    BuiltChainLinked(genesisTime, additions);
    BuiltChainStartsWithGenesis(genesisTime, additions);
    BuiltChainTransactions(genesisTime, additions);
  }

  lemma {:induction false} BuiltChainLinked(genesisTime: nat, additions: seq<Addition>)
    ensures Linked(BuildChain(genesisTime, additions))
    decreases |additions|
  {
    if additions != [] {
      var prefix := additions[..|additions| - 1];
      var last := additions[|additions| - 1];
      BuiltChainLinked(genesisTime, prefix);
      WithBlockLinked(BuildChain(genesisTime, prefix), last.transactions, last.timestamp);
    }
  }

  lemma {:induction false} BuiltChainStartsWithGenesis(genesisTime: nat, additions: seq<Addition>)
    ensures BuildChain(genesisTime, additions)[0] == GenesisBlock(genesisTime)
    decreases |additions|
  {
    if additions != [] {
      var prefix := additions[..|additions| - 1];
      var before := BuildChain(genesisTime, prefix);
      var chain := BuildChain(genesisTime, additions);
      BuiltChainStartsWithGenesis(genesisTime, prefix);
      assert chain[0] == chain[..|before|][0];
    }
  }

  lemma {:induction false} BuiltChainTransactions(genesisTime: nat, additions: seq<Addition>)
    ensures Transactions(BuildChain(genesisTime, additions)) == [GenesisTransaction] + AddedTransactions(additions)
    decreases |additions|
  {
    if additions == [] {
      GenesisTransactions(genesisTime);
    } else {
      var prefix := additions[..|additions| - 1];
      var last := additions[|additions| - 1];
      var before := BuildChain(genesisTime, prefix);
      BuiltChainTransactions(genesisTime, prefix);
      WithBlockTransactions(before, last.transactions, last.timestamp);
      AppendAfterHead(Transactions(before), GenesisTransaction, AddedTransactions(prefix), last.transactions);
    }
  }

  lemma GenesisTransactions(genesisTime: nat)
    ensures Transactions([GenesisBlock(genesisTime)]) == [GenesisTransaction]
  {
    var t := Transactions([GenesisBlock(genesisTime)]);
    assert t[0] == GenesisTransaction;
  }

  lemma AppendAfterHead<T>(s: seq<T>, head: T, rest: seq<T>, x: T)
    requires s == [head] + rest
    ensures s + [x] == [head] + (rest + [x])
  {
  }

  /** The log message recorded in a vote block. */
  function VoteMessage(token: string, selectedCandidate: string): (r: string)
    ensures |r| == 22 + |token| + |selectedCandidate|
    ensures r[..11] == "User token " && r[11..11 + |token|] == token
    ensures r[11 + |token|..22 + |token|] == " voted for " && r[22 + |token|..] == selectedCandidate
  {
    "User token " + token + " voted for " + selectedCandidate
  }

  datatype VoteResult = VoteResult(success: bool, message: string)

  /** The state `cast_vote` reads and writes: the chain and the voters table. */
  datatype Backend = Backend(chain: seq<Block>, voters: map<string, bool>)

  datatype Outcome = Outcome(state: Backend, result: VoteResult)

  /** What `cast_vote` needs from its caller: a chain to append to whenever
      the token would be accepted. */
  predicate CanCast(s: Backend, token: string) {
    Database.TokenValid(s.voters, token) ==> |s.chain| > 0
  }

  /** `cast_vote(token, selected_candidate)` as a function of the state. */
  function CastVoteStep(s: Backend, token: string, selectedCandidate: string, timestamp: nat): (o: Outcome)
    requires CanCast(s, token)
    ensures !Database.TokenValid(s.voters, token) ==> o == Outcome(s, VoteResult(false, InvalidTokenMessage))
    ensures Database.TokenValid(s.voters, token) ==>
              && o.state.chain == WithBlock(s.chain, [VoteMessage(token, selectedCandidate)], timestamp)
              && o.state.voters == Database.MarkUsed(s.voters, token)
              && o.result == if Linked(s.chain) then VoteResult(true, SuccessMessage) else VoteResult(false, IntegrityMessage)
    ensures o.result.success <==> o.result.message == SuccessMessage
    ensures !Database.TokenValid(o.state.voters, token)
  {
    if !Database.TokenValid(s.voters, token) then
      Outcome(s, VoteResult(false, InvalidTokenMessage))
    else
      var chain' := WithBlock(s.chain, [VoteMessage(token, selectedCandidate)], timestamp);
      var voters' := Database.MarkUsed(s.voters, token);
      WithBlockLinked(s.chain, [VoteMessage(token, selectedCandidate)], timestamp);
      Outcome(Backend(chain', voters'),
              if Linked(chain') then VoteResult(true, SuccessMessage) else VoteResult(false, IntegrityMessage))
  }

  /** `cast_vote` over the chain object and the database object. */
  method CastVote(chain: Blockchain, db: Database.VoterDb, token: string, selectedCandidate: string, timestamp: nat)
    returns (r: VoteResult)
    requires db.IsTokenValid(token) ==> |chain.blocks| > 0
    modifies chain, db
    ensures Outcome(Backend(chain.blocks, db.voters), r)
            == CastVoteStep(Backend(old(chain.blocks), old(db.voters)), token, selectedCandidate, timestamp)
    ensures db.candidates == old(db.candidates)
  {
    var valid := db.IsTokenValid(token);
    if !valid {
      return VoteResult(false, InvalidTokenMessage);
    }
    chain.AddBlock([VoteMessage(token, selectedCandidate)], timestamp);
    db.MarkTokenUsed(token);
    var intact := ValidateBlockchain(chain.blocks);
    if !intact {
      return VoteResult(false, IntegrityMessage);
    }
    return VoteResult(true, SuccessMessage);
  }

  /** After a successful vote, the same token is refused for any candidate at
      any time, and the refused attempt changes nothing. */
  lemma SecondVoteFails(s: Backend, token: string, first: string, t1: nat, second: string, t2: nat)
    requires CanCast(s, token)
    requires CastVoteStep(s, token, first, t1).result.success
    ensures var s1 := CastVoteStep(s, token, first, t1).state;
            CanCast(s1, token)
            && CastVoteStep(s1, token, second, t2) == Outcome(s1, VoteResult(false, InvalidTokenMessage))
  {
  }

  /** A vote request as it reaches `cast_vote`. */
  datatype Ballot = Ballot(token: string, candidate: string, timestamp: nat)

  /** The result of serving a sequence of vote requests one after another:
      the final state, each request's response, and the requests that were
      written to the chain. */
  datatype Trace = Trace(state: Backend, results: seq<VoteResult>, recorded: seq<Ballot>)

  function Replay(s: Backend, ballots: seq<Ballot>): (o: Trace)
    requires |s.chain| > 0
    ensures |o.results| == |ballots|
    ensures |o.state.chain| == |s.chain| + |o.recorded|
    decreases |ballots|
  {
    if ballots == [] then Trace(s, [], [])
    else
      var b := ballots[0];
      var step := CastVoteStep(s, b.token, b.candidate, b.timestamp);
      var rest := Replay(step.state, ballots[1..]);
      Trace(rest.state, [step.result] + rest.results,
            (if Database.TokenValid(s.voters, b.token) then [b] else []) + rest.recorded)
  }

  /** A token that is not valid stays invalid however many votes follow. */
  lemma {:induction false} ReplayKeepsInvalid(s: Backend, ballots: seq<Ballot>, token: string)
    requires |s.chain| > 0
    requires !Database.TokenValid(s.voters, token)
    ensures !Database.TokenValid(Replay(s, ballots).state.voters, token)
    decreases |ballots|
  {
    if ballots != [] {
      var b := ballots[0];
      var step := CastVoteStep(s, b.token, b.candidate, b.timestamp);
      Database.MarkUsedValidity(s.voters, b.token, token);
      ReplayKeepsInvalid(step.state, ballots[1..], token);
    }
  }

  /** No two of the ballots carry the same token. */
  predicate TokensDistinct(ballots: seq<Ballot>) {
    forall i, j :: 0 <= i < j < |ballots| ==> ballots[i].token != ballots[j].token
  }

  /** A ballot whose token none of `rest` carries keeps the tokens distinct. */
  lemma ConsDistinct(b: Ballot, rest: seq<Ballot>)
    requires TokensDistinct(rest)
    requires forall c :: c in rest ==> c.token != b.token
    ensures TokensDistinct([b] + rest)
  {
    var r := [b] + rest;
    forall i, j | 0 <= i < j < |r| ensures r[i].token != r[j].token {
      assert r[j] == rest[j - 1];
      if i > 0 {
        assert r[i] == rest[i - 1];
      }
    }
  }

  /** One token, one vote: of any sequence of vote requests, the ones written
      to the chain carry pairwise distinct tokens, each of them valid before the
      sequence and consumed after it. */
  lemma {:induction false} ReplayRecordsEachTokenOnce(s: Backend, ballots: seq<Ballot>)
    requires |s.chain| > 0
    ensures TokensDistinct(Replay(s, ballots).recorded)
    ensures forall b :: b in Replay(s, ballots).recorded ==>
              Database.TokenValid(s.voters, b.token) && !Database.TokenValid(Replay(s, ballots).state.voters, b.token)
    decreases |ballots|
  {
    if ballots != [] {
      var b := ballots[0];
      var step := CastVoteStep(s, b.token, b.candidate, b.timestamp);
      var rest := Replay(step.state, ballots[1..]);
      ReplayRecordsEachTokenOnce(step.state, ballots[1..]);
      forall c | c in rest.recorded
        ensures Database.TokenValid(s.voters, c.token) && c.token != b.token
      {
        if Database.TokenValid(s.voters, b.token) {
          Database.MarkUsedValidity(s.voters, b.token, c.token);
        }
      }
      if Database.TokenValid(s.voters, b.token) {
        ReplayKeepsInvalid(step.state, ballots[1..], b.token);
        assert Replay(s, ballots).recorded == [b] + rest.recorded;
        ConsDistinct(b, rest.recorded);
      }
    }
  }

  /** Serving votes never rewrites the chain: the old chain stays a prefix. */
  lemma {:induction false} ReplayKeepsPrefix(s: Backend, ballots: seq<Ballot>)
    requires |s.chain| > 0
    ensures Replay(s, ballots).state.chain[..|s.chain|] == s.chain
    decreases |ballots|
  {
    if ballots != [] {
      var b := ballots[0];
      var step := CastVoteStep(s, b.token, b.candidate, b.timestamp);
      var final := Replay(step.state, ballots[1..]).state.chain;
      ReplayKeepsPrefix(step.state, ballots[1..]);
      assert final[..|s.chain|] == final[..|step.state.chain|][..|s.chain|];
    }
  }

  /** The transaction list each recorded ballot leaves on the chain. */
  function VoteTransactions(ballots: seq<Ballot>): (r: seq<seq<string>>)
    ensures |r| == |ballots|
    decreases |ballots|
  {
    if ballots == [] then [] else [[VoteMessage(ballots[0].token, ballots[0].candidate)]] + VoteTransactions(ballots[1..])
  }

  /** Serving votes only appends vote blocks: the chain's transaction log
      afterwards is the old log followed by one vote message per recorded
      ballot, in the order they were served. */
  lemma {:induction false} ReplayAppendsVotes(s: Backend, ballots: seq<Ballot>)
    requires |s.chain| > 0
    ensures Transactions(Replay(s, ballots).state.chain)
              == Transactions(s.chain) + VoteTransactions(Replay(s, ballots).recorded)
    decreases |ballots|
  {
    if ballots != [] {
      var b := ballots[0];
      var step := CastVoteStep(s, b.token, b.candidate, b.timestamp);
      var rest := Replay(step.state, ballots[1..]);
      ReplayAppendsVotes(step.state, ballots[1..]);
      if Database.TokenValid(s.voters, b.token) {
        var recorded := Replay(s, ballots).recorded;
        assert recorded == [b] + rest.recorded;
        assert recorded[1..] == rest.recorded;
        TransactionsAppend(s.chain, step.state.chain[|s.chain|]);
        assert step.state.chain == s.chain + [step.state.chain[|s.chain|]];
        assert VoteTransactions(recorded) == [[VoteMessage(b.token, b.candidate)]] + VoteTransactions(rest.recorded);
      } else {
        assert Replay(s, ballots).recorded == rest.recorded;
      }
    }
  }

  /** A linked chain stays linked however many votes are served, so no
      response is ever the integrity failure. */
  lemma {:induction false} ReplayKeepsLinked(s: Backend, ballots: seq<Ballot>)
    requires |s.chain| > 0 && Linked(s.chain)
    ensures Linked(Replay(s, ballots).state.chain)
    ensures forall r :: r in Replay(s, ballots).results ==> r.message != IntegrityMessage
    decreases |ballots|
  {
    if ballots != [] {
      var b := ballots[0];
      var step := CastVoteStep(s, b.token, b.candidate, b.timestamp);
      if Database.TokenValid(s.voters, b.token) {
        WithBlockLinked(s.chain, [VoteMessage(b.token, b.candidate)], b.timestamp);
      }
      ReplayKeepsLinked(step.state, ballots[1..]);
    }
  }

  /** From server start-up (`create_genesis_block` on the empty list, then any
      `add_block` calls), no sequence of votes ever reaches the integrity-failure
      branch of `cast_vote`. */
  lemma IntegrityFailureUnreachable(genesisTime: nat, additions: seq<Addition>, voters: map<string, bool>, ballots: seq<Ballot>)
    ensures Linked(Replay(Backend(BuildChain(genesisTime, additions), voters), ballots).state.chain)
    ensures forall r :: r in Replay(Backend(BuildChain(genesisTime, additions), voters), ballots).results ==>
              r.message != IntegrityMessage
  {
    BuiltChainValidates(genesisTime, additions);
    ReplayKeepsLinked(Backend(BuildChain(genesisTime, additions), voters), ballots);
  }
}
