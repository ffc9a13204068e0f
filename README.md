# Blockchain voting demo: the vote ledger and the client mock rules

This project models, in Dafny, the small sequential core of a voting demo:

- **The vote chain** (`main.py`, `Block.py`). It is a list of blocks linked by hashes. Each block stores its transactions, the hash of the previous block, a clock reading, and its own hash. That hash is taken over the joined transactions, the previous hash and the clock reading. `create_genesis_block` seeds the list with a block whose previous hash is 64 zeros. `add_block` appends a block linked to the last one. `validate_blockchain` checks every link. `cast_vote` checks the voter's token, appends one vote block, marks the token used, and then re-validates the chain.
- **The token and candidate store** (`database.py`). With SQLite abstracted away, this is a voters table keyed by its UNIQUE token with a used flag, plus a set of candidate names. `add_candidate` is an insert-or-ignore. `is_token_valid` is a read-only query. `mark_token_used` sets the flag.
- **The client mock** (`frontend/src/api/apiClient.js`). These are pure string rules for registration (a `TOKEN-` token with a random hex suffix), token validation (trim, then prefix check), the fixed candidate list, and the mock vote (a trimmed token ending in `X` counts as used).

Files: `blocks.dfy` (module `Blocks`), `database.dfy` (module `Database`), `vote_chain.dfy` (module `VoteChain`), `api_client.dfy` (module `ApiClient`).

Modelling choices:

- A block never changes after it is built, so it is a datatype. `NewBlock` plays the constructor.
- The `blockchain` list and the database tables are changed in place, so they are classes: `VoteChain.Blockchain` and `Database.VoterDb`. Their methods are specified by pure functions (`WithBlock`, `MarkUsed`, `InsertCandidate`, `CastVoteStep`). The properties are proved about those functions.
- `cast_vote` is a method over the two objects. Its effect equals `CastVoteStep`.
- Whole sessions are stated with `Replay` (votes served one after another), `BuildChain` (genesis, then `add_block` calls) and `ApplyAll` (any sequence of database calls).
- `database.py` defines no duplicate-registration check. `server.py` calls `is_voter_registered` before registering a voter, but `database.py` does not define that function, and it is left out (see "## Left out"). The code has no tally and no atomic consume of a token, so neither is modelled.
- `cast_vote` does not check that the candidate exists, and neither does the model.
- A JavaScript argument is `Option<string>`, where `None` stands for `undefined`/`null`. "Falsy" means missing or empty.

## Model

| member | source | states |
|---|---|---|
| `Blocks.NewBlock` | Block.py:5-16 | The block keeps the given transactions, previous hash and clock reading unchanged. Its hash is the digest of its own inputs (`WellFormed`) and is a 64-character lowercase hex string. |
| `Blocks.Digest` | Block.py:14-16 | The digest of any string is 64 lowercase hexadecimal characters. |
| `Blocks.TimeString` | Block.py:9-12 | The clock reading's string form is a non-empty run of decimal digits. |
| `Blocks.JoinAppend` | Block.py:12 | Joining two transaction lists equals joining each and concatenating: the join keeps the transactions in order. |
| `Blocks.Join` | Block.py:12 | `"".join(transaction)` is exactly as long as all transaction strings together. |
| `Blocks.HashInput` | Block.py:12 | The string hashed for a block is the joined transactions, then the previous hash, then the clock reading's string, which ends it. |
| `Blocks.HashInputLayout` | Block.py:12 | In the hashed string, each transaction sits at the offset given by the lengths of the transactions before it. |
| `Blocks.WellFormedDeterministic` | Block.py:12-16 | Two well-formed blocks with equal transactions, previous hash and clock reading are equal, hash included. |
| `Database.TokenValid` | database.py:43-49 | A token is only valid if a voter row with that token exists. |
| `Database.MarkUsed` | database.py:36-41 | Marking keeps the same set of rows. The marked token is no longer valid. Every other row keeps its flag. |
| `Database.InsertCandidate` | database.py:29-34 | The name is a candidate afterwards. Inserting a name already present changes nothing (UNIQUE with INSERT OR IGNORE). No other name is added or removed. |
| `Database.VoterDb.CreateDb` | database.py:5-27 | `create_db` yields an empty voters table and an empty candidates table. |
| `Database.VoterDb.IsTokenValid` | database.py:43-49 | True iff a row with the token exists and its `token_used` flag is unset. It only reads the state. |
| `Database.VoterDb.AddCandidate` | database.py:29-34 | The candidates become `InsertCandidate(old, name)`. The voters table is unchanged. |
| `Database.VoterDb.MarkTokenUsed` | database.py:36-41 | The voters become `MarkUsed(old, token)`. Candidates are unchanged. The token is invalid afterwards. |
| `Database.MarkUsedIdempotent` | database.py:36-41 | Marking twice equals marking once. Marking an unknown token leaves the table unchanged. |
| `Database.MarkUsedValidity` | database.py:36-49 | After marking `t`, a token is valid iff it is not `t` and was valid before. |
| `Database.UsedStaysUsed` | database.py:29-49 | After any sequence of `add_candidate`, `mark_token_used` and `is_token_valid` calls, a used token stays present, used and invalid. No call resets the flag. |
| `Database.TablesGrow` | database.py:29-49 | No sequence of calls adds or removes voter rows, and none removes a candidate. |
| `Database.TokenValidAfterCalls` | database.py:29-49 | After any sequence of calls, a token is valid iff it was valid before and no call marked it used. Only `mark_token_used(t)` changes what `is_token_valid(t)` answers, and only from valid to invalid. |
| `VoteChain.GenesisBlock` | main.py:12-16 | The genesis block's previous hash is `GENESIS_PREV_HASH` (64 zeros) and its transactions are `["Genesis block"]`. It is well formed. |
| `VoteChain.WithBlock` | main.py:20-23 | `add_block` grows the chain by exactly one and keeps all earlier blocks. The new block records the old last block's hash, holds the given transactions, and is well formed. |
| `VoteChain.AppendLinked` | main.py:26-31 | Appending a block keeps the chain valid iff the chain was valid and the block records the old last block's hash (or the chain was empty). |
| `VoteChain.WithBlockLinked` | main.py:20-31 | After `add_block` the chain validates iff it validated before. |
| `VoteChain.WithBlockTransactions` | main.py:20-23 | `add_block` appends its transaction list to the chain's transaction log and leaves the rest of the log unchanged. |
| `VoteChain.Blockchain.constructor` | main.py:9 | The chain starts as the empty list. |
| `VoteChain.Blockchain.CreateGenesisBlock` | main.py:15-17 | The genesis block is appended to the current list. On an empty list the chain then has one block and validates. In general the chain validates iff it validated before and either was empty or ended in a block whose hash is 64 zeros. |
| `VoteChain.Blockchain.AddBlock` | main.py:20-23 | On a non-empty chain, the blocks become `WithBlock(old, transactions, time)`, and validity is preserved both ways. |
| `VoteChain.ValidateBlockchain` | main.py:26-31 | Returns true iff `chain[i].previous_hash == chain[i-1].block_hash` for every `1 <= i < len(chain)`. So empty and one-block chains validate. |
| `VoteChain.BuildChain` | main.py:15-23 | The chain built by genesis and n `add_block` calls has n+1 blocks. |
| `VoteChain.BuiltChainValidates` | main.py:15-31 | Every chain built only by `create_genesis_block` on the empty list and then `add_block` calls validates. It starts with the genesis block, and its transaction log is the genesis transaction followed by each addition's transactions in order. |
| `VoteChain.VoteMessage` | main.py:40 | The vote block's message is "User token ", the token, " voted for ", then the candidate, in that order and nothing else. |
| `VoteChain.CastVoteStep` | main.py:34-50 | If the token is invalid, the result is failure with "Invalid or already used token." and nothing changes. Otherwise exactly one block holding `["User token {token} voted for {candidate}"]` is appended, and the token is marked used. The result is success with "Vote successfully added to the blockchain!" if the chain validated before. If not, it is failure with "Blockchain integrity compromised. Vote not recorded.", and the block stays appended. Afterwards the token is invalid. |
| `VoteChain.CastVote` | main.py:34-50 | The method over the chain and database objects has exactly the effect and result of `CastVoteStep`, and the candidates table is unchanged. |
| `VoteChain.SecondVoteFails` | main.py:36-44 | After a successful vote, a second vote with the same token fails for any candidate and any time, and changes nothing. |
| `VoteChain.Replay` | main.py:34-50 | Serving n votes gives n responses. The chain grows by exactly the number of votes recorded. |
| `VoteChain.ReplayKeepsInvalid` | main.py:36-44 | A token that is invalid stays invalid through any sequence of votes. |
| `VoteChain.ReplayRecordsEachTokenOnce` | main.py:36-44 | In any sequence of votes, the votes written to the chain carry pairwise distinct tokens: one token, one vote block. Each of those tokens was valid at the start and is consumed at the end. |
| `VoteChain.ReplayKeepsPrefix` | main.py:40-41 | Serving votes never rewrites the chain: the old chain stays a prefix. |
| `VoteChain.ReplayAppendsVotes` | main.py:39-44 | After serving votes, the transaction log is the old log followed by one vote message per recorded vote, in order. |
| `VoteChain.ReplayKeepsLinked` | main.py:46-48 | A valid chain stays valid through any sequence of votes, and no response is the integrity failure. |
| `VoteChain.IntegrityFailureUnreachable` | main.py:15-48 | From start-up (genesis on the empty list, any `add_block` calls), no sequence of votes ever reaches the "Blockchain integrity compromised" branch, and the chain always validates. |
| `ApiClient.WhitespaceExcludesTokenChars` | frontend/src/api/apiClient.js:33 | The white space `trim` removes (the JavaScript white-space and line-terminator set, `IsJsWhitespace`) contains no ASCII letter, digit or hyphen. |
| `ApiClient.TrimStart` | frontend/src/api/apiClient.js:33 | Dropping leading white space gives a suffix of the input that does not start with white space. Everything dropped is white space. |
| `ApiClient.TrimEnd` | frontend/src/api/apiClient.js:33 | Dropping trailing white space gives a prefix of the input that does not end with white space. Everything dropped is white space. |
| `ApiClient.Trim` | frontend/src/api/apiClient.js:33 | The trimmed string is no longer than the input and has no white space at either end. |
| `ApiClient.TrimKeepsInfix` | frontend/src/api/apiClient.js:33 | The trimmed string is one contiguous piece of the input, and every character dropped before or after it is white space. |
| `ApiClient.TrimUnchanged` | frontend/src/api/apiClient.js:33 | A string with no white space at either end is its own trim. |
| `ApiClient.TrimIdempotent` | frontend/src/api/apiClient.js:33 | Trimming twice equals trimming once. |
| `ApiClient.TrimEmpty` | frontend/src/api/apiClient.js:33 | A string trims to "" iff it consists only of white space. |
| `ApiClient.StartsWith` | frontend/src/api/apiClient.js:39 | `startsWith(prefix)` holds iff the prefix fits and matches the first characters of the string one by one. |
| `ApiClient.EndsWith` | frontend/src/api/apiClient.js:59 | `endsWith(suffix)` holds iff the suffix fits and matches the last characters of the string one by one. |
| `ApiClient.Slice` | frontend/src/api/apiClient.js:25 | `slice(start, end)` clamps both ends to the string's length. It returns exactly the characters between the clamped ends, and "" when `end <= start`. |
| `ApiClient.ToUpperAscii` | frontend/src/api/apiClient.js:25 | Upper-casing keeps the length, maps each `a`-`z` to its capital, and keeps every other character. |
| `ApiClient.RandomSuffix` | frontend/src/api/apiClient.js:25 | `Math.random().toString(16).slice(2, 8).toUpperCase()` is the rendering's characters at indices 2 to 7, as many as exist, upper-cased. They are uppercase hex digits. |
| `ApiClient.MockToken` | frontend/src/api/apiClient.js:25-26 | The token is `TOKEN-` followed by the random rendering's characters at indices 2 to 7 (as many as it has), upper-cased. It has the mock shape: at most six uppercase hex digits after the prefix. |
| `ApiClient.RegisterUserAndGenerateToken` | frontend/src/api/apiClient.js:14-30 | Fails with "All fields are required." iff one of first name, last name, date of birth or address is missing or empty. Otherwise the token is `MockToken` of the random rendering, which has the mock shape. |
| `ApiClient.ValidateToken` | frontend/src/api/apiClient.js:32-45 | Valid iff the token is present and its trim starts with `TOKEN-`. The result is "Token is required." iff the token is missing or trims to "". Every other refusal is "Invalid or already used token." |
| `ApiClient.FetchCandidates` | frontend/src/api/apiClient.js:5-12 | The mock candidate list has six entries and no duplicates. |
| `ApiClient.CastVote` | frontend/src/api/apiClient.js:52-68 | Fails iff the token or candidate is missing or empty, or the trimmed token ends in `X`. The message is "Token and candidate are required." for the first case, "Invalid or already used token." for the second, and the mock success message otherwise. |
| `ApiClient.MockTokenTrims` | frontend/src/api/apiClient.js:25-26 | A token of the mock shape is its own trim and never ends in `X`. |
| `ApiClient.RegisteredTokenValidates` | frontend/src/api/apiClient.js:24-44 | Round trip: every token the mock registration returns passes `validateToken`. |
| `ApiClient.MockTokenAccepted` | frontend/src/api/apiClient.js:52-68 | `castVote` accepts every token of the mock shape with any non-empty candidate. |
| `ApiClient.RegisteredTokenAccepted` | frontend/src/api/apiClient.js:24-68 | Round trip: every token the mock registration returns is accepted by `castVote` with any non-empty candidate. |
| `ApiClient.BlankTokenDisagreement` | frontend/src/api/apiClient.js:32-61 | The two mock checks disagree on a token of white space only. `validateToken` answers "Token is required.", but `castVote` accepts it, because its emptiness guard tests the untrimmed string. |

## Left out

- Blocks.Digest: states only that the digest is 64 lowercase hex characters and a function of the hashed string. SHA-256 itself is not modelled. The body is a simple stand-in fold, and no property relies on which function it is.
- Blocks.TimeString: `time()` returns a float, and `str()` of it prints a decimal fraction. The model takes the clock reading as a natural number and prints it in decimal. The clock itself is a parameter of every operation that reads it.
- ApiClient.ToUpperAscii: `toUpperCase` is modelled for ASCII letters only. Its only input here is the hex digits of the random rendering.
- `Math.random()` is not modelled. What `Math.random().toString(16)` prints is an input (`IsRandomRendering`: "0", or "0." followed by lowercase hex digits).
- The `setTimeout` delay and the `async`/`await` wrappers in the client mock do not affect any result.
- SQLite connection handling (`connect`, `commit`, `close`) is not modelled. The `votes.db` file and `CREATE TABLE IF NOT EXISTS` on an existing file are not modelled either: the constructor `CreateDb` models the first run on a new file.
- The voters table's id, name, date-of-birth and address columns are not modelled. No function of `database.py` reads them.
- No operation in `database.py` inserts voters. `add_voter`, `is_voter_registered`, `generate_unique_token` and `get_all_candidates` are called from `server.py` but are not part of this model. So the `token_used DEFAULT 0` of a new row is never exercised. The lemmas quantify over arbitrary voters tables instead.
- At most one voter row per token holds by construction: the voters table is a map keyed by token.
- A token of `None` passed from the HTTP layer to `cast_vote` is not modelled. In the model tokens are strings.
- The HTTP endpoints in `server.py` (routing, CORS, JSON parsing, status codes, exception-to-500 wrapping) are not part of this model.
- `add_block` and `mark_token_used` are not atomic under concurrent requests. Concurrency is out of scope, and requests are modelled as served one at a time.
- The message string of a vote block can be ambiguous between two (token, candidate) pairs. One-token-one-vote is therefore stated over the votes the ledger recorded (`ReplayRecordsEachTokenOnce`), not by parsing messages back out of the chain.
- `fetchResults` mock data and the React pages (`App.jsx`, `WelcomePage.jsx`, `RegisterPage.jsx`, `VotePage.jsx`, `ResultsPage.jsx`) are UI state and rendering.
