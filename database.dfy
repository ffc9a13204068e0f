/** The voter and candidate tables (database.py), with the SQLite connection
    abstracted away. The voters table is keyed by its UNIQUE `token` column and
    keeps, per token, whether `token_used` is set; the candidates table is the
    set of its UNIQUE `candidate_name` values. */
module Database {

  /** `SELECT token FROM voters WHERE token=? AND token_used=0` finds a row. */
  function TokenValid(voters: map<string, bool>, token: string): (r: bool)
    ensures r ==> token in voters
  {
    token in voters && !voters[token]
  }

  /** `UPDATE voters SET token_used = 1 WHERE token = ?`. */
  function MarkUsed(voters: map<string, bool>, token: string): (r: map<string, bool>)
    ensures r.Keys == voters.Keys
    ensures !TokenValid(r, token)
    ensures forall t :: t in voters && t != token ==> r[t] == voters[t]
  {
    if token in voters then voters[token := true] else voters
  }

  /** `INSERT OR IGNORE INTO candidates (candidate_name) VALUES (?)`. */
  function InsertCandidate(candidates: set<string>, name: string): (r: set<string>)
    ensures name in r
    ensures name in candidates ==> r == candidates
    ensures r - {name} == candidates - {name}
  {
    candidates + {name}
  }

  class VoterDb {
    var voters: map<string, bool>
    var candidates: set<string>

    /** `create_db`: both tables exist and are empty. */
    constructor CreateDb()
      ensures voters == map[] && candidates == {}
    {
      voters := map[];
      candidates := {};
    }

    /** `is_token_valid`: a read-only query. */
    function IsTokenValid(token: string): (r: bool)
      reads this
      ensures r <==> token in voters && !voters[token]
    {
      TokenValid(voters, token)
    }

    /** `add_candidate`. */
    method AddCandidate(name: string)
      modifies this
      ensures candidates == InsertCandidate(old(candidates), name)
      ensures voters == old(voters)
    {
      candidates := InsertCandidate(candidates, name);
    }

    /** `mark_token_used`. */
    method MarkTokenUsed(token: string)
      modifies this
      ensures voters == MarkUsed(old(voters), token)
      ensures candidates == old(candidates)
      ensures !IsTokenValid(token)
    {
      voters := MarkUsed(voters, token);
    }
  }

  /** Marking a token used twice is the same as marking it once; an unknown
      token is left alone. */
  lemma MarkUsedIdempotent(voters: map<string, bool>, token: string)
    ensures MarkUsed(MarkUsed(voters, token), token) == MarkUsed(voters, token)
    ensures token !in voters ==> MarkUsed(voters, token) == voters
  {
  }

  /** Marking a token used touches only that token's validity. */
  lemma MarkUsedValidity(voters: map<string, bool>, token: string, other: string)
    ensures TokenValid(MarkUsed(voters, token), other) <==> other != token && TokenValid(voters, other)
  {
  }

  /** The state changes a sequence of calls into database.py can make. */
  datatype DbCall = AddCandidateCall(name: string) | MarkTokenUsedCall(token: string) | IsTokenValidCall(token: string)

  datatype Tables = Tables(voters: map<string, bool>, candidates: set<string>)

  function Apply(db: Tables, call: DbCall): Tables {
    match call
    case AddCandidateCall(name) => db.(candidates := InsertCandidate(db.candidates, name))
    case MarkTokenUsedCall(token) => db.(voters := MarkUsed(db.voters, token))
    case IsTokenValidCall(_) => db
  }

  function ApplyAll(db: Tables, calls: seq<DbCall>): Tables
    decreases |calls|
  {
    if calls == [] then db else ApplyAll(Apply(db, calls[0]), calls[1..])
  }

  /** No call resets `token_used`: once a token is used it stays used, no
      voter row disappears, and no candidate is removed, whatever calls follow. */
  lemma {:induction false} UsedStaysUsed(db: Tables, calls: seq<DbCall>, token: string)
    requires token in db.voters && db.voters[token]
    ensures var db' := ApplyAll(db, calls);
            token in db'.voters && db'.voters[token] && !TokenValid(db'.voters, token)
    decreases |calls|
  {
    if calls != [] {
      UsedStaysUsed(Apply(db, calls[0]), calls[1..], token);
    }
  }

  /** Rows and candidates are only ever added, never removed. */
  lemma {:induction false} TablesGrow(db: Tables, calls: seq<DbCall>)
    ensures var db' := ApplyAll(db, calls);
            db.voters.Keys == db'.voters.Keys && db.candidates <= db'.candidates
    decreases |calls|
  {
    if calls != [] {
      TablesGrow(Apply(db, calls[0]), calls[1..]);
    }
  }

  /** Only `mark_token_used(t)` changes what `is_token_valid(t)` answers, and
      only from valid to invalid: after any calls, `t` is valid iff it was
      valid before and no call marked it. */
  lemma {:induction false} TokenValidAfterCalls(db: Tables, calls: seq<DbCall>, t: string)
    ensures TokenValid(ApplyAll(db, calls).voters, t) <==> TokenValid(db.voters, t) && MarkTokenUsedCall(t) !in calls
    decreases |calls|
  {
    if calls != [] {
      assert calls == [calls[0]] + calls[1..];
      TokenValidAfterCalls(Apply(db, calls[0]), calls[1..], t);
      match calls[0]
      case MarkTokenUsedCall(token) => MarkUsedValidity(db.voters, token, t);
      case _ =>
    }
  }
}
