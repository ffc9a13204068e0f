/** The client-side mock of the voting API (frontend/src/api/apiClient.js).
    Every function is a guard on strings that returns a result object; the
    `async` wrappers and the artificial delay play no part in the results.
    A JavaScript argument is modelled as `Option<string>`: `None` stands for
    `undefined` or `null`. */
module ApiClient {

  datatype Option<T> = None | Some(value: T)

  const AllFieldsRequired: string := "All fields are required."
  const TokenRequired: string := "Token is required."
  const InvalidOrUsed: string := "Invalid or already used token."
  const TokenAndCandidateRequired: string := "Token and candidate are required."
  const MockVoteSuccess: string := "Vote successfully added to the blockchain! (mock)"
  const TokenPrefix: string := "TOKEN-"

  /** JavaScript truthiness of a string argument: present and not empty. */
  predicate Truthy(x: Option<string>) {
    x.Some? && x.value != ""
  }

  /** The characters `String.prototype.trim` removes: white space and line
      terminators. */
  predicate IsJsWhitespace(c: char) {
    c == ' ' || c == '\t' || c == '\n' || c == '\r' || c == '\U{000B}' || c == '\U{000C}'
    || c == '\U{00A0}' || c == '\U{1680}' || ('\U{2000}' <= c <= '\U{200A}')
    || c == '\U{2028}' || c == '\U{2029}' || c == '\U{202F}' || c == '\U{205F}'
    || c == '\U{3000}' || c == '\U{FEFF}'
  }

  /** No ASCII letter, digit or hyphen, the characters of a mock token, is
      white space that `trim` would remove. */
  lemma WhitespaceExcludesTokenChars(c: char)
    requires '0' <= c <= '9' || 'A' <= c <= 'Z' || 'a' <= c <= 'z' || c == '-'
    ensures !IsJsWhitespace(c)
  {
  }

  /** Drops the leading white space: the result is a suffix of `s`, everything
      dropped is white space, and the result does not start with white space. */
  function TrimStart(s: string): (r: string)
    ensures |r| <= |s| && r == s[|s| - |r|..]
    ensures forall i :: 0 <= i < |s| - |r| ==> IsJsWhitespace(s[i])
    ensures r == [] || !IsJsWhitespace(r[0])
    decreases |s|
  {
    if s != [] && IsJsWhitespace(s[0]) then TrimStart(s[1..]) else s
  }

  /** Drops the trailing white space, symmetrically. */
  function TrimEnd(s: string): (r: string)
    ensures |r| <= |s| && r == s[..|r|]
    ensures forall i :: |r| <= i < |s| ==> IsJsWhitespace(s[i])
    ensures r == [] || !IsJsWhitespace(r[|r| - 1])
    decreases |s|
  {
    if s != [] && IsJsWhitespace(s[|s| - 1]) then TrimEnd(s[..|s| - 1]) else s
  }

  /** `s.trim()`: white space dropped at both ends. */
  function Trim(s: string): (r: string)
    ensures |r| <= |s|
    ensures r == [] || (!IsJsWhitespace(r[0]) && !IsJsWhitespace(r[|r| - 1]))
  {
    TrimEnd(TrimStart(s))
  }

  /** The number of white-space characters `trim` drops at the front. */
  function LeadingWhitespace(s: string): (k: nat)
    ensures k <= |s|
  {
    |s| - |TrimStart(s)|
  }

  /** What `Trim` keeps is one contiguous piece of `s`, and everything it
      drops, before or after that piece, is white space. */
  lemma {:induction false} TrimKeepsInfix(s: string)
    ensures LeadingWhitespace(s) + |Trim(s)| <= |s|
    ensures Trim(s) == s[LeadingWhitespace(s)..LeadingWhitespace(s) + |Trim(s)|]
    ensures forall i :: 0 <= i < LeadingWhitespace(s) ==> IsJsWhitespace(s[i])
    ensures forall i :: LeadingWhitespace(s) + |Trim(s)| <= i < |s| ==> IsJsWhitespace(s[i])
  {
    SliceOfSlice(s, TrimStart(s), Trim(s));
    TrailingOfSuffix(s, TrimStart(s), Trim(s));
  }

  /** A prefix `r` of a suffix `t` of `s` is a slice of `s`. */
  lemma {:induction false} SliceOfSlice(s: string, t: string, r: string)
    requires |t| <= |s| && t == s[|s| - |t|..]
    requires |r| <= |t| && r == t[..|r|]
    ensures r == s[|s| - |t|..|s| - |t| + |r|]
  {
  }

  /** What a prefix `r` leaves of a suffix `t` of `s` is also what it leaves
      at the end of `s`. */
  lemma {:induction false} TrailingOfSuffix(s: string, t: string, r: string)
    requires |t| <= |s| && t == s[|s| - |t|..]
    requires |r| <= |t|
    requires forall i :: |r| <= i < |t| ==> IsJsWhitespace(t[i])
    ensures forall i :: |s| - |t| + |r| <= i < |s| ==> IsJsWhitespace(s[i])
  {
    var k := |s| - |t|;
    forall i | k + |r| <= i < |s| ensures IsJsWhitespace(s[i]) {
      assert s[i] == t[i - k];
    }
  }

  /** A string that has no white space at either end is its own trim. */
  lemma TrimUnchanged(s: string)
    requires s == [] || (!IsJsWhitespace(s[0]) && !IsJsWhitespace(s[|s| - 1]))
    ensures Trim(s) == s
  {
    assert TrimStart(s) == s;
    assert TrimEnd(s) == s;
  }

  /** Trimming twice is trimming once. */
  lemma TrimIdempotent(s: string)
    ensures Trim(Trim(s)) == Trim(s)
  {
    TrimUnchanged(Trim(s));
  }

  /** A string trims to nothing exactly when it is all white space. */
  lemma {:induction false} TrimEmpty(s: string)
    ensures Trim(s) == [] <==> forall i :: 0 <= i < |s| ==> IsJsWhitespace(s[i])
  {
    var t := TrimStart(s);
    if t != [] {
      assert !IsJsWhitespace(s[|s| - |t|]);
      assert TrimEnd(t) != [] by {
        assert t[0] == s[|s| - |t|];
      }
    }
  }

  /** `s.startsWith(prefix)`: `prefix` matches `s` character by character
      from the front. */
  function StartsWith(s: string, prefix: string): (r: bool)
    ensures r <==> |prefix| <= |s| && forall i :: 0 <= i < |prefix| ==> s[i] == prefix[i]
  {
    |prefix| <= |s| && s[..|prefix|] == prefix
  }

  /** `s.endsWith(suffix)`: `suffix` matches the last `|suffix|` characters
      of `s`, character by character. */
  function EndsWith(s: string, suffix: string): (r: bool)
    ensures r <==> |suffix| <= |s| && forall i :: 0 <= i < |suffix| ==> s[|s| - |suffix| + i] == suffix[i]
  {
    |suffix| <= |s| && s[|s| - |suffix|..] == suffix
  }

  /** `s.slice(start, end)` for non-negative arguments: both ends are clamped
      to the string's length, and an end before the start gives "". */
  function Slice(s: string, start: nat, end: nat): (r: string)
    ensures |r| <= |s| && |r| <= if end >= start then end - start else 0
    ensures start <= |s| ==> start + |r| <= |s| && r == s[start..start + |r|]
    ensures start <= end ==> |r| == (if end < |s| then end else |s|) - (if start < |s| then start else |s|)
    ensures end <= start ==> r == []
  {
    var from := if start < |s| then start else |s|;
    var to := if end < |s| then end else |s|;
    if to <= from then [] else s[from..to]
  }

  /** The capital of an ASCII lowercase letter; every other character is kept. */
  function UpperChar(c: char): char {
    if 'a' <= c <= 'z' then (c as int - 32) as char else c
  }

  /** `toUpperCase` on the ASCII letters; every other character is kept. */
  function ToUpperAscii(s: string): (r: string)
    ensures |r| == |s|
    ensures forall i :: 0 <= i < |s| ==> ('a' <= s[i] <= 'z' ==> 'A' <= r[i] <= 'Z' && r[i] as int - s[i] as int == -32)
    ensures forall i :: 0 <= i < |s| ==> (!('a' <= s[i] <= 'z') ==> r[i] == s[i])
  {
    seq(|s|, i requires 0 <= i < |s| => UpperChar(s[i]))
  }

  /** How many characters of the random rendering end up in a mock token:
      those at indices 2 to 7, as far as the rendering reaches. */
  function RandomDigitCount(randomRendering: string): nat {
    if |randomRendering| <= 2 then 0 else if |randomRendering| >= 8 then 6 else |randomRendering| - 2
  }

  predicate IsLowerHexDigit(c: char) {
    '0' <= c <= '9' || 'a' <= c <= 'f'
  }

  predicate IsUpperHexDigit(c: char) {
    '0' <= c <= '9' || 'A' <= c <= 'F'
  }

  /** What `Math.random().toString(16)` prints for a number in [0, 1): "0",
      or "0." followed by lowercase hexadecimal digits. */
  predicate IsRandomRendering(r: string) {
    r == "0" || (|r| >= 2 && r[..2] == "0." && forall i :: 2 <= i < |r| ==> IsLowerHexDigit(r[i]))
  }

  /** The shape of a mock token: the prefix, then at most six uppercase
      hexadecimal digits. */
  predicate IsMockToken(t: string) {
    StartsWith(t, TokenPrefix) && |t| <= |TokenPrefix| + 6
    && forall i :: |TokenPrefix| <= i < |t| ==> IsUpperHexDigit(t[i])
  }

  /** The part of a mock token taken from the random rendering: its
      characters at indices 2 to 7, upper-cased, so uppercase hex digits. */
  lemma RandomSuffix(randomRendering: string)
    requires IsRandomRendering(randomRendering)
    ensures |ToUpperAscii(Slice(randomRendering, 2, 8))| == RandomDigitCount(randomRendering)
    ensures forall i :: 0 <= i < |ToUpperAscii(Slice(randomRendering, 2, 8))| ==>
              ToUpperAscii(Slice(randomRendering, 2, 8))[i] == UpperChar(randomRendering[i + 2])
              && IsUpperHexDigit(ToUpperAscii(Slice(randomRendering, 2, 8))[i])
  {
    var digits := Slice(randomRendering, 2, 8);
    var random := ToUpperAscii(digits);
    forall i | 0 <= i < |random|
      ensures random[i] == UpperChar(randomRendering[i + 2]) && IsUpperHexDigit(random[i])
    {
      assert randomRendering != "0";
      assert digits[i] == randomRendering[2 + i];
    }
  }

  datatype Registration = Registered(token: string) | RegistrationFailed(message: string)

  /** The token `registerUserAndGenerateToken` builds from the output of
      `Math.random().toString(16)`: the prefix, then the rendering's characters
      at indices 2 to 7, upper-cased. */
  function MockToken(randomRendering: string): (t: string)
    requires IsRandomRendering(randomRendering)
    ensures IsMockToken(t)
    ensures |t| == |TokenPrefix| + RandomDigitCount(randomRendering)
    ensures t[..|TokenPrefix|] == TokenPrefix
    ensures forall i :: |TokenPrefix| <= i < |t| ==> t[i] == UpperChar(randomRendering[i - |TokenPrefix| + 2])
  {
    var suffix := ToUpperAscii(Slice(randomRendering, 2, 8));
    RandomSuffix(randomRendering);
    var t := TokenPrefix + suffix;
    assert t[..|TokenPrefix|] == TokenPrefix;
    assert forall i :: |TokenPrefix| <= i < |t| ==> t[i] == suffix[i - |TokenPrefix|];
    t
  }

  /** `registerUserAndGenerateToken`, with the output of
      `Math.random().toString(16)` given as `randomRendering`. */
  function RegisterUserAndGenerateToken(firstName: Option<string>, lastName: Option<string>, dob: Option<string>,
                                        address: Option<string>, randomRendering: string): (r: Registration)
    requires IsRandomRendering(randomRendering)
    ensures r.RegistrationFailed? <==> !(Truthy(firstName) && Truthy(lastName) && Truthy(dob) && Truthy(address))
    ensures r.RegistrationFailed? ==> r.message == AllFieldsRequired
    ensures r.Registered? ==> r.token == MockToken(randomRendering) && IsMockToken(r.token)
  {
    if !Truthy(firstName) || !Truthy(lastName) || !Truthy(dob) || !Truthy(address) then
      RegistrationFailed(AllFieldsRequired)
    else
      Registered(MockToken(randomRendering))
  }

  datatype Validation = Valid | Invalid(message: string)

  /** `validateToken`. */
  function ValidateToken(token: Option<string>): (r: Validation)
    ensures r.Valid? <==> token.Some? && StartsWith(Trim(token.value), TokenPrefix)
    ensures r.Invalid? && r.message == TokenRequired <==> token.None? || Trim(token.value) == []
    ensures r.Invalid? ==> r.message in {TokenRequired, InvalidOrUsed}
  {
    if !Truthy(token) || Trim(token.value) == [] then Invalid(TokenRequired)
    else if !StartsWith(Trim(token.value), TokenPrefix) then Invalid(InvalidOrUsed)
    else Valid
  }

  /** `fetchCandidates`: the fixed mock ballot. */
  function FetchCandidates(): (r: seq<string>)
    ensures |r| == 6
    ensures forall i, j :: 0 <= i < j < |r| ==> r[i] != r[j]
  {
    var r := ["Kanye West", "Elon Musk", "Zohran Mamdani", "Bernie Sanders", "Greta Thunberg",
              "Dwayne \"The Rock\" Johnson"];
    assert r[0][0] == 'K' && r[1][0] == 'E' && r[2][0] == 'Z' && r[3][0] == 'B' && r[4][0] == 'G' && r[5][0] == 'D';
    r
  }

  datatype VoteResponse = VoteResponse(success: bool, message: string)

  /** `castVote`: the mock treats a token whose trim ends in "X" as used and
      accepts everything else. */
  function CastVote(token: Option<string>, selectedCandidate: Option<string>): (r: VoteResponse)
    ensures !r.success <==>
              !Truthy(token) || !Truthy(selectedCandidate) || EndsWith(Trim(token.value), "X")
    ensures r.message == if !Truthy(token) || !Truthy(selectedCandidate) then TokenAndCandidateRequired
                         else if r.success then MockVoteSuccess else InvalidOrUsed
  {
    if !Truthy(token) || !Truthy(selectedCandidate) then VoteResponse(false, TokenAndCandidateRequired)
    else if EndsWith(Trim(token.value), "X") then VoteResponse(false, InvalidOrUsed)
    else VoteResponse(true, MockVoteSuccess)
  }

  /** A mock token has no white space at either end, so trimming keeps it,
      and it ends in "-" or an uppercase hex digit, never in "X". */
  lemma MockTokenTrims(t: string)
    requires IsMockToken(t)
    ensures Trim(t) == t
    ensures t[|t| - 1] != 'X'
  {
    assert t[0] == TokenPrefix[0];
    if |t| == |TokenPrefix| {
      assert t[|t| - 1] == TokenPrefix[5];
    } else {
      assert IsUpperHexDigit(t[|t| - 1]);
    }
    TrimUnchanged(t);
  }

  /** Round trip: every token the mock registration hands out passes
      `validateToken`. */
  lemma RegisteredTokenValidates(firstName: Option<string>, lastName: Option<string>, dob: Option<string>,
                                 address: Option<string>, randomRendering: string)
    requires IsRandomRendering(randomRendering)
    requires RegisterUserAndGenerateToken(firstName, lastName, dob, address, randomRendering).Registered?
    ensures ValidateToken(Some(RegisterUserAndGenerateToken(firstName, lastName, dob, address, randomRendering).token)) == Valid
  {
    MockTokenTrims(RegisterUserAndGenerateToken(firstName, lastName, dob, address, randomRendering).token);
  }

  /** A token of the mock shape is accepted by `castVote` for any named
      candidate: its last character is "-" or an uppercase hex digit, never "X". */
  lemma MockTokenAccepted(t: string, candidate: string)
    requires IsMockToken(t)
    requires candidate != ""
    ensures CastVote(Some(t), Some(candidate)) == VoteResponse(true, MockVoteSuccess)
  {
    MockTokenTrims(t);
    assert t[|t| - 1..] == [t[|t| - 1]];
  }

  /** Round trip: every token the mock registration hands out is accepted by
      `castVote` for any named candidate. */
  lemma RegisteredTokenAccepted(firstName: Option<string>, lastName: Option<string>, dob: Option<string>,
                                address: Option<string>, randomRendering: string, candidate: string)
    requires IsRandomRendering(randomRendering)
    requires RegisterUserAndGenerateToken(firstName, lastName, dob, address, randomRendering).Registered?
    requires candidate != ""
    ensures CastVote(Some(RegisterUserAndGenerateToken(firstName, lastName, dob, address, randomRendering).token),
                     Some(candidate)) == VoteResponse(true, MockVoteSuccess)
  {
    MockTokenAccepted(RegisterUserAndGenerateToken(firstName, lastName, dob, address, randomRendering).token, candidate);
  }

  /** The two mock checks disagree on a token of white space only:
      `validateToken` asks for a token, while `castVote` lets it through,
      because its first guard tests the untrimmed string. */
  lemma BlankTokenDisagreement(token: string, candidate: string)
    requires token != [] && forall i :: 0 <= i < |token| ==> IsJsWhitespace(token[i])
    requires candidate != ""
    ensures ValidateToken(Some(token)) == Invalid(TokenRequired)
    ensures CastVote(Some(token), Some(candidate)).success
  {
    TrimEmpty(token);
  }
}
