/** Values shared by every controller: optional request fields, the JSON
    response a handler sends, JavaScript truthiness, String.prototype.trim,
    and the "newest first" ordering of a collection. */
module Common {

  datatype Option<+T> = None | Some(value: T)

  /** An error a handler catches and reports through `error.message`. */
  datatype Fault =
    | TypeError(reading: string)      // a property read on null/undefined
    | DuplicateKey                    // the unique index on users.email
    | ValidationError                 // a required schema field is empty
    | TokenRejected(reason: string)   // what JWT.verify threw

  /** What a response body says: a fixed text, the message of a caught
      error, or no `message` field at all. */
  datatype Message = Says(text: string) | Raised(fault: Fault) | Silent

  /** The status code and the `success`/`message` fields of a JSON response. */
  datatype Response = Response(status: nat, success: Option<bool>, message: Message)

  function Failure(status: nat, text: string): Response {
    Response(status, Some(false), Says(text))
  }

  function Success(status: nat, text: string): Response {
    Response(status, Some(true), Says(text))
  }

  function Crash(fault: Fault): Response {
    Response(500, Some(false), Raised(fault))
  }

  /** JavaScript truthiness of an optional string field of a request:
      `undefined` and `""` are falsy. */
  predicate Truthy(s: Option<string>) {
    s.Some? && s.value != ""
  }

  /** `incoming || stored` on strings. */
  function OrElse(incoming: Option<string>, stored: string): (r: string)
    ensures Truthy(incoming) ==> r == incoming.value
    ensures !Truthy(incoming) ==> r == stored
  {
    if Truthy(incoming) then incoming.value else stored
  }

  /** The white-space characters String.prototype.trim removes (the ASCII and
      Latin-1 ones, the byte-order mark and the line and paragraph
      separators). */
  predicate IsSpace(c: char) {
    c == ' ' || c == '\t' || c == '\n' || c == '\r' || c == '\U{000B}' || c == '\U{000C}'
    || c == '\U{00A0}' || c == '\U{FEFF}' || c == '\U{2028}' || c == '\U{2029}'
  }

  /** `s.length` in JavaScript: the number of UTF-16 code units, so a
      character above U+FFFF (a surrogate pair) counts twice. */
  function Utf16Length(s: string): (n: nat)
    ensures |s| <= n <= 2 * |s|
    ensures (forall i :: 0 <= i < |s| ==> s[i] <= '\U{FFFF}') ==> n == |s|
  {
    if s == [] then 0
    else Utf16Length(s[..|s| - 1]) + (if s[|s| - 1] <= '\U{FFFF}' then 1 else 2)
  }

  function TrimStart(s: string): (r: string)
    ensures |r| <= |s| && r == s[|s| - |r|..]
    ensures r == [] || !IsSpace(r[0])
    ensures forall i :: 0 <= i < |s| - |r| ==> IsSpace(s[i])
  {
    if s != [] && IsSpace(s[0]) then TrimStart(s[1..]) else s
  }

  function TrimEnd(s: string): (r: string)
    ensures |r| <= |s| && r == s[..|r|]
    ensures r == [] || !IsSpace(r[|r| - 1])
    ensures forall i :: |r| <= i < |s| ==> IsSpace(s[i])
  {
    if s != [] && IsSpace(s[|s| - 1]) then TrimEnd(s[..|s| - 1]) else s
  }

  /** How many white-space characters lead `s`. */
  function LeadingSpaces(s: string): nat {
    |s| - |TrimStart(s)|
  }

  /** String.prototype.trim: `s` with the white space at both ends cut off
      and nothing else changed. */
  function Trim(s: string): (r: string)
    ensures Trimmed(r)
    ensures LeadingSpaces(s) + |r| <= |s|
    ensures r == s[LeadingSpaces(s)..LeadingSpaces(s) + |r|]
    ensures forall i :: 0 <= i < LeadingSpaces(s) ==> IsSpace(s[i])
    ensures forall i :: LeadingSpaces(s) + |r| <= i < |s| ==> IsSpace(s[i])
  {
    var t := TrimStart(s);
    var r := TrimEnd(t);
    assert r == s[|s| - |t|..][..|r|];
    assert forall i :: |r| <= i < |t| ==> t[i] == s[|s| - |t| + i];
    r
  }

  predicate Trimmed(s: string) {
    s == [] || (!IsSpace(s[0]) && !IsSpace(s[|s| - 1]))
  }

  /** A string with no white space at either end is its own trim. */
  lemma {:induction false} TrimOfTrimmed(s: string)
    requires Trimmed(s)
    ensures Trim(s) == s
  {
    assert TrimStart(s) == s;
    assert TrimEnd(s) == s;
  }

  /** Trimming twice is trimming once. */
  lemma TrimIdempotent(s: string)
    ensures Trimmed(Trim(s)) && Trim(Trim(s)) == Trim(s)
  {
    TrimOfTrimmed(Trim(s));
  }

  /** A collection read back with `.sort({ createdAt: -1 })`: the most
      recently inserted element first. */
  function NewestFirst<T>(s: seq<T>): (r: seq<T>)
    ensures |r| == |s|
    ensures forall i :: 0 <= i < |s| ==> r[i] == s[|s| - 1 - i]
    ensures multiset(r) == multiset(s)
  {
    if s == [] then []
    else
      var init := s[..|s| - 1];
      assert s == init + [s[|s| - 1]];
      [s[|s| - 1]] + NewestFirst(init)
  }

  /** The element inserted last comes first. */
  lemma NewestFirstAppend<T>(s: seq<T>, x: T)
    ensures NewestFirst(s + [x]) == [x] + NewestFirst(s)
  {
    assert (s + [x])[..|s|] == s;
  }

  /** The length of a concatenation is the sum of the lengths, so every
      character adds one code unit, or two above U+FFFF. */
  lemma {:induction false} Utf16LengthAppend(a: string, b: string)
    ensures Utf16Length(a + b) == Utf16Length(a) + Utf16Length(b)
    decreases |b|
  {
    if b == [] {
      assert a + b == a;
    } else {
      var b' := b[..|b| - 1];
      assert (a + b)[..|a + b| - 1] == a + b';
      assert (a + b)[|a + b| - 1] == b[|b| - 1];
      Utf16LengthAppend(a, b');
    }
  }

  /** `.skip(k).limit(n)` on a sequence. */
  function Window<T>(s: seq<T>, skip: nat, limit: nat): (r: seq<T>)
    ensures |r| <= limit
    ensures skip <= |s| ==> |r| == if |s| - skip < limit then |s| - skip else limit
    ensures forall i :: 0 <= i < |r| ==> skip + i < |s| && r[i] == s[skip + i]
    ensures forall i :: skip <= i < skip + limit && i < |s| ==> i - skip < |r| && r[i - skip] == s[i]
  {
    if skip >= |s| then []
    else if |s| - skip < limit then s[skip..]
    else s[skip..skip + limit]
  }
}
