/** Characters and the string operations that the normalizer and the query planner share. */
module Text {
  import opened Domain

  predicate IsDigit(c: char) { '0' <= c <= '9' }
  predicate IsUpper(c: char) { 'A' <= c <= 'Z' }
  predicate IsLower(c: char) { 'a' <= c <= 'z' }
  predicate IsAscii(c: char) { c < '\U{0080}' }
  predicate IsAsciiAlnum(c: char) { IsDigit(c) || IsUpper(c) || IsLower(c) }

  function ToUpper(c: char): char {
    if IsLower(c) then c - 'a' + 'A' else c
  }

  function Uppercase(s: string): string {
    seq(|s|, i requires 0 <= i < |s| => ToUpper(s[i]))
  }

  /** The tables of the Unicode standard, and the bytes a character takes. */
  datatype Unicode = Unicode(
    white: char -> bool,
    alphabetic: char -> bool,
    alnum: char -> bool,
    lower: char -> string,
    width: char -> nat)

  /** A character that needs no quotes in a full-text query, and is not part of an operator's name. */
  predicate IsBareword(c: char) { IsDigit(c) || IsLower(c) || !IsAscii(c) }

  /** What is used of those tables. */
  ghost predicate Lawful(u: Unicode) {
    && (forall c :: IsAsciiAlnum(c) ==> !u.white(c) && u.alnum(c))
    && (forall c :: IsDigit(c) ==> !u.alphabetic(c))
    && !u.white(':')
    && (forall c :: u.width(c) >= 1)
    && (forall c :: IsAscii(c) ==> u.width(c) == 1)
    && (forall c :: u.alnum(c) ==> u.lower(c) != "" && forall d :: d in u.lower(c) ==> IsBareword(d))
  }

  /** The length of a string in bytes. */
  function Bytes(u: Unicode, s: string): nat {
    if s == "" then 0 else u.width(s[0]) + Bytes(u, s[1..])
  }

  lemma {:induction false} BytesAtLeast(u: Unicode, s: string)
    requires Lawful(u)
    ensures Bytes(u, s) >= |s|
    ensures (forall c :: c in s ==> IsAscii(c)) ==> Bytes(u, s) == |s|
  {
    if s != "" {
      BytesAtLeast(u, s[1..]);
      assert s[0] in s;
      assert forall c :: c in s[1..] ==> c in s;
    }
  }

  // ----- trim -----

  function TrimStart(u: Unicode, s: string): string {
    if s != "" && u.white(s[0]) then TrimStart(u, s[1..]) else s
  }

  function TrimEnd(u: Unicode, s: string): string {
    if s != "" && u.white(s[|s| - 1]) then TrimEnd(u, s[..|s| - 1]) else s
  }

  function Trim(u: Unicode, s: string): string { TrimEnd(u, TrimStart(u, s)) }

  predicate Trimmed(u: Unicode, s: string) {
    s == "" || (!u.white(s[0]) && !u.white(s[|s| - 1]))
  }

  lemma {:induction false} TrimStartEnds(u: Unicode, s: string)
    ensures TrimStart(u, s) == "" || !u.white(TrimStart(u, s)[0])
  {
    if s != "" && u.white(s[0]) { TrimStartEnds(u, s[1..]); }
  }

  lemma {:induction false} TrimEndEnds(u: Unicode, s: string)
    requires s == "" || !u.white(s[0])
    ensures Trimmed(u, TrimEnd(u, s))
  {
    if s != "" && u.white(s[|s| - 1]) { TrimEndEnds(u, s[..|s| - 1]); }
  }

  /** Trimming leaves nothing to trim, and leaves what needs no trimming alone. */
  lemma TrimTrims(u: Unicode, s: string)
    ensures Trimmed(u, Trim(u, s))
    ensures Trimmed(u, s) ==> Trim(u, s) == s
  {
    TrimStartEnds(u, s);
    TrimEndEnds(u, TrimStart(u, s));
  }

  // ----- words -----

  function WordLength(u: Unicode, s: string): (n: nat)
    ensures n <= |s|
    ensures s != "" && !u.white(s[0]) ==> n > 0
  {
    if s == "" || u.white(s[0]) then 0 else 1 + WordLength(u, s[1..])
  }

  /** `split_whitespace`. */
  function Words(u: Unicode, s: string): seq<string> {
    if s == "" then []
    else if u.white(s[0]) then Words(u, s[1..])
    else [s[..WordLength(u, s)]] + Words(u, s[WordLength(u, s)..])
  }

  // ----- collecting the valid characters -----

  datatype Alphabet = Digits | Alphanumeric

  predicate Valid(alphabet: Alphabet, c: char) {
    if alphabet.Digits? then IsDigit(c) else IsAsciiAlnum(c)
  }

  function Filtered(alphabet: Alphabet, s: string): string {
    if s == "" then ""
    else Filtered(alphabet, s[..|s| - 1]) + if Valid(alphabet, s[|s| - 1]) then [ToUpper(s[|s| - 1])] else ""
  }

  function Collected(alphabet: Alphabet, s: string, min: nat, max: nat): Option<string> {
    var out := Filtered(alphabet, s);
    if min <= |out| <= max then Some(out) else None
  }

  predicate IsKept(alphabet: Alphabet, c: char) { Valid(alphabet, c) && !IsLower(c) }

  lemma {:induction false} FilteredIsKept(alphabet: Alphabet, s: string)
    ensures forall c :: c in Filtered(alphabet, s) ==> IsKept(alphabet, c)
  {
    if s != "" { FilteredIsKept(alphabet, s[..|s| - 1]); }
  }

  lemma {:induction false} KeptIsFixed(alphabet: Alphabet, s: string)
    requires forall c :: c in s ==> IsKept(alphabet, c)
    ensures Filtered(alphabet, s) == s
  {
    if s != "" {
      assert s == s[..|s| - 1] + [s[|s| - 1]];
      KeptIsFixed(alphabet, s[..|s| - 1]);
      assert IsKept(alphabet, s[|s| - 1]);
    }
  }

  lemma {:induction false} FilteredGrows(alphabet: Alphabet, s: string, i: nat)
    requires i <= |s|
    ensures |Filtered(alphabet, s[..i])| <= |Filtered(alphabet, s)|
    decreases |s|
  {
    if i < |s| {
      assert s[..|s| - 1][..i] == s[..i];
      FilteredGrows(alphabet, s[..|s| - 1], i);
    } else {
      assert s[..i] == s;
    }
  }

  /** The loop gives up as soon as there are too many. */
  method CollectValid(alphabet: Alphabet, value: string, min: nat, max: nat) returns (r: Option<string>)
    ensures r == Collected(alphabet, value, min, max)
  {
    var out := "";
    for i := 0 to |value|
      invariant out == Filtered(alphabet, value[..i]) && |out| <= max
    {
      assert value[..i + 1][..i] == value[..i];
      if Valid(alphabet, value[i]) {
        out := out + [ToUpper(value[i])];
        if |out| > max {
          FilteredGrows(alphabet, value, i + 1);
          return None;
        }
      }
    }
    assert value[..|value|] == value;
    return if |out| >= min then Some(out) else None;
  }
}
