/**
 * What the string operations do, said of their characters: each law together with its neighbours
 * leaves one function that meets them.
 */
module TextMeaning {
  import opened Domain
  import opened Text

  // ----- characters -----

  /** Letters from a to z get their capital, and nothing else changes. */
  lemma UpperOfEach(c: char)
    ensures IsLower(c) ==> IsUpper(ToUpper(c)) && ToUpper(c) as int - 'A' as int == c as int - 'a' as int
    ensures !IsLower(c) ==> ToUpper(c) == c
  {
  }

  // ----- the valid characters -----

  lemma FilteredOne(alphabet: Alphabet, c: char)
    ensures Filtered(alphabet, [c])
            == if IsDigit(c) || (alphabet == Alphanumeric && (IsLower(c) || IsUpper(c))) then [ToUpper(c)] else ""
  {
    assert [c][..0] == "";
  }

  /** The valid characters of a text are those of its parts, in order. */
  lemma {:induction false} FilteredOfParts(alphabet: Alphabet, s: string, t: string)
    ensures Filtered(alphabet, "") == ""
    ensures Filtered(alphabet, s + t) == Filtered(alphabet, s) + Filtered(alphabet, t)
    decreases |t|
  {
    if t == "" {
      assert s + t == s;
    } else {
      var front, c := t[..|t| - 1], t[|t| - 1];
      assert (s + t)[..|s + t| - 1] == s + front && (s + t)[|s + t| - 1] == c;
      FilteredOfParts(alphabet, s, front);
    }
  }

  /** A number is collected exactly when the valid characters are in range, and is those characters. */
  lemma CollectedExactlyWhen(alphabet: Alphabet, s: string, min: nat, max: nat, out: string)
    ensures Collected(alphabet, s, min, max) == Some(out) <==> out == Filtered(alphabet, s) && min <= |out| && |out| <= max
  {
  }

  // ----- trim -----

  predicate AllWhite(u: Unicode, s: string) { forall c :: c in s ==> u.white(c) }

  lemma {:induction false} TrimStartTakesWhite(u: Unicode, s: string)
    ensures exists a :: AllWhite(u, a) && s == a + TrimStart(u, s)
  {
    if s != "" && u.white(s[0]) {
      TrimStartTakesWhite(u, s[1..]);
      var a :| AllWhite(u, a) && s[1..] == a + TrimStart(u, s[1..]);
      assert s == ([s[0]] + a) + TrimStart(u, s) && AllWhite(u, [s[0]] + a);
    } else {
      assert AllWhite(u, "") && s == "" + s;
    }
  }

  lemma {:induction false} TrimEndTakesWhite(u: Unicode, s: string)
    ensures exists b :: AllWhite(u, b) && s == TrimEnd(u, s) + b
  {
    if s != "" && u.white(s[|s| - 1]) {
      TrimEndTakesWhite(u, s[..|s| - 1]);
      var b :| AllWhite(u, b) && s[..|s| - 1] == TrimEnd(u, s[..|s| - 1]) + b;
      assert s == TrimEnd(u, s) + (b + [s[|s| - 1]]) && AllWhite(u, b + [s[|s| - 1]]);
    } else {
      assert AllWhite(u, "") && s == s + "";
    }
  }

  predicate TrimmedTo(u: Unicode, s: string, t: string, a: string, b: string) {
    AllWhite(u, a) && AllWhite(u, b) && s == a + t + b
  }

  lemma TrimTakesWhite(u: Unicode, s: string)
    ensures exists a, b :: TrimmedTo(u, s, Trim(u, s), a, b)
  {
    TrimStartTakesWhite(u, s);
    var a :| AllWhite(u, a) && s == a + TrimStart(u, s);
    TrimEndTakesWhite(u, TrimStart(u, s));
    var b :| AllWhite(u, b) && TrimStart(u, s) == Trim(u, s) + b;
    assert s == a + Trim(u, s) + b;
    assert TrimmedTo(u, s, Trim(u, s), a, b);
  }

  /** Trimming takes white space from both ends and nothing else: what is left is the one such text with none to take. */
  lemma TrimExactlyWhen(u: Unicode, s: string, t: string)
    ensures Trim(u, s) == t <==> Trimmed(u, t) && exists a, b :: TrimmedTo(u, s, t, a, b)
  {
    TrimTakesWhite(u, s);
    TrimTrims(u, s);
    if Trimmed(u, t) && exists a, b :: TrimmedTo(u, s, t, a, b) {
      var a, b :| TrimmedTo(u, s, t, a, b);
      TrimAround(u, a, t, b);
    }
  }

  lemma TrimAround(u: Unicode, a: string, t: string, b: string)
    requires AllWhite(u, a) && AllWhite(u, b) && Trimmed(u, t)
    ensures Trim(u, a + t + b) == t
  {
    assert a + t + b == a + (t + b);
    TrimStartOver(u, a, t + b);
    if t == "" {
      assert t + b == b && b == b + "";
      TrimStartOver(u, b, "");
    } else {
      assert TrimStart(u, t + b) == t + b;
      TrimEndOver(u, t, b);
    }
  }

  lemma {:induction false} TrimStartOver(u: Unicode, a: string, s: string)
    requires AllWhite(u, a)
    ensures TrimStart(u, a + s) == TrimStart(u, s)
    decreases |a|
  {
    if a == "" {
      assert a + s == s;
    } else {
      assert (a + s)[0] == a[0] && (a + s)[1..] == a[1..] + s;
      TrimStartOver(u, a[1..], s);
    }
  }

  lemma {:induction false} TrimEndOver(u: Unicode, t: string, b: string)
    requires AllWhite(u, b) && t != "" && Trimmed(u, t)
    ensures TrimEnd(u, t + b) == t
    decreases |b|
  {
    if b == "" {
      assert t + b == t;
    } else {
      var s := t + b;
      assert s[|s| - 1] == b[|b| - 1] && s[..|s| - 1] == t + b[..|b| - 1];
      TrimEndOver(u, t, b[..|b| - 1]);
    }
  }

  // ----- words -----

  predicate NoWhite(u: Unicode, s: string) { forall c :: c in s ==> !u.white(c) }

  lemma {:induction false} WordGoesToWhite(u: Unicode, w: string, s: string)
    requires NoWhite(u, w) && (s == "" || u.white(s[0]))
    ensures WordLength(u, w + s) == |w|
    decreases |w|
  {
    if w == "" {
      assert w + s == s;
    } else {
      assert (w + s)[0] == w[0] && (w + s)[1..] == w[1..] + s;
      WordGoesToWhite(u, w[1..], s);
    }
  }

  lemma FirstWord(u: Unicode, w: string, rest: string)
    requires w != "" && NoWhite(u, w) && (rest == "" || u.white(rest[0]))
    ensures Words(u, w + rest) == [w] + Words(u, rest)
  {
    WordGoesToWhite(u, w, rest);
    var s := w + rest;
    assert s[0] == w[0] && s[..|w|] == w && s[|w|..] == rest;
  }

  /** What has no white space is one word. */
  lemma OneWord(u: Unicode, w: string)
    requires NoWhite(u, w)
    ensures Words(u, w) == if w == "" then [] else [w]
  {
    if w != "" {
      assert w + "" == w;
      FirstWord(u, w, "");
    }
  }

  lemma WhiteFirst(u: Unicode, c: char, s: string)
    requires u.white(c)
    ensures Words(u, [c] + s) == Words(u, s)
  {
    assert ([c] + s)[1..] == s;
  }

  /** White space parts words, and is in none. */
  lemma {:induction false} WordsAroundWhite(u: Unicode, s: string, c: char, t: string)
    requires u.white(c)
    ensures Words(u, s + [c] + t) == Words(u, s) + Words(u, t)
    decreases |s|
  {
    hide Words, WordLength;
    if s == "" {
      assert Words(u, "") == [] by { OneWord(u, ""); }
      assert s + [c] + t == [c] + t;
      WhiteFirst(u, c, t);
    } else if u.white(s[0]) {
      assert s == [s[0]] + s[1..] && s + [c] + t == [s[0]] + (s[1..] + [c] + t);
      WhiteFirst(u, s[0], s[1..]);
      WhiteFirst(u, s[0], s[1..] + [c] + t);
      WordsAroundWhite(u, s[1..], c, t);
    } else {
      WordEnds(u, s);
      var w, rest := s[..WordLength(u, s)], s[WordLength(u, s)..];
      assert s == w + rest && w != "";
      WordsAfterWord(u, w, rest, c, t);
      WordsAroundWhite(u, rest, c, t);
    }
  }

  lemma WordsAfterWord(u: Unicode, w: string, rest: string, c: char, t: string)
    requires u.white(c) && w != "" && NoWhite(u, w) && (rest == "" || u.white(rest[0]))
    ensures Words(u, w + rest) == [w] + Words(u, rest)
    ensures Words(u, w + rest + [c] + t) == [w] + Words(u, rest + [c] + t)
  {
    hide Words;
    FirstWord(u, w, rest);
    FirstWord(u, w, rest + [c] + t);
    assert w + rest + [c] + t == w + (rest + [c] + t);
  }

  lemma {:induction false} WordEnds(u: Unicode, s: string)
    ensures NoWhite(u, s[..WordLength(u, s)])
    ensures WordLength(u, s) < |s| ==> u.white(s[WordLength(u, s)])
  {
    if s != "" && !u.white(s[0]) {
      WordEnds(u, s[1..]);
      var n := WordLength(u, s[1..]);
      assert s[..n + 1] == [s[0]] + s[1..][..n];
    }
  }
}
