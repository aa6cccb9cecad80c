/** When the normalizer and the planner give which key, and what a full-text query is made of. */
module IdentifierMeaning {
  import opened Domain
  import opened Text
  import opened Identifiers

  // ----- documents -----

  /** `number` is the number of a type that `raw` stands for. */
  predicate IsNumberOf(u: Unicode, docType: string, raw: string, number: string) {
    var digits, alnum := Filtered(Digits, Trim(u, raw)), Filtered(Alphanumeric, Trim(u, raw));
    || (docType == "DNI" && number == digits && |number| == 8)
    || (docType == "CE" && number == alnum && 4 <= |number| && |number| <= 11)
    || (docType == "PTP" && number == digits && |number| == 9)
    || (docType == "CSR" && number == digits && 5 <= |number| && |number| <= 9)
    || (docType == "CIRE" && number == alnum && 4 <= |number| && |number| <= 9)
  }

  /** The names a source may have for a type. */
  predicate IsNameOf(docType: string, name: string) {
    || (docType == "DNI" && name == "DNI")
    || (docType == "CE" && (name == "CE" || name == "C.E." || name == "CARNET DE EXTRANJERIA" || name == "CARNET EXTRANJERIA"))
    || (docType == "PTP" && name == "PTP")
    || (docType == "CSR" && (name == "C.S.R." || name == "CARNET DE REFUGIO" || name == "CARNET SOLICITUD REFUGIO"))
    || (docType == "CIRE" && (name == "C.I.R.E." || name == "CARNET IDENTIDAD" || name == "CARNET DE IDENTIDAD"))
  }

  lemma NumberExactlyWhen(u: Unicode, docType: string, raw: string, number: string)
    ensures NumberFor(u, docType, raw) == Some(number) <==> IsNumberOf(u, docType, raw, number)
  {
    hide Filtered, Trim;
    if docType == "DNI" {} else if docType == "CE" {} else if docType == "PTP" {} else if docType == "CSR" {} else if docType == "CIRE" {}
  }

  lemma NameExactlyWhen(docType: string, raw: string)
    ensures ResolveDocType(raw) == Some(docType) <==> IsNameOf(docType, Uppercase(raw))
  {
    hide Uppercase;
  }

  /** A pair is stored as one of the five types under one of its names, with the characters its number may have. */
  lemma NormalizesExactlyWhen(u: Unicode, rawType: string, rawNumber: string, docType: string, number: string)
    ensures NormalizeDoc(u, rawType, rawNumber) == Some((docType, number))
            <==> IsNameOf(docType, Uppercase(Trim(u, rawType))) && IsNumberOf(u, docType, rawNumber, number)
  {
    hide ResolveDocType, NumberFor, IsNumberOf, IsNameOf;
    NameExactlyWhen(docType, Trim(u, rawType));
    NumberExactlyWhen(u, docType, rawNumber, number);
  }

  // ----- the planner -----

  predicate PartedAt(value: string, a: string, b: string) { ':' !in a && value == a + ":" + b }

  lemma {:induction false} SplitExactlyWhen(value: string, a: string, b: string)
    ensures SplitOnce(value) == Some((a, b)) <==> PartedAt(value, a, b)
    ensures SplitOnce(value) == None <==> ':' !in value
    decreases |value|
  {
    if value != "" && value[0] != ':' {
      SplitExactlyWhen(value[1..], if a == "" then "" else a[1..], b);
      if a != "" && a[0] == value[0] {
        assert a == [a[0]] + a[1..];
        assert PartedAt(value, a, b) <==> PartedAt(value[1..], a[1..], b) by { PartedOneLater(value, a, b); }
      }
    } else if value != "" {
      assert value == "" + ":" + value[1..];
      assert a != "" ==> a[0] in a && (a + ":" + b)[0] == a[0];
    }
  }

  lemma PartedOneLater(value: string, a: string, b: string)
    requires value != "" && value[0] != ':' && a != "" && a[0] == value[0]
    ensures PartedAt(value, a, b) <==> PartedAt(value[1..], a[1..], b)
  {
    assert a == [a[0]] + a[1..] && value == [value[0]] + value[1..];
    assert [a[0]] + (a[1..] + ":" + b) == a + ":" + b;
    assert forall c :: c in a <==> c == a[0] || c in a[1..];
  }

  predicate ParsesTo(u: Unicode, value: string, docType: string, number: string, a: string, b: string) {
    PartedAt(value, a, b) && Uppercase(Trim(u, a)) == docType && IsNumberOf(u, docType, b, number)
  }

  lemma ParsesExactlyWhen(u: Unicode, value: string, docType: string, number: string)
    ensures ParseDocument(u, value) == Some((docType, number))
            <==> exists a, b :: ParsesTo(u, value, docType, number, a, b)
  {
    hide SplitOnce, NumberFor, IsNumberOf, Trim, Uppercase, PartedAt;
    var parts := SplitOnce(value);
    if parts.Some? {
      SplitExactlyWhen(value, parts.value.0, parts.value.1);
      NumberExactlyWhen(u, docType, parts.value.1, number);
      if ParseDocument(u, value) == Some((docType, number)) {
        assert ParsesTo(u, value, docType, number, parts.value.0, parts.value.1);
      }
    }
    if a, b :| ParsesTo(u, value, docType, number, a, b) {
      SplitExactlyWhen(value, a, b);
      NumberExactlyWhen(u, docType, b, number);
    }
  }

  /** Seven to fifteen digits are never a name. */
  predicate IsNumeric(value: string) { AllDigits(value) && 7 <= |value| <= 15 }

  predicate IsName(u: Unicode, value: string) {
    && ':' !in value && !IsNumeric(value)
    && 2 <= Bytes(u, value) && Bytes(u, value) <= 120
    && exists word :: word in Words(u, value) && CountAlnum(u, word) >= 3
  }

  /** Which search a query is planned as; none of these is a validation error. */
  lemma PlansExactlyWhen(u: Unicode, intent: Intent, query: string, x: string, docType: string)
    requires Lawful(u)
    ensures var value := Trim(u, query); var plan := PlanQuery(u, intent, query);
            && (plan == Some(ByDocument(docType, x))
                <==> || (exists a, b :: ParsesTo(u, value, docType, x, a, b))
                     || (docType == "DNI" && x == value && AllDigits(x) && |x| == 8))
            && (plan == Some(ByRuc(x)) <==> x == value && AllDigits(x) && |x| == 11)
            && (plan == Some(ByPhone(x)) <==> x == value && IsNumeric(x) && |x| != 8 && |x| != 11)
            && (plan == Some(ByPersonName(x)) <==> intent == People && x == value && IsName(u, x))
            && (plan == Some(ByCompanyName(x)) <==> intent == Companies && x == value && IsName(u, x))
            && (plan == Some(ByMixedName(x)) <==> intent == Mixed && x == value && IsName(u, x))
  {
    hide Trim, Bytes, Words, CountAlnum, ParseDocument, ParsesTo;
    var value := Trim(u, query);
    ParsesExactlyWhen(u, value, docType, x);
    TrimTrims(u, query);
    TrimTrims(u, value);
    ColonIsNoDigit(u, value);
    NoColonParsesToNone(u, value, docType, x);
    if AllDigits(value) { BytesAtLeast(u, value); }
    if value == "" { assert Bytes(u, value) == 0 by { NoBytes(u); } }
  }

  lemma NoBytes(u: Unicode)
    ensures Bytes(u, "") == 0
  {
  }

  lemma ColonIsNoDigit(u: Unicode, value: string)
    ensures ':' in value ==> !AllDigits(value)
  {
  }

  lemma NoColonParsesToNone(u: Unicode, value: string, docType: string, x: string)
    ensures (exists a, b :: ParsesTo(u, value, docType, x, a, b)) ==> ':' in value
  {
  }

  lemma {:induction false} CountAlnumOfParts(u: Unicode, c: char, s: string, t: string)
    ensures CountAlnum(u, "") == 0
    ensures CountAlnum(u, [c]) == if u.alnum(c) then 1 else 0
    ensures CountAlnum(u, s + t) == CountAlnum(u, s) + CountAlnum(u, t)
    decreases |s|
  {
    if s == "" {
      assert s + t == t;
    } else {
      assert (s + t)[0] == s[0] && (s + t)[1..] == s[1..] + t;
      CountAlnumOfParts(u, c, s[1..], t);
    }
  }

  // ----- phones -----

  /** The national number in a text: its digits without the country code, if it has one. */
  predicate IsNational(value: string, phone: string) {
    var digits := Filtered(Digits, value);
    || (|digits| >= 9 && digits == "51" + phone)
    || (digits == phone && !(|digits| >= 9 && "51" <= digits))
  }

  /** A mobile number is nine digits from 9; a fixed line is seven or eight from 1 to 8; letters make neither. */
  lemma PhoneExactlyWhen(u: Unicode, value: string, phone: string)
    ensures NormalizePhone(u, value) == Some((phone, Mobile))
            <==> && (forall c :: c in value ==> !u.alphabetic(c))
                 && IsNational(value, phone) && |phone| == 9 && "9" <= phone
    ensures NormalizePhone(u, value) == Some((phone, Fixed))
            <==> && (forall c :: c in value ==> !u.alphabetic(c))
                 && IsNational(value, phone) && (|phone| == 7 || |phone| == 8) && phone[0] != '0' && phone[0] != '9'
  {
    NationalIs(value, phone);
    FilteredIsKept(Digits, value);
    var national := WithoutCountry(DigitsOf(value));
    assert forall c :: c in national ==> c in DigitsOf(value);
    if |national| > 0 { assert national[0] in national; }
  }

  lemma NationalIs(value: string, phone: string)
    ensures IsNational(value, phone) <==> phone == WithoutCountry(DigitsOf(value))
  {
    var digits := DigitsOf(value);
    if "51" <= digits { assert digits == "51" + digits[2..]; }
    if digits == "51" + phone { assert digits[2..] == phone; }
  }

  /** The reason a value is no phone depends on its letters and on the length of its national number alone. */
  lemma IssueExactlyWhen(u: Unicode, value: string, phone: string)
    requires IsNational(value, phone)
    ensures
      var issue := PhoneIssue(u, value);
      var counts := Trim(u, value) != "" && NormalizePhone(u, value) == None;
      var lettered := exists c :: c in value && u.alphabetic(c);
      && (issue == None <==> !counts)
      && (issue == Some("alphanumeric") <==> counts && lettered)
      && (issue == Some("no_digits") <==> counts && !lettered && forall c :: c in value ==> !IsDigit(c))
      && (issue == Some("invalid_mobile_prefix") <==> counts && !lettered && |phone| == 9)
      && (issue == Some("invalid_fixed_prefix") <==> counts && !lettered && (|phone| == 7 || |phone| == 8))
      && (issue == Some("unsupported_length")
          <==> counts && !lettered && (exists c :: c in value && IsDigit(c)) && !(7 <= |phone| <= 9))
  {
    hide Trim, NormalizePhone;
    NationalIs(value, phone);
    NoDigits(value);
    assert |DigitsOf(value)| == 0 ==> |phone| == 0;
  }

  lemma {:induction false} NoDigits(s: string)
    ensures Filtered(Digits, s) == "" <==> forall c :: c in s ==> !IsDigit(c)
  {
    if s != "" {
      NoDigits(s[..|s| - 1]);
      assert s == s[..|s| - 1] + [s[|s| - 1]];
      assert s[|s| - 1] in s;
    }
  }

  // ----- full-text queries -----

  /** A token keeps the letters and digits of a word, in lower case. */
  lemma {:induction false} TokenOfParts(u: Unicode, c: char, s: string, t: string)
    ensures Token(u, [c]) == if u.alnum(c) then u.lower(c) else ""
    ensures Token(u, s + t) == Token(u, s) + Token(u, t)
    decreases |s|
  {
    if s == "" {
      assert s + t == t;
    } else {
      assert (s + t)[0] == s[0] && (s + t)[1..] == s[1..] + t;
      TokenOfParts(u, c, s[1..], t);
    }
  }

  /** A word makes a token when that has two bytes or more, and words make theirs in order. */
  lemma {:induction false} TokensOfParts(u: Unicode, word: string, a: seq<string>, b: seq<string>)
    ensures Tokens(u, [word]) == if Bytes(u, Token(u, word)) >= 2 then [Token(u, word)] else []
    ensures Tokens(u, a + b) == Tokens(u, a) + Tokens(u, b)
    decreases |b|
  {
    if b == [] {
      assert a + b == a;
    } else {
      assert (a + b)[..|a + b| - 1] == a + b[..|b| - 1];
      TokensOfParts(u, word, a, b[..|b| - 1]);
    }
  }

  lemma OneMoreTerm(field: string, tokens: seq<string>, token: string)
    requires tokens != []
    ensures Query(field, tokens + [token]) == Query(field, tokens) + " AND " + field + ":" + token + "*"
  {
    assert (tokens + [token])[..|tokens|] == tokens;
  }

  lemma OneTerm(field: string, token: string)
    ensures Query(field, []) == "" && Query(field, [token]) == field + ":" + token + "*"
  {
  }

  lemma {:induction false} QueryOfParts(field: string, a: seq<string>, b: seq<string>)
    requires a != [] && b != []
    ensures Query(field, a + b) == Query(field, a) + " AND " + Query(field, b)
    decreases |b|
  {
    hide Query;
    var front, last := b[..|b| - 1], b[|b| - 1];
    assert b == front + [last] && a + b == (a + front) + [last];
    OneMoreTerm(field, a + front, last);
    if front == [] {
      assert a + front == a && b == [last];
      OneTerm(field, last);
      assert Query(field, a) + " AND " + field + ":" + last + "*" == Query(field, a) + " AND " + (field + ":" + last + "*");
    } else {
      QueryOfParts(field, a, front);
      OneMoreTerm(field, front, last);
      Regroup(Query(field, a), Query(field, front), field, last);
    }
  }

  lemma Regroup(x: string, y: string, field: string, last: string)
    ensures (x + " AND " + y) + " AND " + field + ":" + last + "*" == x + " AND " + (y + " AND " + field + ":" + last + "*")
  {
  }
}
