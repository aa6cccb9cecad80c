/** Document and phone keys as the pipeline stores them, and as the search planner reads them back. */
module Identifiers {
  import opened Domain
  import opened Text

  // ----- the pipeline's normalizer -----

  /** The characters and the length of a document number of a type, or nothing for another type. */
  datatype Shape = Shape(alphabet: Alphabet, min: nat, max: nat)

  function ShapeOf(docType: string): Option<Shape> {
    if docType == "DNI" then Some(Shape(Digits, 8, 8))
    else if docType == "CE" then Some(Shape(Alphanumeric, 4, 11))
    else if docType == "PTP" then Some(Shape(Digits, 9, 9))
    else if docType == "CSR" then Some(Shape(Digits, 5, 9))
    else if docType == "CIRE" then Some(Shape(Alphanumeric, 4, 9))
    else None
  }

  function ResolveDocType(raw: string): Option<string> {
    var upper := Uppercase(raw);
    if upper == "DNI" then Some("DNI")
    else if upper in ["CE", "C.E.", "CARNET DE EXTRANJERIA", "CARNET EXTRANJERIA"] then Some("CE")
    else if upper == "PTP" then Some("PTP")
    else if upper in ["C.S.R.", "CARNET DE REFUGIO", "CARNET SOLICITUD REFUGIO"] then Some("CSR")
    else if upper in ["C.I.R.E.", "CARNET IDENTIDAD", "CARNET DE IDENTIDAD"] then Some("CIRE")
    else None
  }

  type DocPair = (string, string)

  function NumberFor(u: Unicode, docType: string, rawNumber: string): Option<string> {
    var shape := ShapeOf(docType);
    if shape.None? then None
    else Collected(shape.value.alphabet, Trim(u, rawNumber), shape.value.min, shape.value.max)
  }

  function NormalizeDoc(u: Unicode, rawType: string, rawNumber: string): Option<DocPair> {
    var docType := ResolveDocType(Trim(u, rawType));
    if docType.None? then None
    else
      var number := NumberFor(u, docType.value, rawNumber);
      if number.None? then None else Some((docType.value, number.value))
  }

  // ----- the search planner -----

  datatype Intent = People | Companies | Mixed

  datatype Strategy =
    | ByDocument(docType: string, number: string)
    | ByRuc(ruc: string)
    | ByPhone(phone: string)
    | ByPersonName(text: string)
    | ByCompanyName(text: string)
    | ByMixedName(text: string)

  predicate AllDigits(s: string) { forall c :: c in s ==> IsDigit(c) }

  /** The part before the first colon, and the part after it. */
  function SplitOnce(s: string): Option<(string, string)> {
    if s == "" then None
    else if s[0] == ':' then Some(("", s[1..]))
    else
      var rest := SplitOnce(s[1..]);
      if rest.None? then None else Some(([s[0]] + rest.value.0, rest.value.1))
  }

  function ParseDocument(u: Unicode, value: string): Option<DocPair> {
    var parts := SplitOnce(value);
    if parts.None? then None
    else
      var docType := Uppercase(Trim(u, parts.value.0));
      var number := NumberFor(u, docType, parts.value.1);
      if number.None? then None else Some((docType, number.value))
  }

  function CountAlnum(u: Unicode, word: string): nat {
    if word == "" then 0 else (if u.alnum(word[0]) then 1 else 0) + CountAlnum(u, word[1..])
  }

  /** Two to 120 bytes, and a word of three letters or digits. */
  predicate ValidText(u: Unicode, value: string) {
    var trimmed := Trim(u, value);
    2 <= Bytes(u, trimmed) <= 120 && exists word :: word in Words(u, trimmed) && CountAlnum(u, word) >= 3
  }

  /** Nothing is a validation error. */
  function PlanQuery(u: Unicode, intent: Intent, query: string): Option<Strategy> {
    var value := Trim(u, query);
    if value == "" then None
    else if ':' in value then
      var document := ParseDocument(u, value);
      if document.None? then None else Some(ByDocument(document.value.0, document.value.1))
    else if AllDigits(value) && Bytes(u, value) == 11 then Some(ByRuc(value))
    else if AllDigits(value) && Bytes(u, value) == 8 then Some(ByDocument("DNI", value))
    else if AllDigits(value) && 7 <= Bytes(u, value) <= 15 then Some(ByPhone(value))
    else if !ValidText(u, value) then None
    else
      match intent
      case People => Some(ByPersonName(value))
      case Companies => Some(ByCompanyName(value))
      case Mixed => Some(ByMixedName(value))
  }

  // ----- stored documents are findable -----

  /** A pair as it is stored: a known type, and a number in its shape. */
  predicate IsStoredForm(docType: string, number: string) {
    var shape := ShapeOf(docType);
    && shape.Some?
    && shape.value.min <= |number| <= shape.value.max
    && forall c :: c in number ==> IsKept(shape.value.alphabet, c)
  }

  lemma NumberIsStoredForm(u: Unicode, docType: string, rawNumber: string)
    ensures NumberFor(u, docType, rawNumber).Some? ==> IsStoredForm(docType, NumberFor(u, docType, rawNumber).value)
  {
    if ShapeOf(docType).Some? { FilteredIsKept(ShapeOf(docType).value.alphabet, Trim(u, rawNumber)); }
  }

  lemma StoredNumberStands(u: Unicode, docType: string, number: string)
    requires Lawful(u) && IsStoredForm(docType, number)
    ensures NumberFor(u, docType, number) == Some(number)
  {
    assert number[0] in number && number[|number| - 1] in number;
    TrimTrims(u, number);
    KeptIsFixed(ShapeOf(docType).value.alphabet, number);
  }

  lemma {:induction false} SplitAtTheColon(a: string, b: string)
    requires ':' !in a
    ensures SplitOnce(a + ":" + b) == Some((a, b))
  {
    var s := a + ":" + b;
    if a == "" {
      assert s[0] == ':' && s[1..] == b;
    } else {
      assert a[0] in a && forall c :: c in a[1..] ==> c in a;
      assert s[0] == a[0] && s[1..] == a[1..] + ":" + b;
      SplitAtTheColon(a[1..], b);
      assert a == [a[0]] + a[1..];
    }
  }

  lemma TypesArePlain(docType: string)
    requires ShapeOf(docType).Some?
    ensures |docType| > 0 && (forall c :: c in docType ==> IsUpper(c)) && Uppercase(docType) == docType
  {
  }

  /** A stored pair printed as TYPE:NUMBER is planned as that pair. */
  lemma StoredPairIsPlanned(u: Unicode, intent: Intent, docType: string, number: string)
    requires Lawful(u) && IsStoredForm(docType, number)
    ensures PlanQuery(u, intent, docType + ":" + number) == Some(ByDocument(docType, number))
  {
    hide ShapeOf, Bytes, ValidText, NumberFor;
    TypesArePlain(docType);
    StoredNumberStands(u, docType, number);
    StoredNumberIsThere(docType, number);
    var text := docType + ":" + number;
    assert docType[0] in docType && docType[|docType| - 1] in docType && number[|number| - 1] in number;
    assert text[|text| - 1] == number[|number| - 1] && text[0] == docType[0] && text[|docType|] == ':';
    TrimTrims(u, text);
    TrimTrims(u, docType);
    assert ':' !in docType;
    SplitAtTheColon(docType, number);
  }

  lemma StoredNumberIsThere(docType: string, number: string)
    requires IsStoredForm(docType, number)
    ensures |number| > 0 && forall c :: c in number ==> IsAsciiAlnum(c)
  {
  }

  /** Whatever the normalizer stores, the planner finds. */
  lemma NormalizedIsFindable(u: Unicode, intent: Intent, rawType: string, rawNumber: string)
    requires Lawful(u) && NormalizeDoc(u, rawType, rawNumber).Some?
    ensures
      var (docType, number) := NormalizeDoc(u, rawType, rawNumber).value;
      PlanQuery(u, intent, docType + ":" + number) == Some(ByDocument(docType, number))
  {
    hide PlanQuery;
    var (docType, number) := NormalizeDoc(u, rawType, rawNumber).value;
    NumberIsStoredForm(u, docType, rawNumber);
    StoredPairIsPlanned(u, intent, docType, number);
  }

  /** A name under which the normalizer knows the type. */
  function SourceName(docType: string): string {
    if docType == "CSR" then "CARNET DE REFUGIO" else if docType == "CIRE" then "CARNET IDENTIDAD" else docType
  }

  lemma SourceNameResolves(docType: string)
    requires ShapeOf(docType).Some?
    ensures ResolveDocType(SourceName(docType)) == Some(docType)
    ensures SourceName(docType) != "" && IsUpper(SourceName(docType)[0])
    ensures IsUpper(SourceName(docType)[|SourceName(docType)| - 1])
  {
    assert Uppercase("CARNET DE REFUGIO") == "CARNET DE REFUGIO" && Uppercase("CARNET IDENTIDAD") == "CARNET IDENTIDAD";
    TypesArePlain(docType);
  }

  lemma StoredPairIsNormalized(u: Unicode, docType: string, number: string)
    requires Lawful(u) && IsStoredForm(docType, number)
    ensures NormalizeDoc(u, SourceName(docType), number) == Some((docType, number))
  {
    hide ShapeOf, ResolveDocType, NumberFor;
    SourceNameResolves(docType);
    TrimTrims(u, SourceName(docType));
    StoredNumberStands(u, docType, number);
  }

  lemma PlannedIsStoredForm(u: Unicode, intent: Intent, query: string)
    requires Lawful(u)
    ensures
      var plan := PlanQuery(u, intent, query);
      plan.Some? && plan.value.ByDocument? ==> IsStoredForm(plan.value.docType, plan.value.number)
  {
    hide ShapeOf, ValidText, IsStoredForm, NumberFor;
    var value := Trim(u, query);
    if ':' in value {
      var parts := SplitOnce(value);
      if parts.Some? { NumberIsStoredForm(u, Uppercase(Trim(u, parts.value.0)), parts.value.1); }
    } else if AllDigits(value) && Bytes(u, value) == 8 {
      BytesAtLeast(u, value);
      EightDigitsAreADni(value);
    }
  }

  lemma EightDigitsAreADni(value: string)
    requires AllDigits(value) && |value| == 8
    ensures IsStoredForm("DNI", value)
  {
  }

  /** The keys the planner can ask for are exactly the keys the normalizer can store. */
  lemma PlannableKeysAreStorableKeys(u: Unicode, intent: Intent, docType: string, number: string)
    requires Lawful(u)
    ensures (exists query :: PlanQuery(u, intent, query) == Some(ByDocument(docType, number)))
            <==> (exists rawType, rawNumber :: NormalizeDoc(u, rawType, rawNumber) == Some((docType, number)))
  {
    hide PlanQuery, NormalizeDoc, IsStoredForm;
    if IsStoredForm(docType, number) {
      StoredPairIsPlanned(u, intent, docType, number);
      StoredPairIsNormalized(u, docType, number);
    }
    if query :| PlanQuery(u, intent, query) == Some(ByDocument(docType, number)) {
      PlannedIsStoredForm(u, intent, query);
    }
    if rawType, rawNumber :| NormalizeDoc(u, rawType, rawNumber) == Some((docType, number)) {
      NormalizedIsStoredForm(u, rawType, rawNumber);
    }
  }

  lemma NormalizedIsStoredForm(u: Unicode, rawType: string, rawNumber: string)
    ensures
      var pair := NormalizeDoc(u, rawType, rawNumber);
      pair.Some? ==> IsStoredForm(pair.value.0, pair.value.1)
  {
    hide ShapeOf, ResolveDocType, IsStoredForm, NumberFor;
    var docType := ResolveDocType(Trim(u, rawType));
    if docType.Some? { NumberIsStoredForm(u, docType.value, rawNumber); }
  }

  /** The normalizer takes its own pair back exactly for the types it resolves by their own name. */
  lemma OwnTypeNameIsUnderstood(u: Unicode, docType: string, number: string)
    requires Lawful(u) && IsStoredForm(docType, number)
    ensures NormalizeDoc(u, docType, number) == Some((docType, number)) <==> docType in ["DNI", "CE", "PTP"]
    ensures docType in ["CSR", "CIRE"] ==> NormalizeDoc(u, docType, number) == None
  {
    hide NumberFor;
    TypesArePlain(docType);
    TrimTrims(u, docType);
    StoredNumberStands(u, docType, number);
  }

  // ----- phones -----

  datatype PhoneKind = Mobile | Fixed

  function DigitsOf(s: string): string { Filtered(Digits, s) }

  function WithoutCountry(cleaned: string): string {
    if "51" <= cleaned && |cleaned| >= 9 then cleaned[2..] else cleaned
  }

  function NormalizePhone(u: Unicode, value: string): Option<(string, PhoneKind)> {
    if exists c :: c in value && u.alphabetic(c) then None
    else
      var cleaned := WithoutCountry(DigitsOf(value));
      if |cleaned| == 9 && cleaned[0] == '9' then Some((cleaned, Mobile))
      else if (|cleaned| == 7 || |cleaned| == 8) && '1' <= cleaned[0] <= '8' then Some((cleaned, Fixed))
      else None
  }

  lemma PhoneIsDigits(u: Unicode, value: string)
    requires NormalizePhone(u, value).Some?
    ensures
      var phone := NormalizePhone(u, value).value.0;
      && AllDigits(phone)
      && ((|phone| == 9 && phone[0] == '9') || ((|phone| == 7 || |phone| == 8) && '1' <= phone[0] <= '8'))
  {
    FilteredIsKept(Digits, value);
    assert forall c :: c in WithoutCountry(DigitsOf(value)) ==> c in DigitsOf(value);
  }

  /** A normalized phone is normal already. */
  lemma NormalizedPhoneStands(u: Unicode, value: string)
    requires Lawful(u) && NormalizePhone(u, value).Some?
    ensures NormalizePhone(u, NormalizePhone(u, value).value.0) == NormalizePhone(u, value)
  {
    var phone := NormalizePhone(u, value).value.0;
    PhoneIsDigits(u, value);
    KeptIsFixed(Digits, phone);
  }

  /** A stored phone is planned as itself exactly when it does not have eight digits; then it is taken for a DNI. */
  lemma PhoneIsFindableUnlessEightDigits(u: Unicode, intent: Intent, value: string)
    requires Lawful(u) && NormalizePhone(u, value).Some?
    ensures
      var phone := NormalizePhone(u, value).value.0;
      && (PlanQuery(u, intent, phone) == Some(ByPhone(phone)) <==> |phone| != 8)
      && (|phone| == 8 ==> PlanQuery(u, intent, phone) == Some(ByDocument("DNI", phone)))
  {
    hide ValidText, NormalizePhone;
    var phone := NormalizePhone(u, value).value.0;
    PhoneIsDigits(u, value);
    assert phone[0] in phone && phone[|phone| - 1] in phone;
    TrimTrims(u, phone);
    BytesAtLeast(u, phone);
    assert ':' !in phone;
  }

  /** A fixed-line phone with eight digits, such as 44123456, exists. */
  lemma SomePhonesHaveEightDigits(u: Unicode)
    requires Lawful(u)
    ensures NormalizePhone(u, "44123456") == Some(("44123456", Fixed))
  {
    KeptIsFixed(Digits, "44123456");
  }

  /** Why a value is no phone; nothing for an empty value, or for one that is a phone. */
  function PhoneIssue(u: Unicode, value: string): Option<string> {
    if Trim(u, value) == "" || NormalizePhone(u, value).Some? then None
    else if exists c :: c in value && u.alphabetic(c) then Some("alphanumeric")
    else
      var d := DigitsOf(value);
      if d == "" then Some("no_digits")
      else
        var length := |WithoutCountry(d)|;
        if length == 9 then Some("invalid_mobile_prefix")
        else if length == 7 || length == 8 then Some("invalid_fixed_prefix")
        else Some("unsupported_length")
  }

  predicate IsPhone(u: Unicode, value: string, phone: string) {
    NormalizePhone(u, value).Some? && NormalizePhone(u, value).value.0 == phone
  }

  /** The phones of a record, each once and in the order they first appear, and the issues of the rest. */
  method NormalizePhones(u: Unicode, raw: seq<string>) returns (phones: seq<string>, issues: set<string>)
    ensures forall i, j :: 0 <= i < j < |phones| ==> phones[i] != phones[j]
    ensures forall p :: p in phones <==> exists i :: 0 <= i < |raw| && IsPhone(u, raw[i], p)
    ensures forall issue :: issue in issues <==> exists i :: 0 <= i < |raw| && PhoneIssue(u, raw[i]) == Some(issue)
  {
    hide NormalizePhone, PhoneIssue;
    phones, issues := [], {};
    var unique: set<string> := {};
    for n := 0 to |raw|
      invariant forall p :: p in unique <==> p in phones
      invariant forall i, j :: 0 <= i < j < |phones| ==> phones[i] != phones[j]
      invariant forall p :: p in phones <==> exists i :: 0 <= i < n && IsPhone(u, raw[i], p)
      invariant forall issue :: issue in issues <==> exists i :: 0 <= i < n && PhoneIssue(u, raw[i]) == Some(issue)
    {
      var normalized := NormalizePhone(u, raw[n]);
      PhoneHasNoIssue(u, raw[n]);
      if normalized.Some? && normalized.value.0 !in unique {
        unique := unique + {normalized.value.0};
        phones := phones + [normalized.value.0];
        continue;
      }
      var issue := PhoneIssue(u, raw[n]);
      if issue.Some? { issues := issues + {issue.value}; }
    }
  }

  lemma PhoneHasNoIssue(u: Unicode, value: string)
    ensures NormalizePhone(u, value).Some? ==> PhoneIssue(u, value) == None
  {
    hide NormalizePhone;
  }

  // ----- names -----

  /** The letters and digits of a word, in lower case. */
  function Token(u: Unicode, word: string): string {
    if word == "" then "" else (if u.alnum(word[0]) then u.lower(word[0]) else "") + Token(u, word[1..])
  }

  function Tokens(u: Unicode, words: seq<string>): seq<string> {
    if words == [] then []
    else Tokens(u, words[..|words| - 1])
         + if Bytes(u, Token(u, words[|words| - 1])) >= 2 then [Token(u, words[|words| - 1])] else []
  }

  /** `field:token*` terms that all have to match. */
  function Query(field: string, tokens: seq<string>): string {
    if tokens == [] then ""
    else if |tokens| == 1 then field + ":" + tokens[0] + "*"
    else Query(field, tokens[..|tokens| - 1]) + " AND " + field + ":" + tokens[|tokens| - 1] + "*"
  }

  /** Nothing in a token needs quotes, and none is empty. */
  predicate WellFormed(tokens: seq<string>) {
    forall i :: 0 <= i < |tokens| ==> tokens[i] != "" && forall c :: c in tokens[i] ==> IsBareword(c)
  }

  method FtsQuery(u: Unicode, field: string, text: string) returns (out: string)
    requires field != ""
    ensures out == Query(field, Tokens(u, Words(u, text)))
  {
    var words, tokens := Words(u, text), [];
    for i := 0 to |words|
      invariant tokens == Tokens(u, words[..i])
    {
      assert words[..i + 1][..i] == words[..i];
      if Bytes(u, Token(u, words[i])) >= 2 { tokens := tokens + [Token(u, words[i])]; }
    }
    assert words[..|words|] == words;
    out := "";
    for i := 0 to |tokens|
      invariant out == Query(field, tokens[..i]) && (out == "" <==> i == 0)
    {
      assert tokens[..i + 1][..i] == tokens[..i];
      if |out| > 0 { out := out + " AND "; }
      out := out + field + ":" + tokens[i] + "*";
    }
    assert tokens[..|tokens|] == tokens;
  }

  lemma {:induction false} TokenIsBare(u: Unicode, word: string)
    requires Lawful(u)
    ensures |Token(u, word)| >= CountAlnum(u, word)
    ensures forall c :: c in Token(u, word) ==> IsBareword(c)
  {
    if word != "" { TokenIsBare(u, word[1..]); }
  }

  lemma {:induction false} TokensAreWellFormed(u: Unicode, words: seq<string>)
    requires Lawful(u)
    ensures WellFormed(Tokens(u, words))
    ensures (exists word :: word in words && CountAlnum(u, word) >= 3) ==> Tokens(u, words) != []
  {
    if words != [] {
      var last := words[|words| - 1];
      TokensAreWellFormed(u, words[..|words| - 1]);
      TokenIsBare(u, last);
      BytesAtLeast(u, Token(u, last));
      assert forall word :: word in words ==> word in words[..|words| - 1] || word == last;
    }
  }

  /** What a name search hands to the full-text index. */
  function TextOf(strategy: Strategy): Option<string> {
    match strategy
    case ByPersonName(text) => Some(text)
    case ByCompanyName(text) => Some(text)
    case ByMixedName(text) => Some(text)
    case _ => None
  }

  /** Every text accepted as a name makes a query of at least one term, and no term needs quotes. */
  lemma AcceptedNamesAreSearchable(u: Unicode, intent: Intent, query: string, field: string)
    requires Lawful(u)
    requires PlanQuery(u, intent, query).Some? && TextOf(PlanQuery(u, intent, query).value).Some?
    ensures
      var tokens := Tokens(u, Words(u, TextOf(PlanQuery(u, intent, query).value).value));
      tokens != [] && WellFormed(tokens) && Query(field, tokens) != ""
  {
    hide Tokens, Words, Bytes, CountAlnum, WellFormed;
    var value := Trim(u, query);
    TrimTrims(u, query);
    TrimTrims(u, value);
    assert ValidText(u, value);
    TokensAreWellFormed(u, Words(u, value));
  }
}
