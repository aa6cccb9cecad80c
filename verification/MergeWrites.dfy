/** What a merge writes and marks, said of the columns of the staged rows. */
module MergeWrites {
  import opened Domain
  import opened Ranking
  import opened Projection
  import opened Upserts
  import ContactUpserts
  import Staleness
  import MergeRuns

  // ----- what a row says, column by column -----

  predicate OfRepresentative(row: StagedRow, key: Document) {
    row.repType != "" && row.repNumber != "" && key.docType == row.repType && key.number == row.repNumber
  }

  predicate OfPerson(row: StagedRow, key: Document) {
    row.dni.Some? && row.dni.value != "" && key.docType == "DNI" && key.number == row.dni.value
  }

  /** Contacts and roles go to the representative, and to the person only without one. */
  predicate FactsOf(row: StagedRow, key: Document) {
    if row.repType != "" && row.repNumber != "" then OfRepresentative(row, key) else OfPerson(row, key)
  }

  predicate OfCompany(row: StagedRow, ruc: string) {
    ruc != "" && row.companyRuc == Some(ruc)
  }

  predicate OfNobody(row: StagedRow) {
    (row.repType == "" || row.repNumber == "") && (row.dni.None? || row.dni.value == "")
  }

  lemma RowMeans(row: StagedRow, key: Document, ruc: string)
    ensures RepKey(row) == Some(key) <==> OfRepresentative(row, key)
    ensures DniKey(row) == Some(key) <==> OfPerson(row, key)
    ensures RowDoc(row) == Some(key) <==> FactsOf(row, key)
    ensures RowDoc(row).None? <==> OfNobody(row)
    ensures RucOf(row) == Some(ruc) <==> OfCompany(row, ruc)
  {
  }

  // ----- the greatest of what is offered -----

  /** `t` is the greatest text that is offered and not empty, or empty when there is none. */
  ghost predicate Greatest(t: string, offers: string -> bool) {
    if t == "" then forall u :: offers(u) ==> u == ""
    else offers(t) && forall u :: offers(u) && u != t ==> TextLess(u, t)
  }

  /** `MAX` over a set is its greatest member. */
  lemma MaxIsGreatest(s: set<string>)
    ensures s != {} ==> MaxText(s) in s
    ensures forall u :: u in s && u != MaxText(s) ==> TextLess(u, MaxText(s))
    ensures s == {} ==> MaxText(s) == ""
  {
    var sorted := SortedTexts(s);
    if s != {} {
      var t :| t in s;
      assert t in sorted;
      assert sorted[|sorted| - 1] in sorted;
    }
    forall u | u in s && u != MaxText(s) ensures TextLess(u, MaxText(s)) {
      assert u in sorted;
      var i :| 0 <= i < |sorted| && sorted[i] == u;
    }
  }

  lemma MaxOffered(s: set<string>, offers: string -> bool)
    requires forall t :: t != "" ==> (offers(t) <==> t in s)
    ensures Greatest(MaxText(s), offers)
  {
    hide MaxText;
    MaxIsGreatest(s);
    if s == {} { assert forall t :: t !in s; }
    forall u | u in s && MaxText(s) == "" ensures u == "" {
      assert u != "" ==> TextLess(u, "");
    }
  }

  // ----- names, rucs and facts -----

  predicate OffersName(row: StagedRow, key: Document, t: string) {
    || (OfRepresentative(row, key) && t == if row.repName != "" then row.repName else row.fullName)
    || (OfPerson(row, key) && t == row.fullName)
  }

  predicate OffersRuc(row: StagedRow, key: Document, t: string) {
    (OfRepresentative(row, key) || OfPerson(row, key)) && row.naturalRuc == Some(t)
  }

  predicate SomeRow(stage: Stage, says: StagedRow -> bool) { exists n :: n in stage && says(stage[n]) }

  function NamesOffered(stage: Stage, key: Document): string -> bool { t => SomeRow(stage, row => OffersName(row, key, t)) }

  function RucsOffered(stage: Stage, key: Document): string -> bool { t => SomeRow(stage, row => OffersRuc(row, key, t)) }

  function LegalNamesOffered(stage: Stage, ruc: string): string -> bool {
    t => SomeRow(stage, row => OfCompany(row, ruc) && row.companyName == t)
  }

  function FactsOffered(stage: Stage, ruc: string, column: Column): string -> bool {
    t => SomeRow(stage, row => OfCompany(row, ruc) && column in row.facts && row.facts[column] == t)
  }

  /** A merge is given the greatest name and the greatest ruc that its rows offer for a document. */
  lemma GivenOfDocument(m: Merge, key: Document)
    ensures
      var given := GivenAttribute(m, key);
      && Greatest(given.fullName, NamesOffered(m.stage, key)) && given.rank == m.rank && given.rest == NO_REST
      && Greatest(OrEmpty(given.naturalRuc), RucsOffered(m.stage, key)) && given.naturalRuc != Some("")
  {
    hide MaxText, Greatest, RepKey, DniKey;
    forall n | n in m.stage { RowMeans(m.stage[n], key, ""); }
    MaxOffered(NamesFor(m.stage, key), NamesOffered(m.stage, key));
    MaxOffered(RucsFor(m.stage, key), RucsOffered(m.stage, key));
  }

  /** The same for a company: its name, and each fact by itself. */
  lemma GivenOfCompany(m: Merge, ruc: string)
    ensures
      var given := GivenCompany(m, ruc);
      && given.ruc == ruc && given.rank == m.rank
      && Greatest(given.legalName, LegalNamesOffered(m.stage, ruc))
      && forall column: Column ::
           && Greatest(if column in given.facts then given.facts[column] else "", FactsOffered(m.stage, ruc, column))
           && (column in given.facts ==> given.facts[column] != "")
  {
    hide MaxText, Greatest, RucOf;
    forall n | n in m.stage { RowMeans(m.stage[n], Document("", ""), ruc); }
    MaxOffered(CompanyNames(m.stage, ruc), LegalNamesOffered(m.stage, ruc));
    forall column: Column
      ensures Greatest(if column in GivenFacts(m.stage, ruc) then GivenFacts(m.stage, ruc)[column] else "",
                       FactsOffered(m.stage, ruc, column))
    {
      MaxOffered(FactTexts(m.stage, ruc, column), FactsOffered(m.stage, ruc, column));
    }
  }

  // ----- documents and their attributes -----

  predicate Named(stage: Stage, key: Document) { SomeRow(stage, row => OfRepresentative(row, key) || OfPerson(row, key)) }

  lemma NamedByMeans(stage: Stage, key: Document)
    ensures key in NamedBy(stage) <==> Named(stage, key)
  {
    hide RepKey, DniKey;
    forall n | n in stage { RowMeans(stage[n], key, ""); }
  }

  /** A document is there exactly if it was, or a row names it, and it keeps its id. */
  lemma DocumentsAfter(st: Staging, m: Merge, key: Document)
    requires Fits(st, m)
    ensures Has(After(st, m).documents, key) <==> Has(st.documents, key) || Named(m.stage, key)
    ensures forall d :: d in st.documents ==> d in After(st, m).documents && After(st, m).documents[d] == st.documents[d]
  {
    hide NamedBy, Named, AttributesAfter, CompaniesAfter, RolesAfter, UpsertContacts;
    NamedByMeans(m.stage, key);
    var docs := st.documents + m.newDocs;
    if Has(st.documents, key) {
      var d :| d in st.documents && st.documents[d] == key;
      assert d !in m.newDocs && docs[d] == key;
    }
    if Has(m.newDocs, key) {
      var d :| d in m.newDocs && m.newDocs[d] == key;
      assert docs[d] == key;
    }
  }

  /** A name that is offered replaces the old one if its rank is no lower. */
  function NameThen(held: string, heldRank: int, offered: string, rank: int): string {
    if offered != "" && rank >= heldRank then offered else held
  }

  /** What a document's attribute says after the merge, given the greatest name and ruc that are offered for it. */
  ghost predicate AttributeBecomes(before: Option<Attribute>, after: Attribute, name: string, ruc: string, rank: int) {
    match before
    case None =>
      after.fullName == name && after.naturalRuc == (if ruc == "" then None else Some(ruc)) && after.rest == NO_REST
    case Some(had) =>
      && after.fullName == NameThen(had.fullName, had.rank, name, rank)
      && after.naturalRuc == (if ruc == "" then had.naturalRuc else Some(ruc))
      && after.rest == had.rest
  }

  lemma AttributesAfterMean(st: Staging, m: Merge, d: DocId)
    requires Fits(st, m) && d in After(st, m).documents
    ensures
      var key, before, after := After(st, m).documents[d], At(st.attributes, d), At(After(st, m).attributes, d);
      if !Named(m.stage, key) then after == before
      else exists name, ruc ::
             && Greatest(name, NamesOffered(m.stage, key)) && Greatest(ruc, RucsOffered(m.stage, key))
             && after.Some? && AttributeBecomes(before, after.value, name, ruc, m.rank)
  {
    hide NamedBy, Named, GivenAttribute, CompaniesAfter, RolesAfter, UpsertContacts, Fits, Greatest;
    var key := After(st, m).documents[d];
    NamedByMeans(m.stage, key);
    GivenOfDocument(m, key);
    var given := GivenAttribute(m, key);
    if Named(m.stage, key) {
      var after := After(st, m).attributes[d];
      assert AttributeBecomes(At(st.attributes, d), after, given.fullName, OrEmpty(given.naturalRuc), m.rank);
    }
  }

  // ----- companies -----

  predicate CompanyNamed(stage: Stage, ruc: string) { SomeRow(stage, row => OfCompany(row, ruc)) }

  lemma RucsInMeans(stage: Stage, ruc: string)
    ensures ruc in RucsIn(stage) <==> CompanyNamed(stage, ruc)
  {
    hide RucOf;
    forall n | n in stage { RowMeans(stage[n], Document("", ""), ruc); }
  }

  ghost predicate CompanyBecomes(before: Option<Company>, after: Company, ruc: string, name: string, facts: Facts, rank: int) {
    match before
    case None => after.ruc == ruc && after.legalName == name && after.facts == facts && after.rest == NO_REST
    case Some(had) =>
      && after.ruc == had.ruc && after.rest == had.rest
      && after.legalName == NameThen(had.legalName, had.rank, name, rank)
      && forall column: Column :: At(after.facts, column) == if column in facts then Some(facts[column]) else At(had.facts, column)
  }

  ghost predicate FactsAre(facts: Facts, stage: Stage, ruc: string) {
    forall column: Column ::
      && Greatest(if column in facts then facts[column] else "", FactsOffered(stage, ruc, column))
      && (column in facts ==> facts[column] != "")
  }

  /** A company is there exactly if it was, or a row names it, and the rows' greatest texts are written as ranks allow. */
  lemma CompaniesAfterMean(st: Staging, m: Merge, c: CompanyId)
    requires Keyed(st) && Fits(st, m)
    ensures c in After(st, m).companies <==> c in st.companies || c in m.newCompanies
    ensures c in After(st, m).companies ==>
      var ruc, before, after := After(st, m).companies[c].ruc, At(st.companies, c), After(st, m).companies[c];
      if !CompanyNamed(m.stage, ruc) then before == Some(after)
      else exists name, facts ::
             && Greatest(name, LegalNamesOffered(m.stage, ruc)) && FactsAre(facts, m.stage, ruc)
             && CompanyBecomes(before, after, ruc, name, facts, m.rank)
  {
    hide CompanyNamed, GivenCompany, RucsIn, DocsAfter, AttributesAfter, RolesAfter, UpsertContacts, Keyed, Fits, Greatest,
      CompaniesAfter, UpsertCompany, CompanyBecomes, FactsAre, FactsOffered, LegalNamesOffered;
    if c in st.companies {
      var known := st.companies[c];
      Staleness.CompanyAt(st, m, c);
      RucsInMeans(m.stage, known.ruc);
      GivenWritten(m, known.ruc);
      UpsertBecomes(known, GivenCompany(m, known.ruc));
    } else {
      Staleness.CompanyIsNew(st, m, c);
      if c in m.newCompanies { NewCompanyBecomes(st, m, c); }
    }
  }

  lemma GivenWritten(m: Merge, ruc: string)
    ensures
      var given := GivenCompany(m, ruc);
      && Greatest(given.legalName, LegalNamesOffered(m.stage, ruc)) && FactsAre(given.facts, m.stage, ruc)
      && given.rank == m.rank && given.ruc == ruc
  {
    hide GivenCompany, Greatest, FactsOffered, LegalNamesOffered;
    GivenOfCompany(m, ruc);
  }

  lemma UpsertBecomes(known: Company, given: Company)
    requires given.ruc == known.ruc
    ensures UpsertCompany(known, given).ruc == known.ruc
    ensures CompanyBecomes(Some(known), UpsertCompany(known, given), known.ruc, given.legalName, given.facts, given.rank)
  {
  }

  lemma NewCompanyBecomes(st: Staging, m: Merge, c: CompanyId)
    requires Keyed(st) && Fits(st, m) && c in m.newCompanies && c !in st.companies
    ensures
      var ruc := m.newCompanies[c];
      && CompanyNamed(m.stage, ruc) && CompaniesAfter(st, m)[c] == GivenCompany(m, ruc)
      && Greatest(GivenCompany(m, ruc).legalName, LegalNamesOffered(m.stage, ruc))
      && FactsAre(GivenCompany(m, ruc).facts, m.stage, ruc)
      && CompanyBecomes(None, GivenCompany(m, ruc), ruc, GivenCompany(m, ruc).legalName, GivenCompany(m, ruc).facts, m.rank)
  {
    hide CompanyNamed, GivenFacts, MaxText, RucsIn, Greatest, FactsAre, FactsOffered, LegalNamesOffered;
    var ruc := m.newCompanies[c];
    assert Has(m.newCompanies, ruc);
    RucsInMeans(m.stage, ruc);
    GivenWritten(m, ruc);
    assert RucsAfter(st, m)[c] == ruc;
  }

  // ----- phones and emails -----

  lemma DocJoinMeans(st: Staging, m: Merge, n: int, d: DocId)
    requires Keyed(st) && Fits(st, m) && n in m.stage
    ensures DocIdOf(st, m, m.stage[n]) == Some(d)
            <==> d in After(st, m).documents && FactsOf(m.stage[n], After(st, m).documents[d])
    ensures DocIdOf(st, m, m.stage[n]).None? <==> OfNobody(m.stage[n])
  {
    hide Keyed, Fits, DocIdOf, RowDoc, DocsAfter, AttributesAfter, CompaniesAfter, RolesAfter, UpsertContacts;
    Staleness.RowJoinsDoc(st, m, n);
    if d in DocsAfter(st, m) { RowMeans(m.stage[n], DocsAfter(st, m)[d], ""); }
    RowMeans(m.stage[n], Document("", ""), "");
  }

  lemma CompanyJoinMeans(st: Staging, m: Merge, n: int, c: CompanyId)
    requires Keyed(st) && Fits(st, m) && n in m.stage
    ensures CompanyIdOf(st, m, m.stage[n]) == Some(c)
            <==> c in After(st, m).companies && OfCompany(m.stage[n], After(st, m).companies[c].ruc)
  {
    hide Keyed, Fits, CompanyIdOf, RucOf, RucsAfter, DocsAfter, AttributesAfter, CompaniesAfter, RolesAfter, UpsertContacts;
    Staleness.RowJoinsCompany(st, m, n);
    Staleness.CompanyRuc(st, m, c);
    if c in RucsAfter(st, m) { RowMeans(m.stage[n], Document("", ""), RucsAfter(st, m)[c]); }
  }

  /** Some staged row brings this phone to the document. */
  ghost predicate BringsPhone(st: Staging, m: Merge, d: DocId, phone: string) {
    exists n :: n in m.stage && m.stage[n].hadPhoneInput && phone in m.stage[n].phones
      && d in After(st, m).documents && FactsOf(m.stage[n], After(st, m).documents[d])
  }

  /** A row that names nobody brings its phones to its company. */
  ghost predicate BringsCompanyPhone(st: Staging, m: Merge, c: CompanyId, phone: string) {
    exists n :: n in m.stage && m.stage[n].hadPhoneInput && phone in m.stage[n].phones && OfNobody(m.stage[n])
      && c in After(st, m).companies && OfCompany(m.stage[n], After(st, m).companies[c].ruc)
  }

  /** A row of the delta brings this email to the document. */
  ghost predicate BringsEmail(st: Staging, m: Merge, d: DocId, email: string) {
    exists n :: n in m.delta && n in m.stage && m.stage[n].email == Some(email)
      && d in After(st, m).documents && FactsOf(m.stage[n], After(st, m).documents[d])
  }

  /** Contacts are kept, those that are brought are added, and the greater weight counts. */
  ghost predicate ContactBecomes(before: Contacts, after: Contacts, owner: int, text: string, brought: bool, rank: int) {
    && ((owner, text) in after <==> (owner, text) in before || brought)
    && ((owner, text) in after ==>
          after[(owner, text)] == if !brought then before[(owner, text)]
                                  else if (owner, text) in before && before[(owner, text)] > rank then before[(owner, text)]
                                  else rank)
  }

  lemma DocPhonesMean(st: Staging, m: Merge, d: DocId, phone: string)
    requires Keyed(st) && Fits(st, m)
    ensures phone in DocPhonesIn(st, m, d) <==> BringsPhone(st, m, d, phone)
  {
    hide Keyed, Fits, DocIdOf, After;
    forall n | n in m.stage
      ensures DocIdOf(st, m, m.stage[n]) == Some(d)
              <==> d in After(st, m).documents && FactsOf(m.stage[n], After(st, m).documents[d])
      ensures phone in PhonesIn(m.stage[n]) <==> m.stage[n].hadPhoneInput && phone in m.stage[n].phones
    {
      DocJoinMeans(st, m, n, d);
    }
    if BringsPhone(st, m, d, phone) {
      var n :| n in m.stage && m.stage[n].hadPhoneInput && phone in m.stage[n].phones
        && d in After(st, m).documents && FactsOf(m.stage[n], After(st, m).documents[d]);
      assert phone in PhonesIn(m.stage[n]);
    }
  }

  lemma CompanyPhonesMean(st: Staging, m: Merge, c: CompanyId, phone: string)
    requires Keyed(st) && Fits(st, m)
    ensures phone in CompanyPhonesIn(st, m, c) <==> BringsCompanyPhone(st, m, c, phone)
  {
    hide Keyed, Fits, DocIdOf, CompanyIdOf, After;
    forall n | n in m.stage
      ensures DocIdOf(st, m, m.stage[n]).None? <==> OfNobody(m.stage[n])
      ensures CompanyIdOf(st, m, m.stage[n]) == Some(c)
              <==> c in After(st, m).companies && OfCompany(m.stage[n], After(st, m).companies[c].ruc)
    {
      DocJoinMeans(st, m, n, 0);
      CompanyJoinMeans(st, m, n, c);
    }
    if BringsCompanyPhone(st, m, c, phone) {
      var n :| n in m.stage && m.stage[n].hadPhoneInput && phone in m.stage[n].phones && OfNobody(m.stage[n])
        && c in After(st, m).companies && OfCompany(m.stage[n], After(st, m).companies[c].ruc);
      assert phone in PhonesIn(m.stage[n]);
    }
  }

  lemma EmailsMean(st: Staging, m: Merge, d: DocId, email: string)
    requires Keyed(st) && Fits(st, m)
    ensures email in EmailsIn(st, m, d) <==> BringsEmail(st, m, d, email)
  {
    hide Keyed, Fits, DocIdOf, After;
    forall n | n in m.stage { DocJoinMeans(st, m, n, d); }
  }

  lemma UpsertMeans(table: Contacts, owners: set<int>, texts: int -> set<string>, rank: int, owner: int, text: string)
    requires owner !in owners ==> texts(owner) == {}
    ensures ContactBecomes(table, UpsertContacts(table, owners, texts, rank), owner, text, text in texts(owner), rank)
  {
    hide UpsertContacts;
    ContactUpserts.UpsertedFor(table, owners, texts, rank, owner);
    if owner in owners && text in texts(owner) { UpsertedWeight(table, owners, texts, rank, owner, text); }
  }

  lemma UpsertedWeight(table: Contacts, owners: set<int>, texts: int -> set<string>, rank: int, owner: int, text: string)
    requires owner in owners && text in texts(owner)
    ensures (owner, text) in UpsertContacts(table, owners, texts, rank)
    ensures UpsertContacts(table, owners, texts, rank)[(owner, text)]
            == if (owner, text) in table && table[(owner, text)] > rank then table[(owner, text)] else rank
  {
  }

  /** Phones go to the document of their row, or else to its company; emails to the document, from the delta alone. */
  lemma ContactsAfterMean(st: Staging, m: Merge, owner: int, text: string)
    requires Keyed(st) && Fits(st, m)
    ensures
      var after := After(st, m);
      && ContactBecomes(st.docPhones, after.docPhones, owner, text, BringsPhone(st, m, owner, text), m.rank)
      && ContactBecomes(st.companyPhones, after.companyPhones, owner, text, BringsCompanyPhone(st, m, owner, text), m.rank)
      && ContactBecomes(st.docEmails, after.docEmails, owner, text, BringsEmail(st, m, owner, text), m.rank)
  {
    hide Keyed, Fits, UpsertContacts, DocPhonesIn, CompanyPhonesIn, EmailsIn, BringsPhone, BringsCompanyPhone, BringsEmail,
      ContactBecomes, DocsAfter, RucsAfter, AttributesAfter, CompaniesAfter, RolesAfter;
    DocPhonesMean(st, m, owner, text);
    CompanyPhonesMean(st, m, owner, text);
    EmailsMean(st, m, owner, text);
    Staleness.NoPhonesElsewhere(st, m, owner);
    NoEmailsElsewhere(st, m, owner);
    UpsertMeans(st.docPhones, DocsAfter(st, m).Keys, d => DocPhonesIn(st, m, d), m.rank, owner, text);
    UpsertMeans(st.docEmails, DocsAfter(st, m).Keys, d => EmailsIn(st, m, d), m.rank, owner, text);
    UpsertMeans(st.companyPhones, RucsAfter(st, m).Keys, c => CompanyPhonesIn(st, m, c), m.rank, owner, text);
  }

  lemma NoEmailsElsewhere(st: Staging, m: Merge, d: DocId)
    requires Keyed(st) && Fits(st, m)
    ensures d !in DocsAfter(st, m) ==> EmailsIn(st, m, d) == {}
  {
    hide Keyed, Fits, DocIdOf, DocsAfter;
    forall n | n in m.stage ensures DocIdOf(st, m, m.stage[n]) == Some(d) ==> d in DocsAfter(st, m) {
      Staleness.RowJoinsDoc(st, m, n);
    }
  }

  // ----- roles -----

  /** A row that says something of a role at a company. */
  ghost predicate SaysRole(st: Staging, m: Merge, n: int, key: RoleKey) {
    && n in m.stage && key.company in After(st, m).companies
    && OfCompany(m.stage[n], After(st, m).companies[key.company].ruc)
    && (m.stage[n].roleName != "" || m.stage[n].repNumber != "" || m.stage[n].repName != "")
    && key.repType == m.stage[n].repType && key.repNumber == m.stage[n].repNumber
    && key.roleName == m.stage[n].roleName && key.startDate == m.stage[n].startDate
  }

  lemma SourceOfRow(st: Staging, m: Merge, n: int, key: RoleKey)
    requires Keyed(st) && Fits(st, m) && SaysRole(st, m, n, key)
    ensures SourceOf(st, m, m.stage[n], key.company) in m.order
    ensures SourceOf(st, m, m.stage[n], key.company) == RoleSource(key, DocIdOf(st, m, m.stage[n]), m.stage[n].repName)
  {
    hide Keyed, Inserts, DocIdOf, CompanyIdOf, After;
    CompanyJoinMeans(st, m, n, key.company);
    assert CompanyIdOf(st, m, m.stage[n]) == Some(key.company);
    assert SourceOf(st, m, m.stage[n], key.company) in RoleSources(st, m);
  }

  lemma RowOfSource(st: Staging, m: Merge, s: RoleSource) returns (n: int)
    requires Keyed(st) && Fits(st, m) && s in m.order
    ensures SaysRole(st, m, n, s.key) && s.doc == DocIdOf(st, m, m.stage[n]) && s.repName == m.stage[n].repName
  {
    hide Keyed, Inserts, DocIdOf, CompanyIdOf, After;
    assert s in RoleSources(st, m);
    n :| n in m.stage && CompanyIdOf(st, m, m.stage[n]).Some? && NamesRole(m.stage[n])
         && s == SourceOf(st, m, m.stage[n], CompanyIdOf(st, m, m.stage[n]).value);
    var c := CompanyIdOf(st, m, m.stage[n]).value;
    assert s.key.company == c by { assert SourceOf(st, m, m.stage[n], c).key.company == c; }
    CompanyJoinMeans(st, m, n, c);
  }

  lemma {:induction false} LastNameMeans(order: seq<RoleSource>, key: RoleKey)
    ensures LastName(order, key) != "" ==> exists s :: s in order && s.key == key && s.repName == LastName(order, key)
    ensures LastName(order, key) == "" ==> forall s :: s in order && s.key == key ==> s.repName == ""
  {
    if order != [] {
      var before := order[..|order| - 1];
      LastNameMeans(before, key);
      assert forall s :: s in order ==> s in before || s == order[|order| - 1];
      assert forall s :: s in before ==> s in order;
      assert order[|order| - 1] in order;
    }
  }

  lemma {:induction false} FirstDocMeans(order: seq<RoleSource>, key: RoleKey)
    ensures FirstDoc(order, key).Some? ==> exists s :: s in order && s.key == key && s.doc == FirstDoc(order, key)
    ensures FirstDoc(order, key).None? ==> forall s :: s in order && s.key == key ==> s.doc.None?
  {
    if order != [] {
      var before := order[..|order| - 1];
      FirstDocMeans(before, key);
      assert forall s :: s in order ==> s in before || s == order[|order| - 1];
      assert forall s :: s in before ==> s in order;
      assert order[|order| - 1] in order;
    }
  }

  /** A row that is inserted takes the same name and document as one that is updated. */
  lemma {:induction false} InsertedRole(key: RoleKey, order: seq<RoleSource>, rank: int)
    ensures
      var after := RoleAfter(None, key, order, rank);
      after.Some? ==>
        && KeyOf(after.value) == key && after.value.repNameRank == rank
        && after.value.repName == LastName(order, key) && after.value.doc == FirstDoc(order, key)
    ensures RoleAfter(None, key, order, rank).None? ==> LastName(order, key) == "" && FirstDoc(order, key).None?
  {
    if order != [] { InsertedRole(key, order[..|order| - 1], rank); }
  }

  /** The name is one that a row says of the role, and no row says any if there is none. */
  ghost predicate NameSaid(st: Staging, m: Merge, key: RoleKey, name: string) {
    if name == "" then forall n :: SaysRole(st, m, n, key) ==> m.stage[n].repName == ""
    else exists n :: SaysRole(st, m, n, key) && m.stage[n].repName == name
  }

  /** The same for the document that a row gives the role. */
  ghost predicate DocSaid(st: Staging, m: Merge, key: RoleKey, doc: Option<DocId>) {
    if doc.None? then forall n :: SaysRole(st, m, n, key) ==> OfNobody(m.stage[n])
    else exists n :: SaysRole(st, m, n, key) && doc.value in After(st, m).documents
           && FactsOf(m.stage[n], After(st, m).documents[doc.value])
  }

  lemma SaidNameAndDoc(st: Staging, m: Merge, key: RoleKey)
    requires Keyed(st) && Fits(st, m)
    ensures NameSaid(st, m, key, LastName(m.order, key)) && DocSaid(st, m, key, FirstDoc(m.order, key))
  {
    hide Keyed, Fits, DocIdOf, After, SaysRole, OfNobody, FactsOf;
    LastNameMeans(m.order, key);
    FirstDocMeans(m.order, key);
    forall n | n in m.stage && SaysRole(st, m, n, key)
      ensures LastName(m.order, key) == "" ==> m.stage[n].repName == ""
      ensures FirstDoc(m.order, key).None? ==> OfNobody(m.stage[n])
    {
      SourceOfRow(st, m, n, key);
      DocJoinMeans(st, m, n, 0);
    }
    forall n | SaysRole(st, m, n, key) ensures n in m.stage { SaysStaged(st, m, n, key); }
    if LastName(m.order, key) != "" {
      var s :| s in m.order && s.key == key && s.repName == LastName(m.order, key);
      var n := RowOfSource(st, m, s);
    }
    if FirstDoc(m.order, key).Some? {
      var s :| s in m.order && s.key == key && s.doc == FirstDoc(m.order, key);
      var n := RowOfSource(st, m, s);
      SaysStaged(st, m, n, key);
      DocJoinMeans(st, m, n, s.doc.value);
    }
  }

  lemma SaysStaged(st: Staging, m: Merge, n: int, key: RoleKey)
    requires SaysRole(st, m, n, key)
    ensures n in m.stage
  {
  }

  /**
   * A role that was there stays under its key. Its document is the one it had, or else one that a row gives it; its
   * name is one that a row says if the rank is no lower, and else the one it had.
   */
  lemma RoleStaysAs(st: Staging, m: Merge, r: RoleId)
    requires Keyed(st) && Fits(st, m) && r in st.roles
    ensures r in After(st, m).roles && KeyOf(After(st, m).roles[r]) == KeyOf(st.roles[r])
    ensures
      var role, after := st.roles[r], After(st, m).roles[r];
      && (if role.doc.Some? then after.doc == role.doc else DocSaid(st, m, KeyOf(role), after.doc))
      && exists name :: NameSaid(st, m, KeyOf(role), name) && after.repName == NameThen(role.repName, role.repNameRank, name, m.rank)
  {
    hide Keyed, Fits, NameSaid, DocSaid, DocsAfter, AttributesAfter, CompaniesAfter, UpsertContacts, RoleAfter, LastName, FirstDoc;
    var role := st.roles[r];
    SaidNameAndDoc(st, m, KeyOf(role));
    RoleAfterIs(role, m.order, m.rank);
    Staleness.RoleStays(st, m, r);
    KnownKey(st, m, r);
    assert NameThen(role.repName, role.repNameRank, LastName(m.order, KeyOf(role)), m.rank) == After(st, m).roles[r].repName;
  }

  lemma KnownKey(st: Staging, m: Merge, r: RoleId)
    requires Fits(st, m) && r in st.roles
    ensures r in KeysAfter(st, m) && KeysAfter(st, m)[r] == KeyOf(st.roles[r])
  {
    assert r in KeysKnown(st) && r !in m.newRoles;
  }

  /** A new role has the key, the name and the document that rows give it. */
  lemma RoleComesAs(st: Staging, m: Merge, r: RoleId)
    requires Keyed(st) && Fits(st, m) && r in After(st, m).roles && r !in st.roles
    ensures
      var role := After(st, m).roles[r];
      && (exists n :: SaysRole(st, m, n, KeyOf(role)))
      && NameSaid(st, m, KeyOf(role), role.repName) && DocSaid(st, m, KeyOf(role), role.doc)
  {
    hide Keyed, NameSaid, DocSaid, DocsAfter, AttributesAfter, CompaniesAfter, UpsertContacts, RoleAfter, LastName, FirstDoc,
      SaysRole, RoleSources;
    Staleness.RoleIsNew(st, m, r);
    var key := m.newRoles[r];
    SaidNameAndDoc(st, m, key);
    InsertedRole(key, m.order, m.rank);
    assert Has(m.newRoles, key) && key in RoleKeysIn(st, m);
    var s :| s in RoleSources(st, m) && s.key == key;
    var n := RowOfSource(st, m, s);
  }

  /** Every role that a row says is there. */
  lemma SaidRoleIsThere(st: Staging, m: Merge, n: int, key: RoleKey)
    requires Keyed(st) && Fits(st, m) && SaysRole(st, m, n, key)
    ensures exists r :: r in After(st, m).roles && KeyOf(After(st, m).roles[r]) == key
  {
    hide Keyed, DocsAfter, AttributesAfter, CompaniesAfter, UpsertContacts, RolesAfter, SaysRole, DocIdOf, RoleSources, KeysKnown;
    SaysStaged(st, m, n, key);
    SourceOfRow(st, m, n, key);
    var s := SourceOf(st, m, m.stage[n], key.company);
    assert s in RoleSources(st, m) && key in RoleKeysIn(st, m);
    assert Has(KeysKnown(st), key) || Has(m.newRoles, key);
    var r := RoleUnder(st, m, key, s);
    assert After(st, m).roles[r] == RolesAfter(st, m)[r];
  }

  lemma RoleUnder(st: Staging, m: Merge, key: RoleKey, s: RoleSource) returns (r: RoleId)
    requires Fits(st, m) && s in m.order && s.key == key
    requires Has(KeysKnown(st), key) || Has(m.newRoles, key)
    ensures r in RolesAfter(st, m) && KeyOf(RolesAfter(st, m)[r]) == key
  {
    hide RoleAfter, Inserts, RoleSources;
    if Has(KeysKnown(st), key) {
      r :| r in KeysKnown(st) && KeysKnown(st)[r] == key;
      Staleness.RoleStays(st, m, r);
    } else {
      r :| r in m.newRoles && m.newRoles[r] == key;
      NewRoleAfterIs(key, m.order, m.rank);
      var i :| 0 <= i < |m.order| && m.order[i] == s;
      NewKey(st, m, r);
    }
  }

  lemma NewKey(st: Staging, m: Merge, r: RoleId)
    requires Fits(st, m) && r in m.newRoles
    ensures r !in st.roles && KeysAfter(st, m)[r] == m.newRoles[r]
  {
    assert r in st.roles ==> r in KeysKnown(st);
  }

  // ----- marks -----

  /** Marked are the documents of the delta's rows, and the holders of roles at the companies of the delta's rows. */
  lemma MarksMean(st: Staging, m: Merge, id: int)
    requires Keyed(st) && Fits(st, m)
    ensures id in CompaniesOfDelta(st, m)
            <==> id in After(st, m).companies
                 && exists n :: n in m.delta && n in m.stage && OfCompany(m.stage[n], After(st, m).companies[id].ruc)
    ensures id in MarkedDocs(st, m)
            <==> || (id in After(st, m).documents
                     && exists n :: n in m.delta && n in m.stage && FactsOf(m.stage[n], After(st, m).documents[id]))
                 || (exists r :: r in After(st, m).roles && After(st, m).roles[r].doc == Some(id)
                       && After(st, m).roles[r].company in CompaniesOfDelta(st, m))
  {
    hide Keyed, Fits, DocIdOf, CompanyIdOf, DocsAfter, AttributesAfter, CompaniesAfter, RolesAfter, UpsertContacts, FactsOf, OfCompany;
    forall n | n in m.stage
      ensures DocIdOf(st, m, m.stage[n]) == Some(id)
              <==> id in After(st, m).documents && FactsOf(m.stage[n], After(st, m).documents[id])
      ensures CompanyIdOf(st, m, m.stage[n]) == Some(id)
              <==> id in After(st, m).companies && OfCompany(m.stage[n], After(st, m).companies[id].ruc)
    {
      DocJoinMeans(st, m, n, id);
      CompanyJoinMeans(st, m, n, id);
    }
  }
}
