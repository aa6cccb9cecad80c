/** What the merge of one shard writes to the staging tables, and which ids it marks dirty. */
module Upserts {
  import opened Domain
  import opened Ranking
  import opened Projection

  /** A row of the shard; text columns hold empty text for nothing. */
  datatype StagedRow = StagedRow(
    dni: Option<string>,
    naturalRuc: Option<string>,
    fullName: string,
    email: Option<string>,
    companyRuc: Option<string>,
    companyName: string,
    facts: map<Column, string>,
    repType: string,
    repNumber: string,
    repName: string,
    roleName: string,
    startDate: string,
    phones: seq<string>,
    hadPhoneInput: bool)

  /** By source row number. */
  type Stage = map<int, StagedRow>

  /** The uniqueness key of `company_role`. */
  datatype RoleKey = RoleKey(company: CompanyId, repType: string, repNumber: string, roleName: string, startDate: string)

  function KeyOf(role: Role): RoleKey {
    RoleKey(role.company, role.repType, role.repNumber, role.roleName, role.startDate)
  }

  /** A row of the statement that upserts roles. */
  datatype RoleSource = RoleSource(key: RoleKey, doc: Option<DocId>, repName: string)

  /**
   * One merge. The environment chooses the ids of new rows and the order in which the role statement
   * reads its rows; `delta` are the rows whose hash is new.
   */
  datatype Merge = Merge(
    stage: Stage,
    rank: int,
    delta: set<int>,
    newDocs: map<DocId, Document>,
    newCompanies: map<CompanyId, string>,
    newRoles: map<RoleId, RoleKey>,
    order: seq<RoleSource>)

  // ----- what a row names -----

  function Present(text: Option<string>): Option<string> {
    if text.Some? && text.value != "" then text else None
  }

  function RepKey(row: StagedRow): Option<Document> {
    if row.repType != "" && row.repNumber != "" then Some(Document(row.repType, row.repNumber)) else None
  }

  function DniKey(row: StagedRow): Option<Document> {
    if Present(row.dni).Some? then Some(Document("DNI", row.dni.value)) else None
  }

  predicate Names(row: StagedRow, key: Document) { RepKey(row) == Some(key) || DniKey(row) == Some(key) }

  /** The document a row's facts go to: the representative's, or else the person's. */
  function RowDoc(row: StagedRow): Option<Document> {
    if RepKey(row).Some? then RepKey(row) else DniKey(row)
  }

  function NamedBy(stage: Stage): set<Document> {
    (set n | n in stage && RepKey(stage[n]).Some? :: RepKey(stage[n]).value)
    + (set n | n in stage && DniKey(stage[n]).Some? :: DniKey(stage[n]).value)
  }

  function RucOf(row: StagedRow): Option<string> { Present(row.companyRuc) }

  function RucsIn(stage: Stage): set<string> {
    set n | n in stage && RucOf(stage[n]).Some? :: RucOf(stage[n]).value
  }

  // ----- one row per document and per company -----

  /** `MAX` over text, and empty text over nothing. */
  function MaxText(s: set<string>): string {
    var sorted := SortedTexts(s);
    if sorted == [] then "" else sorted[|sorted| - 1]
  }

  function RepName(row: StagedRow): string { if row.repName != "" then row.repName else row.fullName }

  function NamesFor(stage: Stage, key: Document): set<string> {
    (set n | n in stage && RepKey(stage[n]) == Some(key) :: RepName(stage[n]))
    + (set n | n in stage && DniKey(stage[n]) == Some(key) :: stage[n].fullName)
  }

  function RucsFor(stage: Stage, key: Document): set<string> {
    set n | n in stage && Names(stage[n], key) :: OrEmpty(stage[n].naturalRuc)
  }

  function GivenAttribute(m: Merge, key: Document): Attribute {
    Attribute(MaxText(NamesFor(m.stage, key)), m.rank, NullIfEmpty(MaxText(RucsFor(m.stage, key))), NO_REST)
  }

  function CompanyNames(stage: Stage, ruc: string): set<string> {
    set n | n in stage && RucOf(stage[n]) == Some(ruc) :: stage[n].companyName
  }

  function FactTexts(stage: Stage, ruc: string, column: Column): set<string> {
    set n | n in stage && RucOf(stage[n]) == Some(ruc) && column in stage[n].facts :: stage[n].facts[column]
  }

  function GivenFacts(stage: Stage, ruc: string): Facts {
    map column: Column | MaxText(FactTexts(stage, ruc, column)) != "" :: MaxText(FactTexts(stage, ruc, column))
  }

  function GivenCompany(m: Merge, ruc: string): Company {
    Company(ruc, MaxText(CompanyNames(m.stage, ruc)), m.rank, GivenFacts(m.stage, ruc), NO_REST)
  }

  // ----- the upserts -----

  /** A name gives way to one of the same or a higher rank. */
  predicate Takes(knownRank: int, name: string, rank: int) { name != "" && rank >= knownRank }

  /** The `WHERE` of the upsert of `document_attribute`. */
  predicate RewritesAttribute(known: Attribute, given: Attribute) {
    || (Takes(known.rank, given.fullName, given.rank) && given.fullName != known.fullName)
    || (given.naturalRuc.Some? && given.naturalRuc != known.naturalRuc)
  }

  function UpsertAttribute(known: Attribute, given: Attribute): Attribute {
    var takes := Takes(known.rank, given.fullName, given.rank);
    if !RewritesAttribute(known, given) then known
    else Attribute(
      if takes then given.fullName else known.fullName,
      if takes then given.rank else known.rank,
      if given.naturalRuc.Some? then given.naturalRuc else known.naturalRuc,
      known.rest)
  }

  /** The `WHERE` of the upsert of `company`: any fact will do, whatever it was before and whoever says so. */
  predicate RewritesCompany(known: Company, given: Company) {
    || (Takes(known.rank, given.legalName, given.rank) && given.legalName != known.legalName)
    || given.facts != map[]
  }

  function UpsertCompany(known: Company, given: Company): Company {
    var takes := Takes(known.rank, given.legalName, given.rank);
    if !RewritesCompany(known, given) then known
    else Company(
      known.ruc,
      if takes then given.legalName else known.legalName,
      if takes then given.rank else known.rank,
      known.facts + given.facts,
      known.rest)
  }

  /** The `WHERE` of the upsert of `company_role`. */
  predicate RewritesRole(role: Role, source: RoleSource, rank: int) {
    || (role.doc.None? && source.doc.Some?)
    || (Takes(role.repNameRank, source.repName, rank) && source.repName != role.repName)
  }

  function UpsertRole(role: Option<Role>, source: RoleSource, rank: int): Role {
    var key := source.key;
    if role.None? then
      Role(key.company, source.doc, key.repType, key.repNumber, source.repName, rank, key.roleName, key.startDate)
    else
      var known := role.value;
      var takes := Takes(known.repNameRank, source.repName, rank);
      if !RewritesRole(known, source, rank) then known
      else known.(
        doc := if known.doc.Some? then known.doc else source.doc,
        repName := if takes then source.repName else known.repName,
        repNameRank := if takes then rank else known.repNameRank)
  }

  /** A name gives way only to one of the same or a higher rank, and what is known is never lost. */
  lemma IdentityNeverDegrades(known: Attribute, given: Attribute)
    ensures
      var after := UpsertAttribute(known, given);
      && after.rank >= known.rank
      && (after.fullName != known.fullName ==> given.rank >= known.rank && after.fullName == given.fullName)
      && (known.fullName != "" ==> after.fullName != "")
      && (known.naturalRuc.Some? ==> after.naturalRuc.Some?)
      && (given.naturalRuc.Some? ==> after.naturalRuc == given.naturalRuc)
      && (given.fullName != "" && given.rank >= known.rank ==> after.fullName == given.fullName)
      && UpsertAttribute(after, given) == after
  {
  }

  // ----- the statement over roles -----

  /** What the statement makes of the row with `key` after the first rows of `order`; sources with another key pass it by. */
  function RoleAfter(role: Option<Role>, key: RoleKey, order: seq<RoleSource>, rank: int): Option<Role> {
    if order == [] then role
    else
      var before, source := RoleAfter(role, key, order[..|order| - 1], rank), order[|order| - 1];
      if source.key == key then Some(UpsertRole(before, source, rank)) else before
  }

  /** The last name that is offered for `key`. */
  function LastName(order: seq<RoleSource>, key: RoleKey): string {
    if order == [] then ""
    else
      var source := order[|order| - 1];
      if source.key == key && source.repName != "" then source.repName else LastName(order[..|order| - 1], key)
  }

  /** The first document that is offered for `key`. */
  function FirstDoc(order: seq<RoleSource>, key: RoleKey): Option<DocId> {
    if order == [] then None
    else
      var before, source := FirstDoc(order[..|order| - 1], key), order[|order| - 1];
      if before.None? && source.key == key then source.doc else before
  }

  /** However many rows offer a name, the last one counts, if its rank is enough; and the first document, if there was none. */
  lemma {:induction false} RoleAfterIs(role: Role, order: seq<RoleSource>, rank: int)
    ensures
      var after, name := RoleAfter(Some(role), KeyOf(role), order, rank), LastName(order, KeyOf(role));
      && after.Some? && KeyOf(after.value) == KeyOf(role)
      && after.value.repName == (if Takes(role.repNameRank, name, rank) then name else role.repName)
      && after.value.doc == (if role.doc.Some? then role.doc else FirstDoc(order, KeyOf(role)))
      && (after.value.repNameRank == role.repNameRank || (after.value.repNameRank == rank && rank >= role.repNameRank))
  {
    if order != [] { RoleAfterIs(role, order[..|order| - 1], rank); }
  }

  lemma {:induction false} NewRoleAfterIs(key: RoleKey, order: seq<RoleSource>, rank: int)
    ensures
      var after := RoleAfter(None, key, order, rank);
      && (after.Some? <==> exists i :: 0 <= i < |order| && order[i].key == key)
      && (after.Some? ==> KeyOf(after.value) == key)
  {
    if order != [] {
      var before := order[..|order| - 1];
      NewRoleAfterIs(key, before, rank);
      if i :| 0 <= i < |order| && order[i].key == key { assert i < |order| - 1 ==> before[i].key == key; }
      if i :| 0 <= i < |before| && before[i].key == key { assert order[i].key == key; }
    }
  }

  // ----- the tables afterwards -----

  function DocsAfter(st: Staging, m: Merge): map<DocId, Document> { st.documents + m.newDocs }

  function AttributeAfter(st: Staging, m: Merge, d: DocId, key: Document): Attribute {
    if d in st.attributes then UpsertAttribute(st.attributes[d], GivenAttribute(m, key)) else GivenAttribute(m, key)
  }

  /** Every staged row counts here and below, whether or not it is in the delta. */
  function AttributesAfter(st: Staging, m: Merge): map<DocId, Attribute> {
    var docs := DocsAfter(st, m);
    st.attributes + map d | d in docs && docs[d] in NamedBy(m.stage) :: AttributeAfter(st, m, d, docs[d])
  }

  function RucsKnown(st: Staging): map<CompanyId, string> { map c | c in st.companies :: st.companies[c].ruc }

  function RucsAfter(st: Staging, m: Merge): map<CompanyId, string> { RucsKnown(st) + m.newCompanies }

  function CompanyAfter(st: Staging, m: Merge, c: CompanyId, ruc: string): Company {
    if c in st.companies then UpsertCompany(st.companies[c], GivenCompany(m, ruc)) else GivenCompany(m, ruc)
  }

  function CompaniesAfter(st: Staging, m: Merge): map<CompanyId, Company> {
    var rucs := RucsAfter(st, m);
    st.companies + map c | c in rucs && rucs[c] in RucsIn(m.stage) :: CompanyAfter(st, m, c, rucs[c])
  }

  /** A left join on a unique key. */
  function Join<K(==)>(rows: map<int, K>, key: Option<K>): Option<int> {
    TheRow(set a | a in rows && key == Some(rows[a]))
  }

  function DocIdOf(st: Staging, m: Merge, row: StagedRow): Option<DocId> { Join(DocsAfter(st, m), RowDoc(row)) }

  function CompanyIdOf(st: Staging, m: Merge, row: StagedRow): Option<CompanyId> { Join(RucsAfter(st, m), RucOf(row)) }

  predicate NamesRole(row: StagedRow) { row.roleName != "" || row.repNumber != "" || row.repName != "" }

  function SourceOf(st: Staging, m: Merge, row: StagedRow, c: CompanyId): RoleSource {
    RoleSource(RoleKey(c, row.repType, row.repNumber, row.roleName, row.startDate), DocIdOf(st, m, row), row.repName)
  }

  function RoleSources(st: Staging, m: Merge): set<RoleSource> {
    set n | n in m.stage && CompanyIdOf(st, m, m.stage[n]).Some? && NamesRole(m.stage[n]) ::
      SourceOf(st, m, m.stage[n], CompanyIdOf(st, m, m.stage[n]).value)
  }

  function KeysKnown(st: Staging): map<RoleId, RoleKey> { map r | r in st.roles :: KeyOf(st.roles[r]) }

  function KeysAfter(st: Staging, m: Merge): map<RoleId, RoleKey> { KeysKnown(st) + m.newRoles }

  function RolesAfter(st: Staging, m: Merge): map<RoleId, Role> {
    var keys := KeysAfter(st, m);
    map r | r in keys && RoleAfter(At(st.roles, r), keys[r], m.order, m.rank).Some? ::
      RoleAfter(At(st.roles, r), keys[r], m.order, m.rank).value
  }

  function PhonesIn(row: StagedRow): seq<string> { if row.hadPhoneInput then row.phones else [] }

  function DocPhonesIn(st: Staging, m: Merge, d: DocId): set<string> {
    set n, p | n in m.stage && p in PhonesIn(m.stage[n]) && DocIdOf(st, m, m.stage[n]) == Some(d) :: p
  }

  /** Phones without a document fall through to the company. */
  function CompanyPhonesIn(st: Staging, m: Merge, c: CompanyId): set<string> {
    set n, p | n in m.stage && p in PhonesIn(m.stage[n]) && DocIdOf(st, m, m.stage[n]).None?
               && CompanyIdOf(st, m, m.stage[n]) == Some(c) :: p
  }

  /** Emails come from the delta alone. */
  function EmailsIn(st: Staging, m: Merge, d: DocId): set<string> {
    set n | n in m.delta && n in m.stage && m.stage[n].email.Some? && DocIdOf(st, m, m.stage[n]) == Some(d) ::
      m.stage[n].email.value
  }

  function Heavier(a: int, b: int): int { if a >= b then a else b }

  /** A contact that is there keeps the greater weight. */
  function UpsertContacts(table: Contacts, owners: set<int>, texts: int -> set<string>, rank: int): Contacts {
    table + map o, t | o in owners && t in texts(o) :: (o, t) := if (o, t) in table then Heavier(table[(o, t)], rank) else rank
  }

  function After(st: Staging, m: Merge): Staging {
    Staging(
      DocsAfter(st, m), AttributesAfter(st, m), CompaniesAfter(st, m), RolesAfter(st, m),
      UpsertContacts(st.docPhones, DocsAfter(st, m).Keys, d => DocPhonesIn(st, m, d), m.rank),
      UpsertContacts(st.docEmails, DocsAfter(st, m).Keys, d => EmailsIn(st, m, d), m.rank),
      UpsertContacts(st.companyPhones, RucsAfter(st, m).Keys, c => CompanyPhonesIn(st, m, c), m.rank))
  }

  // ----- what is marked -----

  function DocsOfDelta(st: Staging, m: Merge): set<DocId> {
    set n | n in m.delta && n in m.stage && DocIdOf(st, m, m.stage[n]).Some? :: DocIdOf(st, m, m.stage[n]).value
  }

  function CompaniesOfDelta(st: Staging, m: Merge): set<CompanyId> {
    set n | n in m.delta && n in m.stage && CompanyIdOf(st, m, m.stage[n]).Some? :: CompanyIdOf(st, m, m.stage[n]).value
  }

  /** The documents with a role at one of the companies. */
  function HoldersAt(roles: map<RoleId, Role>, companies: set<CompanyId>): set<DocId> {
    set r | r in roles && roles[r].company in companies && roles[r].doc.Some? :: roles[r].doc.value
  }

  function MarkedDocs(st: Staging, m: Merge): set<DocId> {
    DocsOfDelta(st, m) + HoldersAt(RolesAfter(st, m), CompaniesOfDelta(st, m))
  }

  // ----- keys -----

  ghost predicate Distinct<K(!new)>(rows: map<int, K>) {
    forall a, b :: a in rows && b in rows && rows[a] == rows[b] ==> a == b
  }

  ghost predicate Has<K(!new)>(rows: map<int, K>, key: K) { exists a :: a in rows && rows[a] == key }

  /** The uniqueness and foreign keys that the serving tables depend on. */
  ghost predicate Keyed(st: Staging) {
    && Distinct(st.documents) && Distinct(RucsKnown(st)) && Distinct(KeysKnown(st))
    && (forall c :: c in st.companies ==> st.companies[c].ruc != "")
    && (forall r :: r in st.roles ==> st.roles[r].company in st.companies)
  }

  /** New rows for exactly the keys that had none, under ids that were not in use. */
  ghost predicate Inserts<K(!new)>(known: map<int, K>, wanted: set<K>, given: map<int, K>) {
    && given.Keys !! known.Keys && Distinct(given)
    && forall k :: Has(given, k) <==> k in wanted && !Has(known, k)
  }

  function RoleKeysIn(st: Staging, m: Merge): set<RoleKey> { set s | s in RoleSources(st, m) :: s.key }

  /** The environment's part: ids for the new rows, and some order for the distinct role sources. */
  ghost predicate Fits(st: Staging, m: Merge) {
    && Inserts(st.documents, NamedBy(m.stage), m.newDocs)
    && Inserts(RucsKnown(st), RucsIn(m.stage), m.newCompanies)
    && Inserts(KeysKnown(st), RoleKeysIn(st, m), m.newRoles)
    && (forall s :: s in m.order <==> s in RoleSources(st, m))
    && (forall i, j :: 0 <= i < j < |m.order| ==> m.order[i] != m.order[j])
  }
}
