/** The staging tables, the serving tables, and what a serving row ought to hold. */
module Projection {
  import opened Domain
  import opened Ranking

  type DocId = int
  type CompanyId = int
  type RoleId = int

  // ----- staging; columns that are copied as they are form one `rest` -----

  datatype Document = Document(docType: string, number: string)
  datatype Attribute = Attribute(fullName: string, rank: int, naturalRuc: Option<string>, rest: string)

  /** The current-state columns of a company. A column that is not in the map is null. */
  datatype Column = Status | Condition | CompanyType | EconomicActivity | Ubigeo | Department | Province | District
  type Facts = map<Column, string>

  datatype Company = Company(ruc: string, legalName: string, rank: int, facts: Facts, rest: string)

  /** The copied columns of a row that has none of them. */
  const NO_REST := ""

  datatype Role = Role(
    company: CompanyId,
    doc: Option<DocId>,
    repType: string,
    repNumber: string,
    repName: string,
    repNameRank: int,
    roleName: string,
    startDate: string)

  /** A phone with its confidence, or an email with its reliability. */
  datatype Contact = Contact(owner: int, text: string, weight: int)

  type Contacts = map<(int, string), int>

  datatype Staging = Staging(
    documents: map<DocId, Document>,
    attributes: map<DocId, Attribute>,
    companies: map<CompanyId, Company>,
    roles: map<RoleId, Role>,
    docPhones: Contacts,
    docEmails: Contacts,
    companyPhones: Contacts)

  /** The uniqueness key of `company`. */
  ghost predicate RucsUnique(st: Staging) {
    forall c, d :: c in st.companies && d in st.companies && st.companies[c].ruc == st.companies[d].ruc ==> c == d
  }

  // ----- serving -----

  /** Null where there is no attribute row. */
  datatype PersonColumns = PersonColumns(name: Option<string>, ruc: Option<string>, rest: string)

  /** Null where there is no primary role. */
  datatype OrgColumns = OrgColumns(
    ruc: Option<string>,
    name: Option<string>,
    facts: Facts,
    rest: string,
    roleName: Option<string>,
    roleStart: Option<string>,
    repType: Option<string>,
    repNumber: Option<string>,
    repName: Option<string>)

  datatype DocRow = DocRow(
    document: Document,
    person: PersonColumns,
    org: OrgColumns,
    email: Option<string>,
    phonePrimary: Option<string>,
    phoneSecondary: Option<string>)

  datatype CompanyRow = CompanyRow(
    ruc: string,
    legalName: Option<string>,
    facts: Facts,
    rest: string,
    phonePrimary: Option<string>,
    phoneSecondary: Option<string>)

  datatype Person = Person(
    docType: Option<string>,
    docNumber: Option<string>,
    name: Option<string>,
    roleName: Option<string>,
    startDate: Option<string>)

  /** The phone tables are keyed by phone and owner, the people by company and position. */
  datatype Serving = Serving(
    docRows: map<DocId, DocRow>,
    docPhones: set<(string, DocId)>,
    docFts: map<DocId, string>,
    docAgg: map<DocId, string>,
    companyRows: map<CompanyId, CompanyRow>,
    people: map<(CompanyId, nat), Person>,
    companyPhones: set<(string, CompanyId)>,
    companyFts: map<CompanyId, string>,
    rucAgg: map<string, string>)

  // ----- SQL idioms -----

  function NullIfEmpty(s: string): Option<string> { if s == "" then None else Some(s) }

  function OrEmpty(s: Option<string>): string { if s.Some? then s.value else "" }

  /** The one row of a result, or null. */
  function TheRow<T(==)>(rows: set<T>): Option<T> {
    if exists x :: x in rows && rows == {x} then
      var x :| x in rows && rows == {x};
      Some(x)
    else None
  }

  function Joined(texts: seq<string>): string {
    if texts == [] then "" else if |texts| == 1 then texts[0] else texts[0] + ";" + Joined(texts[1..])
  }

  /** `group_concat` over no rows makes no group. */
  function GroupConcat(texts: set<string>): Option<string> {
    if texts == {} then None else Some(Joined(SortedTexts(texts)))
  }

  // ----- rankings -----

  /** Heavier first, then by text. */
  predicate ContactBefore(a: Contact, b: Contact) {
    a.weight > b.weight || (a.weight == b.weight && TextLess(a.text, b.text))
  }

  function ContactsOf(table: Contacts, owner: int): set<Contact> {
    set k | k in table && k.0 == owner :: Contact(k.0, k.1, table[k])
  }

  /** Roles with a start date first, the latest first, then the oldest role. */
  predicate RoleBefore(roles: map<RoleId, Role>, a: RoleId, b: RoleId)
    requires a in roles && b in roles
  {
    var undatedA, undatedB := roles[a].startDate == "", roles[b].startDate == "";
    || (!undatedA && undatedB)
    || (undatedA == undatedB
        && (TextLess(roles[b].startDate, roles[a].startDate) || (roles[a].startDate == roles[b].startDate && a < b)))
  }

  function RoleOrder(roles: map<RoleId, Role>): (RoleId, RoleId) -> bool {
    (a, b) => a in roles && b in roles && RoleBefore(roles, a, b)
  }

  function RolesOfDoc(roles: map<RoleId, Role>, d: DocId): set<RoleId> {
    set r | r in roles && roles[r].doc == Some(d)
  }

  /** A role with neither a name nor a document names no one. */
  function PeopleOf(roles: map<RoleId, Role>, c: CompanyId): set<RoleId> {
    set r | r in roles && roles[r].company == c && (roles[r].repName != "" || roles[r].repNumber != "")
  }

  // ----- what the serving rows of one id ought to hold -----

  function NthContact(table: Contacts, owner: int, n: nat): Option<string> {
    var row := TheRow(Nth(ContactsOf(table, owner), ContactBefore, n));
    if row.Some? then Some(row.value.text) else None
  }

  function PrimaryRole(roles: map<RoleId, Role>, d: DocId): Option<RoleId> {
    TheRow(Nth(RolesOfDoc(roles, d), RoleOrder(roles), 1))
  }

  function PersonColumnsOf(attribute: Option<Attribute>): PersonColumns {
    match attribute
    case None => PersonColumns(None, None, NO_REST)
    case Some(a) => PersonColumns(NullIfEmpty(a.fullName), a.naturalRuc, a.rest)
  }

  function OrgColumnsOf(role: Option<Role>, company: Option<Company>): OrgColumns {
    OrgColumns(
      if company.Some? then NullIfEmpty(company.value.ruc) else None,
      if company.Some? then NullIfEmpty(company.value.legalName) else None,
      if company.Some? then company.value.facts else map[],
      if company.Some? then company.value.rest else NO_REST,
      if role.Some? then NullIfEmpty(role.value.roleName) else None,
      if role.Some? then NullIfEmpty(role.value.startDate) else None,
      if role.Some? then NullIfEmpty(role.value.repType) else None,
      if role.Some? then NullIfEmpty(role.value.repNumber) else None,
      if role.Some? then NullIfEmpty(role.value.repName) else None)
  }

  function PrimaryOrg(st: Staging, d: DocId): OrgColumns {
    var primary := PrimaryRole(st.roles, d);
    var role := if primary.Some? then At(st.roles, primary.value) else None;
    OrgColumnsOf(role, if role.Some? then At(st.companies, role.value.company) else None)
  }

  /** The joins of one document's row, given its ranked columns. */
  function JoinedRow(st: Staging, d: DocId, email: Option<string>, first: Option<string>, second: Option<string>): DocRow
    requires d in st.documents
  {
    DocRow(st.documents[d], PersonColumnsOf(At(st.attributes, d)), PrimaryOrg(st, d), email, first, second)
  }

  function DocRowOf(st: Staging, d: DocId): Option<DocRow> {
    if d !in st.documents then None
    else Some(JoinedRow(st, d, NthContact(st.docEmails, d, 1), NthContact(st.docPhones, d, 1), NthContact(st.docPhones, d, 2)))
  }

  function TextsOf(table: Contacts, owner: int): set<string> {
    set k | k in table && k.0 == owner :: k.1
  }

  /** All the serving tables say about one document. */
  datatype DocServing = DocServing(row: Option<DocRow>, phones: set<string>, fts: Option<string>, agg: Option<string>)

  function DocView(st: Staging, d: DocId): DocServing {
    var row := DocRowOf(st, d);
    DocServing(row, TextsOf(st.docPhones, d), if row.Some? then Some(OrEmpty(row.value.person.name)) else None,
               GroupConcat(TextsOf(st.docPhones, d)))
  }

  function At<K, V>(m: map<K, V>, k: K): Option<V> { if k in m then Some(m[k]) else None }

  function PhonesAt(index: set<(string, int)>, owner: int): set<string> {
    set p | p in index && p.1 == owner :: p.0
  }

  function DocServed(sv: Serving, d: DocId): DocServing {
    DocServing(At(sv.docRows, d), PhonesAt(sv.docPhones, d), At(sv.docFts, d), At(sv.docAgg, d))
  }

  const LISTED_PEOPLE: nat := 10

  function PersonOf(role: Role): Person {
    Person(NullIfEmpty(role.repType), NullIfEmpty(role.repNumber), NullIfEmpty(role.repName),
           NullIfEmpty(role.roleName), NullIfEmpty(role.startDate))
  }

  /** The people with numbers 1 to 10. */
  function PeopleListed(roles: map<RoleId, Role>, c: CompanyId): map<nat, Person> {
    map n: nat | 1 <= n <= LISTED_PEOPLE && PersonAt(roles, c, n).Some? :: PersonAt(roles, c, n).value
  }

  function PersonAt(roles: map<RoleId, Role>, c: CompanyId, n: nat): Option<Person> {
    var row := TheRow(Nth(PeopleOf(roles, c), RoleOrder(roles), n));
    if row.Some? && row.value in roles then Some(PersonOf(roles[row.value])) else None
  }

  function PeopleServed(people: map<(CompanyId, nat), Person>, c: CompanyId): map<nat, Person> {
    map k | k in people && k.0 == c :: k.1 := people[k]
  }

  function CompanyRowOf(st: Staging, c: CompanyId): Option<CompanyRow> {
    if c !in st.companies then None
    else
      var company := st.companies[c];
      Some(CompanyRow(company.ruc, NullIfEmpty(company.legalName), company.facts, company.rest,
                      NthContact(st.companyPhones, c, 1), NthContact(st.companyPhones, c, 2)))
  }

  /** All the serving tables say about one company; a company's row in `ruc_phone_agg` is its ruc's. */
  datatype CompanyServing = CompanyServing(
    row: Option<CompanyRow>,
    people: map<nat, Person>,
    phones: set<string>,
    fts: Option<string>,
    agg: Option<string>)

  function CompanyView(st: Staging, c: CompanyId): CompanyServing {
    var row := CompanyRowOf(st, c);
    CompanyServing(row, PeopleListed(st.roles, c), TextsOf(st.companyPhones, c),
                   if row.Some? then Some(OrEmpty(row.value.legalName)) else None,
                   if c in st.companies then GroupConcat(TextsOf(st.companyPhones, c)) else None)
  }

  function CompanyServed(st: Staging, sv: Serving, c: CompanyId): CompanyServing {
    CompanyServing(At(sv.companyRows, c), PeopleServed(sv.people, c),
                   PhonesAt(sv.companyPhones, c), At(sv.companyFts, c),
                   if c in st.companies then At(sv.rucAgg, st.companies[c].ruc) else None)
  }

  // ----- what the rankings mean -----

  lemma ContactsOrdered(table: Contacts, owner: int)
    ensures Ordered(ContactsOf(table, owner), ContactBefore)
  {
    var rows := ContactsOf(table, owner);
    forall x, y | x in rows && y in rows && x != y ensures ContactBefore(x, y) || ContactBefore(y, x) {
      TextConnected(x.text, y.text);
    }
    forall x | x in rows ensures !ContactBefore(x, x) { TextConnected(x.text, x.text); }
    forall x, y, z | x in rows && y in rows && z in rows && ContactBefore(x, y) && ContactBefore(y, z)
      ensures ContactBefore(x, z)
    {
      if x.weight == y.weight == z.weight { TextTransitive(x.text, y.text, z.text); }
    }
  }

  /** `text` outweighs every other contact of the owner, and comes first among those as heavy. */
  ghost predicate Best(table: Contacts, owner: int, text: string) {
    && (owner, text) in table
    && forall other :: (owner, other) in table && other != text ==>
         || table[(owner, other)] < table[(owner, text)]
         || (table[(owner, other)] == table[(owner, text)] && TextLess(text, other))
  }

  lemma FirstContactIsBest(table: Contacts, owner: int, text: string)
    ensures NthContact(table, owner, 1) == Some(text) <==> Best(table, owner, text)
  {
    var rows := ContactsOf(table, owner);
    ContactsOrdered(table, owner);
    if (owner, text) in table {
      var x := Contact(owner, text, table[(owner, text)]);
      assert x in rows;
      if Best(table, owner, text) {
        forall y | y in Ahead(rows, ContactBefore, x) ensures false { TextConnected(y.text, text); }
        assert Ahead(rows, ContactBefore, x) == {};
        OnlyOne(rows, ContactBefore, 1, x);
      } else if NthContact(table, owner, 1) == Some(text) {
        assert x in Nth(rows, ContactBefore, 1) && Ahead(rows, ContactBefore, x) == {};
        forall other | (owner, other) in table && other != text
          ensures table[(owner, other)] < table[(owner, text)]
                  || (table[(owner, other)] == table[(owner, text)] && TextLess(text, other))
        {
          var y := Contact(owner, other, table[(owner, other)]);
          assert y in rows && y !in Ahead(rows, ContactBefore, x);
          TextConnected(other, text);
        }
      }
    }
  }

  /** Taking the first row away, the second becomes the first. */
  lemma SecondIsFirstOfRest(rows: set<Contact>, x: Contact)
    requires Ordered(rows, ContactBefore) && x in rows && Ahead(rows, ContactBefore, x) == {}
    ensures Nth(rows, ContactBefore, 2) == Nth(rows - {x}, ContactBefore, 1)
  {
    forall y | y in rows && y != x ensures RowNumber(rows, ContactBefore, y) == RowNumber(rows - {x}, ContactBefore, y) + 1 {
      assert y !in Ahead(rows, ContactBefore, x);
      assert Ahead(rows, ContactBefore, y) == Ahead(rows - {x}, ContactBefore, y) + {x};
    }
  }

  /** A second phone is served exactly when there are two, and it is the best of the others. */
  lemma SecondContactIsNextBest(table: Contacts, owner: int, first: string, second: string)
    requires NthContact(table, owner, 1) == Some(first)
    ensures NthContact(table, owner, 2) == Some(second) <==> first != second && Best(table - {(owner, first)}, owner, second)
  {
    hide ContactBefore, Best, TextLess;
    var rows := ContactsOf(table, owner);
    ContactsOrdered(table, owner);
    FirstContactIsBest(table, owner, first);
    BestIsThere(table, owner, first);
    var x := Contact(owner, first, table[(owner, first)]);
    NoneAhead(rows, x, table, owner, first);
    SecondIsFirstOfRest(rows, x);
    assert ContactsOf(table - {(owner, first)}, owner) == rows - {x};
    FirstContactIsBest(table - {(owner, first)}, owner, second);
    BestIsThere(table - {(owner, first)}, owner, second);
  }

  lemma BestIsThere(table: Contacts, owner: int, text: string)
    ensures Best(table, owner, text) ==> (owner, text) in table
  {
  }

  lemma NoneAhead(rows: set<Contact>, x: Contact, table: Contacts, owner: int, text: string)
    requires (owner, text) in table
    requires rows == ContactsOf(table, owner) && Best(table, owner, text) && x == Contact(owner, text, table[(owner, text)])
    ensures Ahead(rows, ContactBefore, x) == {}
  {
    forall y | y in Ahead(rows, ContactBefore, x) ensures false { TextConnected(y.text, text); }
  }

  lemma RolesOrdered(roles: map<RoleId, Role>, some: set<RoleId>)
    requires some <= roles.Keys
    ensures Ordered(some, RoleOrder(roles))
  {
    var before := RoleOrder(roles);
    forall a, b | a in some && b in some && a != b ensures before(a, b) || before(b, a) {
      TextConnected(roles[a].startDate, roles[b].startDate);
    }
    forall a | a in some ensures !before(a, a) { TextConnected(roles[a].startDate, roles[a].startDate); }
    forall a, b, c | a in some && b in some && c in some && before(a, b) && before(b, c) ensures before(a, c) {
      if TextLess(roles[c].startDate, roles[b].startDate) && TextLess(roles[b].startDate, roles[a].startDate) {
        TextTransitive(roles[c].startDate, roles[b].startDate, roles[a].startDate);
      }
    }
  }

  lemma PrimaryRoleIsFirst(roles: map<RoleId, Role>, d: DocId, r: RoleId)
    ensures PrimaryRole(roles, d) == Some(r)
            <==> r in RolesOfDoc(roles, d) && forall q :: q in RolesOfDoc(roles, d) && q != r ==> RoleBefore(roles, r, q)
  {
    var mine, before := RolesOfDoc(roles, d), RoleOrder(roles);
    RolesOrdered(roles, mine);
    if r in mine {
      if PrimaryRole(roles, d) == Some(r) {
        assert r in Nth(mine, before, 1) && Ahead(mine, before, r) == {};
        forall q | q in mine && q != r ensures RoleBefore(roles, r, q) { assert q !in Ahead(mine, before, r); }
      }
      if forall q :: q in mine && q != r ==> RoleBefore(roles, r, q) {
        assert forall q :: q in mine ==> !(before(q, r) && before(r, q) && before(q, q));
        assert Ahead(mine, before, r) == {};
        OnlyOne(mine, before, 1, r);
      }
    }
  }

  /** A company's people are listed from position 1 without a gap, all of them or the first ten. */
  lemma PeopleHaveNoGaps(roles: map<RoleId, Role>, c: CompanyId)
    ensures forall n: nat :: n in PeopleListed(roles, c) <==> 1 <= n <= LISTED_PEOPLE && n <= |PeopleOf(roles, c)|
  {
    var people, before := PeopleOf(roles, c), RoleOrder(roles);
    RolesOrdered(roles, people);
    forall n: nat | 1 <= n <= LISTED_PEOPLE ensures PersonAt(roles, c, n).Some? <==> n <= |people| {
      if n <= |people| {
        NthExists(people, before, n);
        var r :| Nth(people, before, n) == {r};
        assert r in Nth(people, before, n);
        assert TheRow(Nth(people, before, n)) == Some(r);
      } else {
        forall r | r in people ensures RowNumber(people, before, r) <= |people| { RowNumberInRange(people, before, r); }
        assert Nth(people, before, n) == {};
      }
    }
  }

  // ----- agreement -----

  predicate IsRucOf(st: Staging, ruc: string) { exists c :: c in st.companies && st.companies[c].ruc == ruc }

  /** Every id outside the dirty sets is served as it ought to be, and no ruc is served that no company has. */
  ghost predicate Agrees(st: Staging, sv: Serving, dirtyDocs: set<DocId>, dirtyCompanies: set<CompanyId>) {
    && (forall d :: d !in dirtyDocs ==> DocServed(sv, d) == DocView(st, d))
    && (forall c :: c !in dirtyCompanies ==> CompanyServed(st, sv, c) == CompanyView(st, c))
    && (forall ruc :: ruc in sv.rucAgg ==> IsRucOf(st, ruc))
  }
}
