/** Merges that touch no more than they mark, and every run of merges, drains and crashes. */
module MergeRuns {
  import opened Domain
  import opened Ranking
  import opened Projection
  import opened Upserts
  import opened RowHash
  import opened Materialize
  import opened Drain
  import Staleness

  // ----- a merge that touches no more than it marks -----

  /** A role is added, stays, or gets a document or a name: its company and key never change. */
  predicate RoleUpserted(before: Role, after: Role) {
    && after.company == before.company && after.repType == before.repType && after.repNumber == before.repNumber
    && after.roleName == before.roleName && after.startDate == before.startDate
    && (before.doc.Some? ==> after.doc == before.doc)
  }

  predicate SameContacts(a: Contacts, b: Contacts, owner: int) {
    && (forall k :: k in a && k.0 == owner ==> k in b && b[k] == a[k])
    && (forall k :: k in b && k.0 == owner ==> k in a)
  }

  /** Only `docs`, `companies`, and the roles of those companies differ, and nothing is deleted. */
  ghost predicate TouchesOnly(before: Staging, after: Staging, docs: set<DocId>, companies: set<CompanyId>) {
    && (forall d :: d !in docs ==>
          && At(after.documents, d) == At(before.documents, d) && At(after.attributes, d) == At(before.attributes, d)
          && SameContacts(before.docPhones, after.docPhones, d) && SameContacts(before.docEmails, after.docEmails, d))
    && (forall c :: c in before.companies ==> c in after.companies && after.companies[c].ruc == before.companies[c].ruc)
    && (forall c :: c !in companies ==>
          At(after.companies, c) == At(before.companies, c) && SameContacts(before.companyPhones, after.companyPhones, c))
    && (forall r :: r in before.roles ==> r in after.roles && RoleUpserted(before.roles[r], after.roles[r]))
    && (forall r :: r in after.roles && after.roles[r].company !in companies ==>
          r in before.roles && after.roles[r] == before.roles[r])
  }

  lemma SameContactsSameNth(a: Contacts, b: Contacts, owner: int, n: nat)
    requires SameContacts(a, b, owner)
    ensures NthContact(a, owner, n) == NthContact(b, owner, n) && TextsOf(a, owner) == TextsOf(b, owner)
  {
    assert ContactsOf(a, owner) == ContactsOf(b, owner);
  }

  /** A document that is neither touched nor a holder at a touched company keeps its roles as they are. */
  lemma SamePrimaryRole(before: Staging, after: Staging, docs: set<DocId>, companies: set<CompanyId>, d: DocId)
    requires TouchesOnly(before, after, docs, companies) && d !in HoldersAt(after.roles, companies)
    ensures PrimaryRole(after.roles, d) == PrimaryRole(before.roles, d)
    ensures forall r :: r in RolesOfDoc(after.roles, d) ==> r in before.roles && after.roles[r] == before.roles[r]
  {
    var mine := RolesOfDoc(after.roles, d);
    forall r | r in mine ensures r in before.roles && after.roles[r] == before.roles[r] && after.roles[r].company !in companies {
      assert after.roles[r].company in companies ==> d in HoldersAt(after.roles, companies);
    }
    forall r | r in RolesOfDoc(before.roles, d) ensures r in mine { assert RoleUpserted(before.roles[r], after.roles[r]); }
    assert RolesOfDoc(before.roles, d) == mine;
    forall a, b | a in mine && b in mine ensures RoleOrder(after.roles)(a, b) == RoleOrder(before.roles)(a, b) {
    }
    forall r | r in mine ensures RowNumber(mine, RoleOrder(after.roles), r) == RowNumber(mine, RoleOrder(before.roles), r) {
      assert Ahead(mine, RoleOrder(after.roles), r) == Ahead(mine, RoleOrder(before.roles), r);
    }
    assert Nth(mine, RoleOrder(after.roles), 1) == Nth(mine, RoleOrder(before.roles), 1);
  }

  lemma UnmarkedDocView(before: Staging, after: Staging, docs: set<DocId>, companies: set<CompanyId>, d: DocId)
    requires TouchesOnly(before, after, docs, companies) && d !in docs && d !in HoldersAt(after.roles, companies)
    ensures DocView(after, d) == DocView(before, d)
  {
    hide PrimaryRole, NthContact, TextsOf, GroupConcat, RoleUpserted;
    SameContactsSameNth(before.docPhones, after.docPhones, d, 1);
    SameContactsSameNth(before.docPhones, after.docPhones, d, 2);
    SameContactsSameNth(before.docEmails, after.docEmails, d, 1);
    SamePrimaryRole(before, after, docs, companies, d);
    PrimaryRoleIsMine(after.roles, d);
    assert At(after.documents, d) == At(before.documents, d) && At(after.attributes, d) == At(before.attributes, d);
    var primary := PrimaryRole(after.roles, d);
    if primary.Some? {
      UntouchedCompany(before, after, docs, companies, d, primary.value);
    }
    assert DocRowOf(after, d) == DocRowOf(before, d);
  }

  lemma PrimaryRoleIsMine(roles: map<RoleId, Role>, d: DocId)
    ensures PrimaryRole(roles, d).Some? ==> PrimaryRole(roles, d).value in RolesOfDoc(roles, d)
  {
  }

  lemma UntouchedCompany(before: Staging, after: Staging, docs: set<DocId>, companies: set<CompanyId>, d: DocId, r: RoleId)
    requires TouchesOnly(before, after, docs, companies) && d !in HoldersAt(after.roles, companies)
    requires r in RolesOfDoc(after.roles, d)
    ensures At(after.companies, after.roles[r].company) == At(before.companies, after.roles[r].company)
  {
    assert after.roles[r].company in companies ==> d in HoldersAt(after.roles, companies);
  }

  lemma SamePersonAt(before: Staging, after: Staging, docs: set<DocId>, companies: set<CompanyId>, c: CompanyId, n: nat)
    requires TouchesOnly(before, after, docs, companies) && c !in companies
    ensures PersonAt(after.roles, c, n) == PersonAt(before.roles, c, n)
  {
    var people := PeopleOf(after.roles, c);
    forall r | r in PeopleOf(before.roles, c) ensures r in people { assert RoleUpserted(before.roles[r], after.roles[r]); }
    forall r | r in people ensures r in PeopleOf(before.roles, c) && before.roles[r] == after.roles[r] {
      assert after.roles[r].company !in companies;
    }
    assert PeopleOf(before.roles, c) == people;
    forall r | r in people ensures RowNumber(people, RoleOrder(after.roles), r) == RowNumber(people, RoleOrder(before.roles), r) {
      assert Ahead(people, RoleOrder(after.roles), r) == Ahead(people, RoleOrder(before.roles), r);
    }
    assert Nth(people, RoleOrder(after.roles), n) == Nth(people, RoleOrder(before.roles), n);
  }

  lemma UnmarkedCompanyView(before: Staging, after: Staging, docs: set<DocId>, companies: set<CompanyId>, c: CompanyId)
    requires TouchesOnly(before, after, docs, companies) && c !in companies
    ensures CompanyView(after, c) == CompanyView(before, c)
  {
    hide PersonAt, NthContact, TextsOf, GroupConcat, RoleUpserted;
    SameContactsSameNth(before.companyPhones, after.companyPhones, c, 1);
    SameContactsSameNth(before.companyPhones, after.companyPhones, c, 2);
    forall n: nat ensures PersonAt(after.roles, c, n) == PersonAt(before.roles, c, n) {
      SamePersonAt(before, after, docs, companies, c, n);
    }
    assert At(after.companies, c) == At(before.companies, c);
  }

  /** A merge keeps the agreement if it touches no more than what it then marks. */
  lemma MergeKeepsAgreement(
    before: Staging, after: Staging, sv: Serving, dirtyDocs: set<DocId>, dirtyCompanies: set<CompanyId>,
    docs: set<DocId>, companies: set<CompanyId>)
    requires Agrees(before, sv, dirtyDocs, dirtyCompanies) && TouchesOnly(before, after, docs, companies)
    ensures Agrees(after, sv, dirtyDocs + docs + HoldersAt(after.roles, companies), dirtyCompanies + companies)
  {
    hide DocView, CompanyView, TouchesOnly, HoldersAt;
    forall d | d !in dirtyDocs + docs + HoldersAt(after.roles, companies) ensures DocServed(sv, d) == DocView(after, d) {
      UnmarkedDocView(before, after, docs, companies, d);
    }
    forall c | c !in dirtyCompanies + companies ensures CompanyServed(after, sv, c) == CompanyView(after, c) {
      UnmarkedCompanyView(before, after, docs, companies, c);
      UntouchedRuc(before, after, docs, companies, c);
    }
    forall ruc | ruc in sv.rucAgg ensures IsRucOf(after, ruc) {
      var c :| c in before.companies && before.companies[c].ruc == ruc;
      TouchedKeepsRuc(before, after, docs, companies, c);
    }
  }

  lemma UntouchedRuc(before: Staging, after: Staging, docs: set<DocId>, companies: set<CompanyId>, c: CompanyId)
    requires TouchesOnly(before, after, docs, companies) && c !in companies
    ensures c in after.companies <==> c in before.companies
    ensures c in before.companies ==> after.companies[c].ruc == before.companies[c].ruc
  {
    assert At(after.companies, c) == At(before.companies, c);
  }

  lemma TouchedKeepsRuc(before: Staging, after: Staging, docs: set<DocId>, companies: set<CompanyId>, c: CompanyId)
    requires TouchesOnly(before, after, docs, companies) && c in before.companies
    ensures c in after.companies && after.companies[c].ruc == before.companies[c].ruc
  {
  }

  // ----- merges that fit the frame -----

  /** Every row is new, and none names two documents. */
  predicate Covered(m: Merge) {
    && (forall n :: n in m.stage ==> n in m.delta)
    && SingleDocs(m.stage)
  }

  predicate SingleDocs(stage: Stage) {
    forall n :: n in stage && RepKey(stage[n]).Some? && DniKey(stage[n]).Some? ==> RepKey(stage[n]) == DniKey(stage[n])
  }

  lemma CoveredDoc(st: Staging, m: Merge, d: DocId)
    requires Keyed(st) && Fits(st, m) && Covered(m) && d !in DocsOfDelta(st, m)
    ensures d !in m.newDocs
    ensures d in DocsAfter(st, m) ==> DocsAfter(st, m)[d] !in NamedBy(m.stage)
    ensures DocPhonesIn(st, m, d) == {} && EmailsIn(st, m, d) == {}
  {
    hide DocIdOf;
    assert d in m.newDocs ==> Has(m.newDocs, m.newDocs[d]) && m.newDocs[d] in NamedBy(m.stage);
    forall n | n in m.stage
      ensures DocIdOf(st, m, m.stage[n]) != Some(d)
      ensures d in DocsAfter(st, m) ==> !Names(m.stage[n], DocsAfter(st, m)[d])
    {
      Staleness.RowJoinsDoc(st, m, n);
    }
  }

  lemma CoveredCompany(st: Staging, m: Merge, c: CompanyId)
    requires Keyed(st) && Fits(st, m) && Covered(m) && c !in CompaniesOfDelta(st, m)
    ensures c !in m.newCompanies
    ensures c in RucsAfter(st, m) ==> RucsAfter(st, m)[c] !in RucsIn(m.stage)
    ensures CompanyPhonesIn(st, m, c) == {}
    ensures forall s :: s in m.order ==> s.key.company != c
  {
    hide DocIdOf, CompanyIdOf;
    assert c in m.newCompanies ==> Has(m.newCompanies, m.newCompanies[c]) && m.newCompanies[c] in RucsIn(m.stage);
    forall n | n in m.stage
      ensures CompanyIdOf(st, m, m.stage[n]) != Some(c)
      ensures c in RucsAfter(st, m) ==> RucOf(m.stage[n]) != Some(RucsAfter(st, m)[c])
    {
      Staleness.RowJoinsCompany(st, m, n);
    }
  }

  lemma {:induction false} UnnamedRole(role: Option<Role>, key: RoleKey, order: seq<RoleSource>, rank: int)
    requires forall s :: s in order ==> s.key != key
    ensures RoleAfter(role, key, order, rank) == role
  {
    if order != [] {
      assert order[|order| - 1] in order;
      UnnamedRole(role, key, order[..|order| - 1], rank);
    }
  }

  lemma CoveredRole(st: Staging, m: Merge, r: RoleId)
    requires Keyed(st) && Fits(st, m) && Covered(m)
    requires r in RolesAfter(st, m) && RolesAfter(st, m)[r].company !in CompaniesOfDelta(st, m)
    ensures r in st.roles && RolesAfter(st, m)[r] == st.roles[r]
  {
    hide Fits, Covered, CompaniesOfDelta, Keyed;
    Staleness.RoleKeysAfter(st, m, r);
    CoveredCompany(st, m, RolesAfter(st, m)[r].company);
    UnnamedRole(At(st.roles, r), KeysAfter(st, m)[r], m.order, m.rank);
  }

  lemma CoveredTables(st: Staging, m: Merge, d: DocId, c: CompanyId)
    requires Keyed(st) && Fits(st, m) && Covered(m)
    ensures d !in DocsOfDelta(st, m) ==>
      At(DocsAfter(st, m), d) == At(st.documents, d) && At(AttributesAfter(st, m), d) == At(st.attributes, d)
    ensures c !in CompaniesOfDelta(st, m) ==> At(CompaniesAfter(st, m), c) == At(st.companies, c)
  {
    hide DocsOfDelta, CompaniesOfDelta, Covered, AttributeAfter, CompanyAfter, NamedBy, RucsIn, Inserts;
    if d !in DocsOfDelta(st, m) { CoveredDoc(st, m, d); }
    if c !in CompaniesOfDelta(st, m) {
      CoveredCompany(st, m, c);
      assert c in RucsAfter(st, m) ==> c in RucsKnown(st);
    }
  }

  lemma SameUpserted(table: Contacts, owners: set<int>, texts: int -> set<string>, rank: int, owner: int)
    requires texts(owner) == {}
    ensures SameContacts(table, UpsertContacts(table, owners, texts, rank), owner)
  {
  }

  lemma CoveredContacts(st: Staging, m: Merge, d: DocId, c: CompanyId)
    requires Keyed(st) && Fits(st, m) && Covered(m)
    ensures d !in DocsOfDelta(st, m) ==>
      && SameContacts(st.docPhones, After(st, m).docPhones, d) && SameContacts(st.docEmails, After(st, m).docEmails, d)
    ensures c !in CompaniesOfDelta(st, m) ==> SameContacts(st.companyPhones, After(st, m).companyPhones, c)
  {
    hide DocsOfDelta, CompaniesOfDelta, Covered, DocsAfter, RucsAfter, AttributesAfter, CompaniesAfter, RolesAfter, Fits, Keyed,
      UpsertContacts, SameContacts, DocPhonesIn, EmailsIn, CompanyPhonesIn;
    if d !in DocsOfDelta(st, m) {
      CoveredDoc(st, m, d);
      SameUpserted(st.docPhones, DocsAfter(st, m).Keys, d => DocPhonesIn(st, m, d), m.rank, d);
      SameUpserted(st.docEmails, DocsAfter(st, m).Keys, d => EmailsIn(st, m, d), m.rank, d);
    }
    if c !in CompaniesOfDelta(st, m) {
      CoveredCompany(st, m, c);
      SameUpserted(st.companyPhones, RucsAfter(st, m).Keys, c => CompanyPhonesIn(st, m, c), m.rank, c);
    }
  }

  lemma KeptRows(st: Staging, m: Merge)
    requires Keyed(st) && Fits(st, m)
    ensures forall c :: c in st.companies ==> c in CompaniesAfter(st, m) && CompaniesAfter(st, m)[c].ruc == st.companies[c].ruc
    ensures forall r :: r in st.roles ==> r in RolesAfter(st, m) && RoleUpserted(st.roles[r], RolesAfter(st, m)[r])
  {
    hide CompaniesAfter, RolesAfter, Keyed, Fits;
    forall c | c in st.companies ensures c in CompaniesAfter(st, m) && CompaniesAfter(st, m)[c].ruc == st.companies[c].ruc {
      Staleness.CompanyStays(st, m, c);
    }
    forall r | r in st.roles ensures r in RolesAfter(st, m) && RoleUpserted(st.roles[r], RolesAfter(st, m)[r]) {
      Staleness.RoleStays(st, m, r);
    }
  }

  /** A merge of new rows that each name one document touches only what it marks. */
  lemma CoveredTouchesOnly(st: Staging, m: Merge)
    requires Keyed(st) && Fits(st, m) && Covered(m)
    ensures TouchesOnly(st, After(st, m), DocsOfDelta(st, m), CompaniesOfDelta(st, m))
  {
    hide DocsOfDelta, CompaniesOfDelta, Covered, DocsAfter, RucsAfter, AttributesAfter, CompaniesAfter, RolesAfter, Fits, Keyed,
      UpsertContacts, SameContacts, DocPhonesIn, EmailsIn, CompanyPhonesIn, RoleUpserted;
    var after := After(st, m);
    KeptRows(st, m);
    forall d | d !in DocsOfDelta(st, m)
      ensures At(after.documents, d) == At(st.documents, d) && At(after.attributes, d) == At(st.attributes, d)
      ensures SameContacts(st.docPhones, after.docPhones, d) && SameContacts(st.docEmails, after.docEmails, d)
    {
      CoveredTables(st, m, d, 0);
      CoveredContacts(st, m, d, 0);
    }
    forall c | c !in CompaniesOfDelta(st, m)
      ensures At(after.companies, c) == At(st.companies, c) && SameContacts(st.companyPhones, after.companyPhones, c)
    {
      CoveredTables(st, m, 0, c);
      CoveredContacts(st, m, 0, c);
    }
    forall r | r in after.roles && after.roles[r].company !in CompaniesOfDelta(st, m)
      ensures r in st.roles && after.roles[r] == st.roles[r]
    {
      CoveredRole(st, m, r);
    }
  }

  /** So it leaves every unmarked id served as it ought to be. */
  lemma NewSingleRowsAreSafe(st: Staging, m: Merge, sv: Serving, dirtyDocs: set<DocId>, dirtyCompanies: set<CompanyId>)
    requires Keyed(st) && Fits(st, m) && Covered(m) && Agrees(st, sv, dirtyDocs, dirtyCompanies)
    ensures Agrees(After(st, m), sv, dirtyDocs + MarkedDocs(st, m), dirtyCompanies + CompaniesOfDelta(st, m))
  {
    hide Keyed, Fits, Covered, Agrees, TouchesOnly, After, DocsOfDelta, CompaniesOfDelta, HoldersAt;
    CoveredTouchesOnly(st, m);
    RolesAreAfter(st, m);
    MergeKeepsAgreement(st, After(st, m), sv, dirtyDocs, dirtyCompanies, DocsOfDelta(st, m), CompaniesOfDelta(st, m));
    assert dirtyDocs + DocsOfDelta(st, m) + HoldersAt(RolesAfter(st, m), CompaniesOfDelta(st, m))
           == dirtyDocs + MarkedDocs(st, m);
  }

  // ----- every shard can be merged, and the keys survive -----

  lemma {:induction false} FreshId(used: set<int>) returns (id: int)
    ensures forall a :: a in used ==> a < id
    decreases used
  {
    id := 0;
    if a :| a in used {
      var rest := FreshId(used - {a});
      id := if a < rest then rest else a + 1;
      assert forall b :: b in used ==> b == a || b in used - {a};
    }
  }

  lemma {:induction false} InsertsExist<K(!new)>(known: map<int, K>, wanted: set<K>) returns (given: map<int, K>)
    ensures Inserts(known, wanted, given)
    decreases wanted
  {
    if wanted == {} {
      given := map[];
    } else {
      var k :| k in wanted;
      var rest := InsertsExist(known, wanted - {k});
      if Has(known, k) {
        given := rest;
      } else {
        var id := FreshId(known.Keys + rest.Keys);
        assert id !in rest && id !in known;
        given := rest[id := k];
        assert given[id] == k;
        forall j ensures Has(given, j) <==> j == k || Has(rest, j) {
          if Has(rest, j) {
            var a :| a in rest && rest[a] == j;
            assert given[a] == j;
          }
        }
        assert !Has(rest, k);
        forall a, b | a in given && b in given && given[a] == given[b] ensures a == b {
          assert a != id ==> Has(rest, given[a]);
          assert b != id ==> Has(rest, given[b]);
        }
      }
    }
  }

  lemma {:induction false} OrderExists(sources: set<RoleSource>) returns (order: seq<RoleSource>)
    ensures forall s :: s in order <==> s in sources
    ensures forall i, j :: 0 <= i < j < |order| ==> order[i] != order[j]
    decreases sources
  {
    if sources == {} {
      order := [];
    } else {
      var s :| s in sources;
      var rest := OrderExists(sources - {s});
      order := [s] + rest;
      assert forall i :: 0 <= i < |rest| ==> rest[i] in rest;
    }
  }

  /** Whatever the shard, the store has a place for its rows. */
  lemma EveryShardMerges(st: Staging, stage: Stage, rank: int, delta: set<int>) returns (m: Merge)
    ensures Fits(st, m) && m.stage == stage && m.rank == rank && m.delta == delta
  {
    hide Inserts, RucsKnown, NamedBy, RucsIn, DocIdOf, CompanyIdOf;
    var docs := InsertsExist(st.documents, NamedBy(stage));
    var companies := InsertsExist(RucsKnown(st), RucsIn(stage));
    m := Merge(stage, rank, delta, docs, companies, map[], []);
    var sources := RoleSources(st, m);
    var roles := InsertsExist(KeysKnown(st), RoleKeysIn(st, m));
    var order := OrderExists(sources);
    var whole := m.(newRoles := roles, order := order);
    assert RoleSources(st, whole) == sources by { SameSources(st, m, roles, order); }
    m := whole;
  }

  lemma SameSources(st: Staging, m: Merge, roles: map<RoleId, RoleKey>, order: seq<RoleSource>)
    ensures RoleSources(st, m.(newRoles := roles, order := order)) == RoleSources(st, m)
  {
    hide Join;
    var whole := m.(newRoles := roles, order := order);
    forall n | n in m.stage
      ensures DocIdOf(st, whole, m.stage[n]) == DocIdOf(st, m, m.stage[n])
      ensures CompanyIdOf(st, whole, m.stage[n]) == CompanyIdOf(st, m, m.stage[n])
    {
    }
  }

  lemma RucsKeyed(st: Staging, m: Merge)
    requires Keyed(st) && Fits(st, m)
    ensures Distinct(RucsKnown(After(st, m)))
    ensures forall c :: c in CompaniesAfter(st, m) ==> CompaniesAfter(st, m)[c].ruc != ""
  {
    hide CompaniesAfter, RolesAfter, AttributesAfter, DocsAfter, UpsertContacts, RucsAfter, Inserts, DocPhonesIn, EmailsIn,
      CompanyPhonesIn, RucsIn, Keyed, Fits;
    var rucs := RucsAfter(st, m);
    RucsDistinct(st, m);
    forall c ensures c in CompaniesAfter(st, m) <==> c in rucs
      ensures c in rucs ==> CompaniesAfter(st, m)[c].ruc == rucs[c] != ""
    {
      Staleness.CompanyRuc(st, m, c);
    }
    assert RucsKnown(After(st, m)) == rucs;
  }

  lemma RucsDistinct(st: Staging, m: Merge)
    requires Keyed(st) && Fits(st, m)
    ensures Distinct(RucsAfter(st, m))
  {
    hide Inserts, RucsIn, RucsKnown;
    Staleness.AfterDistinct(RucsKnown(st), RucsIn(m.stage), m.newCompanies);
  }

  lemma KeysDistinct(st: Staging, m: Merge)
    requires Keyed(st) && Fits(st, m)
    ensures Distinct(KeysAfter(st, m))
  {
    hide Inserts, RoleKeysIn, KeysKnown;
    Staleness.AfterDistinct(KeysKnown(st), RoleKeysIn(st, m), m.newRoles);
  }

  lemma RolesKeyed(st: Staging, m: Merge)
    requires Keyed(st) && Fits(st, m)
    ensures Distinct(KeysKnown(After(st, m)))
    ensures forall r :: r in RolesAfter(st, m) ==> RolesAfter(st, m)[r].company in CompaniesAfter(st, m)
  {
    hide CompaniesAfter, RolesAfter, AttributesAfter, DocsAfter, UpsertContacts, KeysAfter, Inserts, DocPhonesIn, EmailsIn,
      CompanyPhonesIn, RoleKeysIn, Keyed, Fits;
    KeysDistinct(st, m);
    forall r | r in RolesAfter(st, m)
      ensures r in KeysAfter(st, m) && KeyOf(RolesAfter(st, m)[r]) == KeysAfter(st, m)[r]
      ensures RolesAfter(st, m)[r].company in CompaniesAfter(st, m)
    {
      Staleness.RoleKeysAfter(st, m, r);
      Staleness.RoleCompanyIs(st, m, r);
    }
  }

  /** A merge keeps the uniqueness and foreign keys. */
  lemma AfterKeyed(st: Staging, m: Merge)
    requires Keyed(st) && Fits(st, m)
    ensures Keyed(After(st, m))
  {
    hide CompaniesAfter, RolesAfter, AttributesAfter, UpsertContacts, Inserts, DocPhonesIn, EmailsIn, CompanyPhonesIn,
      NamedBy, RucsKnown, KeysKnown;
    Staleness.AfterDistinct(st.documents, NamedBy(m.stage), m.newDocs);
    RucsKeyed(st, m);
    RolesKeyed(st, m);
  }

  // ----- every run -----

  /**
   * The durable state at a commit; whatever crashes leaves one of these. `staleDocs` and `staleCompanies` are
   * history: the ids in which a merge showed without marking them, and that no drain has rebuilt since.
   */
  datatype Durable = Durable(
    staging: Staging,
    serving: Serving,
    dirtyDocs: set<DocId>,
    dirtyCompanies: set<CompanyId>,
    latest: Latest,
    staleDocs: set<DocId>,
    staleCompanies: set<CompanyId>)

  const FRESH := Durable(Staging(map[], map[], map[], map[], map[], map[], map[]), NOTHING_SERVED, {}, {}, map[], {}, {})

  datatype Commit =
    | MergeShard(source: int, snapshot: int, hashes: Shard, merge: Merge)
    | DocChunk(chunk: set<DocId>)
    | CompanyChunk(chunk: set<CompanyId>)

  /** The delta is what the hashes say, and the environment gave ids and an order. */
  ghost predicate CanMerge(db: Durable, source: int, hashes: Shard, merge: Merge) {
    merge.stage.Keys == hashes.Keys && merge.delta == Delta(db.latest, source, hashes) && Fits(db.staging, merge)
  }

  ghost function ShownDocs(st: Staging, m: Merge): set<DocId> {
    set d | d in DocsAfter(st, m) && Staleness.DocShows(st, m, d)
  }

  ghost function ShownCompanies(st: Staging, m: Merge): set<CompanyId> {
    set c | c in RucsAfter(st, m) && Staleness.CompanyShows(st, m, c)
  }

  ghost function Merged(db: Durable, source: int, snapshot: int, hashes: Shard, m: Merge): Durable {
    Durable(
      After(db.staging, m),
      db.serving,
      db.dirtyDocs + MarkedDocs(db.staging, m),
      db.dirtyCompanies + CompaniesOfDelta(db.staging, m),
      Upserted(db.latest, source, hashes, snapshot),
      db.staleDocs + (ShownDocs(db.staging, m) - db.dirtyDocs - MarkedDocs(db.staging, m)),
      db.staleCompanies + (ShownCompanies(db.staging, m) - db.dirtyCompanies - CompaniesOfDelta(db.staging, m)))
  }

  /** A commit happens whole or not at all; one that is not possible changes nothing. A chunk is of dirty ids. */
  ghost function Committed(db: Durable, commit: Commit): Durable {
    match commit
    case MergeShard(source, snapshot, hashes, m) =>
      if CanMerge(db, source, hashes, m) then Merged(db, source, snapshot, hashes, m) else db
    case DocChunk(chunk) =>
      if !(chunk <= db.dirtyDocs) then db
      else db.(serving := MaterializeDocs(db.staging, db.serving, chunk), dirtyDocs := db.dirtyDocs - chunk,
               staleDocs := db.staleDocs - chunk)
    case CompanyChunk(chunk) =>
      if !(chunk <= db.dirtyCompanies) then db
      else db.(serving := MaterializeCompanies(db.staging, db.serving, chunk), dirtyCompanies := db.dirtyCompanies - chunk,
               staleCompanies := db.staleCompanies - chunk)
  }

  ghost function History(db: Durable, commits: seq<Commit>): Durable
    decreases |commits|
  {
    if commits == [] then db else History(Committed(db, commits[0]), commits[1..])
  }

  ghost predicate Sound(db: Durable) {
    Keyed(db.staging) && Agrees(db.staging, db.serving, db.dirtyDocs + db.staleDocs, db.dirtyCompanies + db.staleCompanies)
  }

  lemma KeyedRucs(st: Staging)
    requires Keyed(st)
    ensures RucsUnique(st)
  {
    forall c, d | c in st.companies && d in st.companies && st.companies[c].ruc == st.companies[d].ruc ensures c == d {
      assert c in RucsKnown(st) && d in RucsKnown(st);
    }
  }

  /** Fewer promises are kept too. */
  lemma AgreesLess(st: Staging, sv: Serving, docs: set<DocId>, companies: set<CompanyId>,
                   moreDocs: set<DocId>, moreCompanies: set<CompanyId>)
    requires Agrees(st, sv, docs, companies) && docs <= moreDocs && companies <= moreCompanies
    ensures Agrees(st, sv, moreDocs, moreCompanies)
  {
    hide DocView, CompanyView, DocServed, CompanyServed, IsRucOf;
  }

  lemma ShownIsThere(st: Staging, m: Merge, id: int)
    requires Keyed(st) && Fits(st, m)
    ensures Staleness.DocShows(st, m, id) ==> id in DocsAfter(st, m)
    ensures Staleness.CompanyShows(st, m, id) ==> id in RucsAfter(st, m)
  {
    hide Staleness.AttributeShows, Staleness.RoleShows, Staleness.PeopleShow, Staleness.CompanyRewritten;
    assert id in st.companies ==> id in RucsKnown(st);
  }

  lemma MergedSound(db: Durable, source: int, snapshot: int, hashes: Shard, m: Merge)
    requires Sound(db) && CanMerge(db, source, hashes, m)
    ensures Sound(Merged(db, source, snapshot, hashes, m))
  {
    hide Keyed, Fits, Agrees, After, MarkedDocs, CompaniesOfDelta, Staleness.DocShows, Staleness.CompanyShows, Upserted, Delta,
      DocsAfter, RucsAfter;
    var st := db.staging;
    var docs := db.dirtyDocs + db.staleDocs + ShownDocs(st, m);
    var companies := db.dirtyCompanies + db.staleCompanies + ShownCompanies(st, m);
    AfterKeyed(st, m);
    AgreesLess(st, db.serving, db.dirtyDocs + db.staleDocs, db.dirtyCompanies + db.staleCompanies, docs, companies);
    forall id
      ensures Staleness.DocShows(st, m, id) ==> id in ShownDocs(st, m)
      ensures Staleness.CompanyShows(st, m, id) ==> id in ShownCompanies(st, m)
    {
      ShownIsThere(st, m, id);
    }
    Staleness.AgreementSurvivesExactlyWhen(st, m, db.serving, docs, companies);
    var after := Merged(db, source, snapshot, hashes, m);
    AgreesLess(after.staging, after.serving, docs + MarkedDocs(st, m), companies + CompaniesOfDelta(st, m),
               after.dirtyDocs + after.staleDocs, after.dirtyCompanies + after.staleCompanies);
  }

  lemma CommitKeeps(db: Durable, commit: Commit)
    requires Sound(db)
    ensures Sound(Committed(db, commit))
  {
    hide Agrees, MaterializeDocs, MaterializeCompanies, CanMerge, Keyed, Merged;
    match commit
    case MergeShard(source, snapshot, hashes, m) =>
      if CanMerge(db, source, hashes, m) { MergedSound(db, source, snapshot, hashes, m); }
    case DocChunk(chunk) =>
      DocChunkAgrees(db.staging, db.serving, chunk, db.dirtyDocs + db.staleDocs, db.dirtyCompanies + db.staleCompanies);
      assert db.dirtyDocs + db.staleDocs - chunk == (db.dirtyDocs - chunk) + (db.staleDocs - chunk);
    case CompanyChunk(chunk) =>
      KeyedRucs(db.staging);
      CompanyChunkAgrees(db.staging, db.serving, chunk, db.dirtyDocs + db.staleDocs, db.dirtyCompanies + db.staleCompanies);
      assert db.dirtyCompanies + db.staleCompanies - chunk == (db.dirtyCompanies - chunk) + (db.staleCompanies - chunk);
  }

  lemma {:induction false} HistoryKeeps(db: Durable, commits: seq<Commit>)
    requires Sound(db)
    ensures Sound(History(db, commits))
    decreases |commits|
  {
    hide Sound, Committed;
    if commits != [] {
      CommitKeeps(db, commits[0]);
      HistoryKeeps(Committed(db, commits[0]), commits[1..]);
    }
  }

  lemma FreshSound()
    ensures Sound(FRESH)
  {
    hide DocView, CompanyView, DocServed, CompanyServed;
    var st := FRESH.staging;
    assert AllDocs(st) == {} && AllCompanies(st) == {};
    forall id ensures DocServed(NOTHING_SERVED, id) == DocView(st, id) { NothingToServe(st, id); }
    forall id ensures CompanyServed(st, NOTHING_SERVED, id) == CompanyView(st, id) { NothingToServe(st, id); }
  }

  /**
   * After any commits from an empty store, in any order and cut off anywhere, every id that is neither marked nor
   * left stale by a merge is served as it ought to be. With none of either, the tables are the rebuilt ones.
   */
  lemma ServingAgreesInEveryRun(commits: seq<Commit>)
    ensures
      var db := History(FRESH, commits);
      && (forall d :: d !in db.dirtyDocs + db.staleDocs ==> DocServed(db.serving, d) == DocView(db.staging, d))
      && (forall c :: c !in db.dirtyCompanies + db.staleCompanies ==>
            CompanyServed(db.staging, db.serving, c) == CompanyView(db.staging, c))
      && (db.dirtyDocs == {} && db.staleDocs == {} && db.dirtyCompanies == {} && db.staleCompanies == {}
          ==> db.serving == Rebuilt(db.staging))
  {
    hide History, DocView, CompanyView, DocServed, CompanyServed, Rebuilt, Keyed;
    FreshSound();
    HistoryKeeps(FRESH, commits);
    var db := History(FRESH, commits);
    if db.dirtyDocs == {} && db.staleDocs == {} && db.dirtyCompanies == {} && db.staleCompanies == {} {
      KeyedRucs(db.staging);
      assert db.dirtyDocs + db.staleDocs == {} && db.dirtyCompanies + db.staleCompanies == {};
      CleanMeansRebuilt(db.staging, db.serving);
    }
  }

  // ----- runs in which nothing goes stale -----

  /** The merge is of new rows that each name one document. */
  ghost predicate MergesNew(db: Durable, commit: Commit) {
    commit.MergeShard? && CanMerge(db, commit.source, commit.hashes, commit.merge) ==> Covered(commit.merge)
  }

  /** A covered merge shows in nothing that it leaves unmarked. */
  lemma CoveredShowsMarked(st: Staging, m: Merge)
    requires Keyed(st) && Fits(st, m) && Covered(m)
    ensures ShownDocs(st, m) <= MarkedDocs(st, m)
    ensures ShownCompanies(st, m) <= CompaniesOfDelta(st, m)
  {
    hide Keyed, Fits, Covered, After, TouchesOnly, DocView, CompanyView, Staleness.DocShows, Staleness.CompanyShows,
      DocsOfDelta, CompaniesOfDelta, DocsAfter, RucsAfter, HoldersAt;
    CoveredTouchesOnly(st, m);
    RolesAreAfter(st, m);
    forall d | d in ShownDocs(st, m) ensures d in MarkedDocs(st, m) {
      if d !in MarkedDocs(st, m) {
        Staleness.DocViewStays(st, m, d);
        UnmarkedDocView(st, After(st, m), DocsOfDelta(st, m), CompaniesOfDelta(st, m), d);
      }
    }
    forall c | c in ShownCompanies(st, m) ensures c in CompaniesOfDelta(st, m) {
      if c !in CompaniesOfDelta(st, m) {
        Staleness.CompanyViewStays(st, m, c);
        UnmarkedCompanyView(st, After(st, m), DocsOfDelta(st, m), CompaniesOfDelta(st, m), c);
      }
    }
  }

  lemma RolesAreAfter(st: Staging, m: Merge)
    ensures After(st, m).roles == RolesAfter(st, m)
  {
  }

  // ----- a first import -----

  /** No row is merged twice, and none names two documents. */
  predicate FirstImport(commits: seq<Commit>) {
    && (forall i :: 0 <= i < |commits| && commits[i].MergeShard? ==> SingleDocs(commits[i].merge.stage))
    && (forall i, j :: 0 <= i < j < |commits| && commits[i].MergeShard? && commits[j].MergeShard? ==>
          commits[i].source == commits[j].source ==> commits[i].hashes.Keys !! commits[j].hashes.Keys)
  }

  /** The rows still to come are not among those seen. */
  ghost predicate Unseen(latest: Latest, commits: seq<Commit>) {
    forall i, n :: 0 <= i < |commits| && commits[i].MergeShard? && n in commits[i].hashes ==>
      (commits[i].source, n) !in latest
  }

  lemma UnseenStays(db: Durable, commits: seq<Commit>)
    requires commits != [] && FirstImport(commits) && Unseen(db.latest, commits)
    ensures FirstImport(commits[1..]) && Unseen(Committed(db, commits[0]).latest, commits[1..])
  {
    hide After, MarkedDocs, CompaniesOfDelta, ShownDocs, ShownCompanies, Fits, MaterializeDocs, MaterializeCompanies, SingleDocs,
      Upserted;
    var rest := commits[1..];
    assert forall i :: 0 <= i < |rest| ==> rest[i] == commits[i + 1];
    forall i, n | 0 <= i < |rest| && rest[i].MergeShard? && n in rest[i].hashes
      ensures (rest[i].source, n) !in Committed(db, commits[0]).latest
    {
      assert commits[i + 1] == rest[i];
      if commits[0].MergeShard? {
        UpsertedAt(db.latest, commits[0].source, commits[0].hashes, commits[0].snapshot, (rest[i].source, n));
      }
    }
  }

  lemma UnseenIsCovered(db: Durable, commits: seq<Commit>)
    requires commits != [] && FirstImport(commits) && Unseen(db.latest, commits)
    ensures MergesNew(db, commits[0])
  {
    hide Fits;
    if commits[0].MergeShard? && CanMerge(db, commits[0].source, commits[0].hashes, commits[0].merge) {
      var m := commits[0].merge;
      assert SingleDocs(m.stage);
      forall n | n in m.stage ensures n in m.delta { assert n in commits[0].hashes; }
    }
  }

  lemma CoveredCommitStaysFresh(db: Durable, commit: Commit)
    requires Sound(db) && db.staleDocs == {} && db.staleCompanies == {} && MergesNew(db, commit)
    ensures Committed(db, commit).staleDocs == {} && Committed(db, commit).staleCompanies == {}
  {
    hide Agrees, Fits, Keyed, Covered, After, MarkedDocs, CompaniesOfDelta, ShownDocs, ShownCompanies, MaterializeDocs,
      MaterializeCompanies, Upserted;
    if commit.MergeShard? && CanMerge(db, commit.source, commit.hashes, commit.merge) {
      CoveredShowsMarked(db.staging, commit.merge);
    }
  }

  lemma {:induction false} FirstImportStaysFresh(db: Durable, commits: seq<Commit>)
    requires Sound(db) && db.staleDocs == {} && db.staleCompanies == {}
    requires FirstImport(commits) && Unseen(db.latest, commits)
    ensures History(db, commits).staleDocs == {} && History(db, commits).staleCompanies == {}
    decreases |commits|
  {
    hide Sound, Committed, FirstImport, Unseen, MergesNew;
    if commits != [] {
      UnseenIsCovered(db, commits);
      UnseenStays(db, commits);
      CommitKeeps(db, commits[0]);
      CoveredCommitStaysFresh(db, commits[0]);
      FirstImportStaysFresh(Committed(db, commits[0]), commits[1..]);
    }
  }

  /** While no row is merged twice, only marked ids can be out of date, however shards, chunks and crashes interleave. */
  lemma FirstImportIsServed(commits: seq<Commit>)
    requires FirstImport(commits)
    ensures
      var db := History(FRESH, commits);
      && Agrees(db.staging, db.serving, db.dirtyDocs, db.dirtyCompanies)
      && (db.dirtyDocs == {} && db.dirtyCompanies == {} ==> db.serving == Rebuilt(db.staging))
  {
    hide History, Agrees, Rebuilt, FirstImport, Keyed;
    FreshSound();
    FirstImportStaysFresh(FRESH, commits);
    HistoryKeeps(FRESH, commits);
    ServingAgreesInEveryRun(commits);
    var db := History(FRESH, commits);
    assert db.dirtyDocs + db.staleDocs == db.dirtyDocs && db.dirtyCompanies + db.staleCompanies == db.dirtyCompanies;
  }
}
