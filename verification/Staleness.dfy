/** Exactly which ids a merge leaves served out of date. */
module Staleness {
  import opened Domain
  import opened Ranking
  import opened Projection
  import opened Upserts
  import opened ContactUpserts

  // ----- guards, decided by the store and the shard before the merge -----

  /** The upsert of attributes inserts or rewrites what is served of a document that was there. */
  predicate AttributeShows(st: Staging, m: Merge, d: DocId)
    requires d in st.documents
  {
    var given := GivenAttribute(m, st.documents[d]);
    && st.documents[d] in NamedBy(m.stage)
    && if d in st.attributes then RewritesAttribute(st.attributes[d], given)
       else given.fullName != "" || given.naturalRuc.Some?
  }

  /** The upsert of companies rewrites a served column: a name by rank, a fact by mere presence. */
  predicate CompanyRewritten(st: Staging, m: Merge, c: CompanyId) {
    c in st.companies && st.companies[c].ruc in RucsIn(m.stage) &&
    var known, given := st.companies[c], GivenCompany(m, st.companies[c].ruc);
    || (Takes(known.rank, given.legalName, m.rank) && given.legalName != known.legalName)
    || known.facts + given.facts != known.facts
  }

  /** The role statement ends with another name in this row. */
  predicate Renamed(st: Staging, m: Merge, r: RoleId)
    requires r in st.roles
  {
    var name := LastName(m.order, KeyOf(st.roles[r]));
    Takes(st.roles[r].repNameRank, name, m.rank) && name != st.roles[r].repName
  }

  /** Roles that are inserted with this document, or had none and get it. */
  function Gained(st: Staging, m: Merge, d: DocId): set<RoleId> {
    var roles := RolesAfter(st, m);
    set r | r in roles && roles[r].doc == Some(d) && (r in st.roles ==> st.roles[r].doc.None?)
  }

  /** A role that the document gains goes before its primary one. */
  predicate Overtaken(st: Staging, m: Merge, d: DocId) {
    var roles, primary := RolesAfter(st, m), PrimaryRole(st.roles, d);
    exists q :: q in Gained(st, m, d) && q in roles
      && (primary.Some? && primary.value in roles ==> RoleBefore(roles, q, primary.value))
  }

  /** Another role becomes the primary one, or that one or its company is rewritten. */
  predicate RoleShows(st: Staging, m: Merge, d: DocId) {
    var primary := PrimaryRole(st.roles, d);
    || Overtaken(st, m, d)
    || (primary.Some? && primary.value in st.roles
        && (Renamed(st, m, primary.value) || CompanyRewritten(st, m, st.roles[primary.value].company)))
  }

  /** The merge changes what ought to be served for this document. */
  predicate DocShows(st: Staging, m: Merge, d: DocId) {
    || d in m.newDocs
    || (d in st.documents
        && (|| AttributeShows(st, m, d) || RoleShows(st, m, d)
            || ContactsShow(st.docPhones, DocPhonesIn(st, m, d), m.rank, d)))
  }

  /** Roles that are inserted at this company, or had no name, and name someone now. */
  function NewPeople(st: Staging, m: Merge, c: CompanyId): set<RoleId> {
    PeopleOf(RolesAfter(st, m), c) - PeopleOf(st.roles, c)
  }

  function PlaceOf(roles: map<RoleId, Role>, c: CompanyId, r: RoleId): nat {
    RowNumber(PeopleOf(roles, c), RoleOrder(roles), r)
  }

  /** Someone new gets into the list, or someone on it is renamed. */
  predicate PeopleShow(st: Staging, m: Merge, c: CompanyId) {
    || (exists r :: r in NewPeople(st, m, c) && PlaceOf(RolesAfter(st, m), c, r) <= LISTED_PEOPLE)
    || (exists r :: r in PeopleOf(st.roles, c) && PlaceOf(st.roles, c, r) <= LISTED_PEOPLE && Renamed(st, m, r))
  }

  /** The merge changes what ought to be served for this company. */
  predicate CompanyShows(st: Staging, m: Merge, c: CompanyId) {
    || c in m.newCompanies
    || (c in st.companies
        && (|| CompanyRewritten(st, m, c) || PeopleShow(st, m, c)
            || ContactsShow(st.companyPhones, CompanyPhonesIn(st, m, c), m.rank, c)))
  }

  // ----- the joins of a row -----

  lemma TheRowIn<T>(rows: set<T>)
    ensures TheRow(rows).Some? ==> TheRow(rows).value in rows && rows == {TheRow(rows).value}
    ensures forall x :: x in rows && rows == {x} ==> TheRow(rows) == Some(x)
  {
  }

  lemma JoinIs<K(!new)>(rows: map<int, K>, key: Option<K>)
    requires Distinct(rows)
    ensures forall a :: Join(rows, key) == Some(a) <==> a in rows && key == Some(rows[a])
    ensures Join(rows, key).None? <==> key.None? || !Has(rows, key.value)
  {
    var found := set a | a in rows && key == Some(rows[a]);
    TheRowIn(found);
    forall a | a in found ensures found == {a} {
      forall b | b in found ensures b == a { assert rows[a] == rows[b]; }
    }
    if key.Some? && Has(rows, key.value) {
      var a :| a in rows && rows[a] == key.value;
      assert a in found && found == {a};
    }
    if Join(rows, key).Some? {
      var a := Join(rows, key).value;
      assert a in found && rows[a] == key.value;
      assert Has(rows, key.value);
    }
  }

  lemma AfterDistinct<K(!new)>(known: map<int, K>, wanted: set<K>, given: map<int, K>)
    requires Distinct(known) && Inserts(known, wanted, given)
    ensures Distinct(known + given)
    ensures forall k :: k in wanted ==> Has(known + given, k)
  {
    var all := known + given;
    forall a, b | a in all && b in all && all[a] == all[b] ensures a == b {
      assert a in given ==> Has(given, given[a]);
      assert b in given ==> Has(given, given[b]);
      assert a in known ==> Has(known, known[a]);
      assert b in known ==> Has(known, known[b]);
    }
    forall k | k in wanted ensures Has(all, k) {
      if Has(known, k) {
        var a :| a in known && known[a] == k;
        assert a !in given && all[a] == k;
      } else {
        assert Has(given, k);
        var a :| a in given && given[a] == k;
        assert all[a] == k;
      }
    }
  }

  /** A row's document is the one with its key, and it is there. */
  lemma RowJoinsDoc(st: Staging, m: Merge, n: int)
    requires Keyed(st) && Fits(st, m) && n in m.stage
    ensures
      var row, docs := m.stage[n], DocsAfter(st, m);
      && (forall d :: DocIdOf(st, m, row) == Some(d) <==> d in docs && RowDoc(row) == Some(docs[d]))
      && (DocIdOf(st, m, row).None? <==> RowDoc(row).None?)
  {
    hide Inserts, Join;
    AfterDistinct(st.documents, NamedBy(m.stage), m.newDocs);
    JoinIs(DocsAfter(st, m), RowDoc(m.stage[n]));
  }

  lemma RowJoinsCompany(st: Staging, m: Merge, n: int)
    requires Keyed(st) && Fits(st, m) && n in m.stage
    ensures
      var row, rucs := m.stage[n], RucsAfter(st, m);
      && (forall c :: CompanyIdOf(st, m, row) == Some(c) <==> c in rucs && RucOf(row) == Some(rucs[c]))
      && (CompanyIdOf(st, m, row).None? <==> RucOf(row).None?)
  {
    hide Inserts, Join, RucsKnown;
    AfterDistinct(RucsKnown(st), RucsIn(m.stage), m.newCompanies);
    JoinIs(RucsAfter(st, m), RucOf(m.stage[n]));
  }

  // ----- the tables, row by row -----

  lemma RoleStays(st: Staging, m: Merge, r: RoleId)
    requires Fits(st, m) && r in st.roles
    ensures r in RolesAfter(st, m)
    ensures
      var role, after := st.roles[r], RolesAfter(st, m)[r];
      && KeyOf(after) == KeyOf(role)
      && (role.doc.Some? ==> after.doc == role.doc)
      && (after.repName != role.repName <==> Renamed(st, m, r))
      && after.repName == (if Renamed(st, m, r) then LastName(m.order, KeyOf(role)) else role.repName)
      && (role.repName != "" ==> after.repName != "")
  {
    RoleAfterIs(st.roles[r], m.order, m.rank);
    assert r in KeysKnown(st) && KeysAfter(st, m)[r] == KeyOf(st.roles[r]);
  }

  lemma RoleIsNew(st: Staging, m: Merge, r: RoleId)
    requires Fits(st, m) && r in RolesAfter(st, m) && r !in st.roles
    ensures r in m.newRoles && KeyOf(RolesAfter(st, m)[r]) == m.newRoles[r]
  {
    NewRoleAfterIs(m.newRoles[r], m.order, m.rank);
  }

  lemma RoleKeysAfter(st: Staging, m: Merge, r: RoleId)
    requires Fits(st, m) && r in RolesAfter(st, m)
    ensures r in KeysAfter(st, m) && KeyOf(RolesAfter(st, m)[r]) == KeysAfter(st, m)[r]
  {
    hide RolesAfter;
    if r in st.roles { RoleStays(st, m, r); } else { RoleIsNew(st, m, r); }
  }

  lemma SourceAtCompany(st: Staging, m: Merge, s: RoleSource)
    requires Keyed(st) && Fits(st, m) && s in RoleSources(st, m)
    ensures s.key.company in RucsAfter(st, m)
  {
    hide RucsAfter, CompanyIdOf, DocIdOf, Fits, Keyed;
    var n :| n in m.stage && CompanyIdOf(st, m, m.stage[n]).Some?
             && s == SourceOf(st, m, m.stage[n], CompanyIdOf(st, m, m.stage[n]).value);
    RowJoinsCompany(st, m, n);
    var c := CompanyIdOf(st, m, m.stage[n]).value;
    assert CompanyIdOf(st, m, m.stage[n]) == Some(c);
    assert SourceOf(st, m, m.stage[n], c).key.company == c;
    assert s.key.company == c;
  }

  /** A role's company is there after the merge. */
  lemma RoleAtCompany(st: Staging, m: Merge, r: RoleId)
    requires Keyed(st) && Fits(st, m) && r in RolesAfter(st, m)
    ensures RolesAfter(st, m)[r].company in RucsAfter(st, m)
  {
    hide RolesAfter, CompanyIdOf, DocIdOf;
    if r in st.roles {
      RoleStays(st, m, r);
      assert st.roles[r].company in RucsKnown(st);
    } else {
      RoleIsNew(st, m, r);
      var key := m.newRoles[r];
      assert Has(m.newRoles, key) && key in RoleKeysIn(st, m);
      var s :| s in RoleSources(st, m) && s.key == key;
      SourceAtCompany(st, m, s);
    }
  }

  /** The upsert writes a served column exactly when it takes another name or the facts come out different. */
  lemma CompanyUpsertShows(known: Company, given: Company)
    ensures
      var after := UpsertCompany(known, given);
      && after.ruc == known.ruc && after.rest == known.rest
      && (after.legalName == known.legalName && after.facts == known.facts <==>
            !(Takes(known.rank, given.legalName, given.rank) && given.legalName != known.legalName)
            && known.facts + given.facts == known.facts)
      && (after.legalName == known.legalName <==> NullIfEmpty(after.legalName) == NullIfEmpty(known.legalName))
  {
    assert given.facts == map[] ==> known.facts + given.facts == known.facts;
  }

  lemma CompanyAt(st: Staging, m: Merge, c: CompanyId)
    requires c in st.companies && Fits(st, m)
    ensures c in CompaniesAfter(st, m)
    ensures
      var known := st.companies[c];
      CompaniesAfter(st, m)[c]
      == if known.ruc in RucsIn(m.stage) then UpsertCompany(known, GivenCompany(m, known.ruc)) else known
  {
    hide GivenCompany, RucsIn, UpsertCompany;
    assert c in RucsKnown(st) && c !in m.newCompanies;
    assert RucsAfter(st, m)[c] == st.companies[c].ruc;
  }

  lemma CompanyStays(st: Staging, m: Merge, c: CompanyId)
    requires c in st.companies && Fits(st, m)
    ensures c in CompaniesAfter(st, m)
    ensures
      var known, after := st.companies[c], CompaniesAfter(st, m)[c];
      && after.ruc == known.ruc && after.rest == known.rest
      && (after.legalName == known.legalName && after.facts == known.facts <==> !CompanyRewritten(st, m, c))
      && (after.legalName == known.legalName <==> NullIfEmpty(after.legalName) == NullIfEmpty(known.legalName))
  {
    hide GivenFacts, MaxText, RucsIn, CompaniesAfter, UpsertCompany, Fits, CompanyNames;
    CompanyAt(st, m, c);
    CompanyUpsertShows(st.companies[c], GivenCompany(m, st.companies[c].ruc));
  }

  lemma CompanyIsNew(st: Staging, m: Merge, c: CompanyId)
    requires c !in st.companies && Fits(st, m)
    ensures c in CompaniesAfter(st, m) <==> c in m.newCompanies
    ensures c in m.newCompanies ==> CompaniesAfter(st, m)[c].ruc == m.newCompanies[c]
  {
    hide GivenFacts, MaxText;
    if c in m.newCompanies { assert Has(m.newCompanies, m.newCompanies[c]); }
  }

  /** What is served of an attribute changes exactly when the guard says so. */
  lemma AttributeStays(st: Staging, m: Merge, d: DocId)
    requires d in st.documents && Fits(st, m)
    ensures PersonColumnsOf(At(AttributesAfter(st, m), d)) == PersonColumnsOf(At(st.attributes, d))
            <==> !AttributeShows(st, m, d)
  {
    hide MaxText, NamedBy, NamesFor, RucsFor;
  }

  // ----- a document's primary role -----

  lemma RolesOfDocAfter(st: Staging, m: Merge, d: DocId)
    requires Fits(st, m)
    ensures RolesOfDoc(RolesAfter(st, m), d) == RolesOfDoc(st.roles, d) + Gained(st, m, d)
    ensures RolesOfDoc(st.roles, d) !! Gained(st, m, d)
  {
    hide RolesAfter;
    forall r | r in RolesOfDoc(RolesAfter(st, m), d) ensures r in RolesOfDoc(st.roles, d) + Gained(st, m, d) {
      if r in st.roles { RoleStays(st, m, r); }
    }
    forall r | r in RolesOfDoc(st.roles, d) ensures r in RolesOfDoc(RolesAfter(st, m), d) { RoleStays(st, m, r); }
  }

  lemma SameOrder(st: Staging, m: Merge, a: RoleId, b: RoleId)
    requires Fits(st, m) && a in st.roles && b in st.roles
    ensures a in RolesAfter(st, m) && b in RolesAfter(st, m)
    ensures RoleBefore(RolesAfter(st, m), a, b) == RoleBefore(st.roles, a, b)
  {
    hide RolesAfter, TextLess;
    RoleStays(st, m, a);
    RoleStays(st, m, b);
  }

  lemma OneWay(roles: map<RoleId, Role>, a: RoleId, b: RoleId)
    requires a in roles && b in roles && a != b
    ensures RoleBefore(roles, a, b) <==> !RoleBefore(roles, b, a)
  {
    TextConnected(roles[a].startDate, roles[b].startDate);
  }

  lemma SomePrimary(roles: map<RoleId, Role>, d: DocId)
    ensures PrimaryRole(roles, d).None? <==> RolesOfDoc(roles, d) == {}
    ensures PrimaryRole(roles, d).Some? ==> PrimaryRole(roles, d).value in RolesOfDoc(roles, d)
  {
    hide RoleBefore;
    var mine := RolesOfDoc(roles, d);
    if mine != {} {
      RolesOrdered(roles, mine);
      NthExists(mine, RoleOrder(roles), 1);
      var r :| Nth(mine, RoleOrder(roles), 1) == {r};
      assert r in Nth(mine, RoleOrder(roles), 1);
    }
  }

  /** The primary role changes exactly when the document gains one that goes before it. */
  lemma PrimaryAfter(st: Staging, m: Merge, d: DocId)
    requires Fits(st, m)
    ensures PrimaryRole(RolesAfter(st, m), d) != PrimaryRole(st.roles, d) <==> Overtaken(st, m, d)
  {
    hide RolesAfter, PrimaryRole, RoleBefore, TextLess, Fits;
    var roles, primary := RolesAfter(st, m), PrimaryRole(st.roles, d);
    RolesOfDocAfter(st, m, d);
    SomePrimary(st.roles, d);
    SomePrimary(roles, d);
    assert Gained(st, m, d) <= roles.Keys;
    if primary.Some? {
      var p := primary.value;
      PrimaryRoleIsFirst(st.roles, d, p);
      PrimaryRoleIsFirst(roles, d, p);
      forall q | q in RolesOfDoc(st.roles, d) && q != p ensures RoleBefore(roles, p, q) { SameOrder(st, m, p, q); }
      forall q | q in Gained(st, m, d) ensures q != p && (RoleBefore(roles, q, p) <==> !RoleBefore(roles, p, q)) {
        OneWay(roles, q, p);
      }
    } else if PrimaryRole(roles, d).Some? {
      var q := PrimaryRole(roles, d).value;
      assert q in Gained(st, m, d) && q in roles;
      assert Overtaken(st, m, d);
    } else {
      assert forall q :: q in Gained(st, m, d) ==> q in RolesOfDoc(roles, d);
    }
  }

  // ----- the columns of the primary role -----

  /** Two roles, of companies with rucs, that look alike are one role. */
  lemma RolesLookDifferent(st: Staging, m: Merge, p: RoleId, q: RoleId)
    requires Keyed(st) && Fits(st, m) && p in st.roles && q in RolesAfter(st, m) && p != q
    ensures st.roles[p].company in st.companies && RolesAfter(st, m)[q].company in CompaniesAfter(st, m)
    ensures
      var role, other := st.roles[p], RolesAfter(st, m)[q];
      OrgColumnsOf(Some(role), Some(st.companies[role.company]))
      != OrgColumnsOf(Some(other), Some(CompaniesAfter(st, m)[other.company]))
  {
    hide RolesAfter, CompaniesAfter, Fits, RucsAfter, KeysAfter, RucsIn;
    var role, other := st.roles[p], RolesAfter(st, m)[q];
    RoleCompanyIs(st, m, q);
    KeysApart(st, m, p, q);
    if NullIfEmpty(st.companies[role.company].ruc) == NullIfEmpty(CompaniesAfter(st, m)[other.company].ruc) {
      RucsApart(st, m, role.company, other.company);
    }
  }

  lemma RoleCompanyIs(st: Staging, m: Merge, q: RoleId)
    requires Keyed(st) && Fits(st, m) && q in RolesAfter(st, m)
    ensures
      var c := RolesAfter(st, m)[q].company;
      && c in RucsAfter(st, m) && c in CompaniesAfter(st, m)
      && CompaniesAfter(st, m)[c].ruc == RucsAfter(st, m)[c] != ""
  {
    hide RolesAfter, CompaniesAfter;
    RoleAtCompany(st, m, q);
    CompanyRuc(st, m, RolesAfter(st, m)[q].company);
  }

  lemma CompanyRuc(st: Staging, m: Merge, c: CompanyId)
    requires Keyed(st) && Fits(st, m)
    ensures c in RucsAfter(st, m) <==> c in CompaniesAfter(st, m)
    ensures c in RucsAfter(st, m) ==> CompaniesAfter(st, m)[c].ruc == RucsAfter(st, m)[c] != ""
  {
    hide CompaniesAfter;
    if c in st.companies {
      CompanyStays(st, m, c);
      assert c in RucsKnown(st);
    } else {
      CompanyIsNew(st, m, c);
      if c in m.newCompanies { assert Has(m.newCompanies, m.newCompanies[c]); }
    }
  }

  lemma KeysApart(st: Staging, m: Merge, p: RoleId, q: RoleId)
    requires Keyed(st) && Fits(st, m) && p in st.roles && q in RolesAfter(st, m) && p != q
    ensures KeyOf(st.roles[p]) != KeyOf(RolesAfter(st, m)[q])
  {
    hide RolesAfter, Inserts, RoleKeysIn;
    AfterDistinct(KeysKnown(st), RoleKeysIn(st, m), m.newRoles);
    RoleStays(st, m, p);
    RoleKeysAfter(st, m, p);
    RoleKeysAfter(st, m, q);
  }

  lemma RucsApart(st: Staging, m: Merge, c: CompanyId, d: CompanyId)
    requires Keyed(st) && Fits(st, m) && c in st.companies && d in RucsAfter(st, m)
    requires st.companies[c].ruc == RucsAfter(st, m)[d]
    ensures c == d
  {
    hide Inserts, RucsIn;
    AfterDistinct(RucsKnown(st), RucsIn(m.stage), m.newCompanies);
    assert c in RucsKnown(st) && RucsAfter(st, m)[c] == st.companies[c].ruc by { CompanyAtRuc(st, m, c); }
  }

  lemma CompanyAtRuc(st: Staging, m: Merge, c: CompanyId)
    requires Fits(st, m) && c in st.companies
    ensures c in RucsKnown(st) && RucsAfter(st, m)[c] == st.companies[c].ruc
  {
    assert c in RucsKnown(st) && c !in m.newCompanies;
  }

  /** What is served of a document's primary role changes exactly when the guards say so. */
  lemma OrgStays(st: Staging, m: Merge, d: DocId)
    requires Keyed(st) && Fits(st, m)
    ensures PrimaryOrg(After(st, m), d) == PrimaryOrg(st, d) <==> !RoleShows(st, m, d)
  {
    hide RolesAfter, CompaniesAfter, Fits, Keyed, RoleBefore, PrimaryRole, Gained, CompanyRewritten, Renamed;
    var roles, primary := RolesAfter(st, m), PrimaryRole(st.roles, d);
    var next := PrimaryRole(roles, d);
    SomePrimary(st.roles, d);
    SomePrimary(roles, d);
    PrimaryAfter(st, m, d);
    if Overtaken(st, m, d) {
      NextRole(st, m, d);
      RoleCompanyIs(st, m, next.value);
      if primary.Some? { RolesLookDifferent(st, m, primary.value, next.value); }
    } else if primary.Some? {
      var p := primary.value;
      assert p in st.roles && next == primary;
      RoleStays(st, m, p);
      CompanyThere(st, p);
      CompanyStays(st, m, st.roles[p].company);
    }
  }

  lemma CompanyThere(st: Staging, r: RoleId)
    requires Keyed(st) && r in st.roles
    ensures st.roles[r].company in st.companies
  {
  }

  lemma NextRole(st: Staging, m: Merge, d: DocId)
    requires Fits(st, m) && Overtaken(st, m, d)
    ensures PrimaryRole(RolesAfter(st, m), d).Some? && PrimaryRole(RolesAfter(st, m), d).value in RolesAfter(st, m)
  {
    hide RolesAfter, PrimaryRole, RoleBefore, Fits;
    SomePrimary(RolesAfter(st, m), d);
    RolesOfDocAfter(st, m, d);
    var q :| q in Gained(st, m, d);
    assert q in RolesOfDoc(RolesAfter(st, m), d);
  }

  // ----- a company's people -----

  lemma PeopleAfter(st: Staging, m: Merge, c: CompanyId)
    requires Fits(st, m)
    ensures PeopleOf(st.roles, c) <= PeopleOf(RolesAfter(st, m), c)
    ensures PeopleOf(RolesAfter(st, m), c) == PeopleOf(st.roles, c) + NewPeople(st, m, c)
  {
    hide RolesAfter;
    forall r | r in PeopleOf(st.roles, c) ensures r in PeopleOf(RolesAfter(st, m), c) { RoleStays(st, m, r); }
  }

  /** Those ahead of someone who was there are those who were, and new people. */
  lemma AheadAfter(st: Staging, m: Merge, c: CompanyId, r: RoleId)
    requires Fits(st, m) && r in PeopleOf(st.roles, c)
    ensures
      var now, before := PeopleOf(RolesAfter(st, m), c), PeopleOf(st.roles, c);
      && Ahead(before, RoleOrder(st.roles), r) <= Ahead(now, RoleOrder(RolesAfter(st, m)), r)
      && Ahead(now, RoleOrder(RolesAfter(st, m)), r) <= Ahead(before, RoleOrder(st.roles), r) + NewPeople(st, m, c)
  {
    hide RolesAfter, RoleBefore, Fits;
    PeopleAfter(st, m, c);
    forall q | q in PeopleOf(st.roles, c)
      ensures RoleOrder(RolesAfter(st, m))(q, r) == RoleOrder(st.roles)(q, r)
    {
      SameOrder(st, m, q, r);
    }
  }

  lemma AheadOfFirst<T(!new)>(rows: set<T>, before: (T, T) -> bool, some: set<T>, r: T, x: T)
    requires Ordered(rows, before) && r in rows && x in Ahead(rows, before, r)
    requires Ahead(rows, before, x) * (Ahead(rows, before, r) * some) == {}
    ensures Ahead(rows, before, x) <= Ahead(rows, before, r) - some
  {
    forall q | q in Ahead(rows, before, x) ensures q in Ahead(rows, before, r) && q !in some {
      assert q in Ahead(rows, before, r);
      assert q in some ==> q in Ahead(rows, before, x) * (Ahead(rows, before, r) * some);
    }
  }

  /** The first of the new people ahead of `r` has a place no worse than `r` had. */
  lemma NobodyPushes(st: Staging, m: Merge, c: CompanyId, r: RoleId)
    requires Fits(st, m) && r in PeopleOf(st.roles, c) && PlaceOf(st.roles, c, r) <= LISTED_PEOPLE
    requires forall q :: q in NewPeople(st, m, c) ==> PlaceOf(RolesAfter(st, m), c, q) > LISTED_PEOPLE
    ensures Ahead(PeopleOf(RolesAfter(st, m), c), RoleOrder(RolesAfter(st, m)), r) * NewPeople(st, m, c) == {}
  {
    hide RolesAfter, RoleOrder, Fits, PeopleOf;
    var roles := RolesAfter(st, m);
    var before, now := RoleOrder(roles), PeopleOf(roles, c);
    var pushing := Ahead(now, before, r) * NewPeople(st, m, c);
    PeopleAfter(st, m, c);
    AheadAfter(st, m, c, r);
    PeopleThere(roles, c);
    RolesOrdered(roles, now);
    if pushing != {} {
      var x := FirstOf(now, before, pushing);
      AheadOfFirst(now, before, NewPeople(st, m, c), r, x);
      SubsetSize(Ahead(now, before, x), Ahead(PeopleOf(st.roles, c), RoleOrder(st.roles), r));
    }
  }

  lemma PeopleThere(roles: map<RoleId, Role>, c: CompanyId)
    ensures PeopleOf(roles, c) <= roles.Keys
  {
  }

  /** With nobody new in the first places, those who had the first places keep them. */
  lemma PlacesStay(st: Staging, m: Merge, c: CompanyId, r: RoleId)
    requires Fits(st, m) && r in PeopleOf(st.roles, c)
    requires forall q :: q in NewPeople(st, m, c) ==> PlaceOf(RolesAfter(st, m), c, q) > LISTED_PEOPLE
    requires PlaceOf(st.roles, c, r) <= LISTED_PEOPLE || PlaceOf(RolesAfter(st, m), c, r) <= LISTED_PEOPLE
    ensures PlaceOf(RolesAfter(st, m), c, r) == PlaceOf(st.roles, c, r)
  {
    hide RolesAfter, RoleOrder, Fits, PeopleOf;
    var roles := RolesAfter(st, m);
    var now, before := PeopleOf(roles, c), PeopleOf(st.roles, c);
    PeopleAfter(st, m, c);
    AheadAfter(st, m, c, r);
    PeopleThere(roles, c);
    RolesOrdered(roles, now);
    if PlaceOf(roles, c, r) <= LISTED_PEOPLE {
      forall q | q in Ahead(now, RoleOrder(roles), r) ensures q !in NewPeople(st, m, c) {
        RowNumberFollowsOrder(now, RoleOrder(roles), q, r);
      }
    } else {
      NobodyPushes(st, m, c, r);
    }
    assert Ahead(now, RoleOrder(roles), r) == Ahead(before, RoleOrder(st.roles), r);
  }

  /** A person is listed at a place exactly when someone has that place. */
  lemma PersonIs(roles: map<RoleId, Role>, c: CompanyId, r: RoleId)
    requires r in PeopleOf(roles, c)
    ensures PersonAt(roles, c, PlaceOf(roles, c, r)) == Some(PersonOf(roles[r]))
  {
    hide RoleBefore;
    RolesOrdered(roles, PeopleOf(roles, c));
    OnlyOne(PeopleOf(roles, c), RoleOrder(roles), PlaceOf(roles, c, r), r);
    assert r in Nth(PeopleOf(roles, c), RoleOrder(roles), PlaceOf(roles, c, r));
  }

  lemma SomeoneAt(roles: map<RoleId, Role>, c: CompanyId, n: nat)
    requires PersonAt(roles, c, n).Some?
    ensures exists r :: r in PeopleOf(roles, c) && PlaceOf(roles, c, r) == n
  {
    hide RoleBefore;
    var row := TheRow(Nth(PeopleOf(roles, c), RoleOrder(roles), n));
    assert row.value in Nth(PeopleOf(roles, c), RoleOrder(roles), n);
  }

  lemma PlacePositive(roles: map<RoleId, Role>, c: CompanyId, r: RoleId)
    ensures PlaceOf(roles, c, r) >= 1
  {
  }

  /** Someone new on the list makes it look different. */
  lemma NewPersonShows(st: Staging, m: Merge, c: CompanyId, r: RoleId)
    requires Keyed(st) && Fits(st, m)
    requires r in NewPeople(st, m, c) && PlaceOf(RolesAfter(st, m), c, r) <= LISTED_PEOPLE
    ensures PeopleListed(RolesAfter(st, m), c) != PeopleListed(st.roles, c)
  {
    hide RolesAfter, Fits, Keyed, RoleOrder, PersonAt, PlaceOf, Nth;
    var roles := RolesAfter(st, m);
    var n := PlaceOf(roles, c, r);
    PlacePositive(roles, c, r);
    PersonIs(roles, c, r);
    if PersonAt(st.roles, c, n) == Some(PersonOf(roles[r])) {
      SomeoneAt(st.roles, c, n);
      var p :| p in PeopleOf(st.roles, c) && PlaceOf(st.roles, c, p) == n;
      PersonIs(st.roles, c, p);
      KeysApart(st, m, p, r);
      assert false;
    }
    assert n in PeopleListed(roles, c) && PeopleListed(roles, c)[n] == PersonOf(roles[r]);
  }

  /** So does a new name for someone on it, when nobody new is. */
  lemma RenamedShows(st: Staging, m: Merge, c: CompanyId, r: RoleId)
    requires Fits(st, m)
    requires forall q :: q in NewPeople(st, m, c) ==> PlaceOf(RolesAfter(st, m), c, q) > LISTED_PEOPLE
    requires r in PeopleOf(st.roles, c) && PlaceOf(st.roles, c, r) <= LISTED_PEOPLE && Renamed(st, m, r)
    ensures PeopleListed(RolesAfter(st, m), c) != PeopleListed(st.roles, c)
  {
    hide RolesAfter, Fits, RoleOrder, PersonAt, PlaceOf, Nth;
    var roles := RolesAfter(st, m);
    var n := PlaceOf(roles, c, r);
    PlacesStay(st, m, c, r);
    PlacePositive(roles, c, r);
    PeopleAfter(st, m, c);
    PersonIs(roles, c, r);
    PersonIs(st.roles, c, r);
    RoleStays(st, m, r);
    assert n in PeopleListed(roles, c) && PeopleListed(roles, c)[n] == PersonOf(roles[r]);
    assert n in PeopleListed(st.roles, c) && PeopleListed(st.roles, c)[n] == PersonOf(st.roles[r]);
  }

  lemma PlaceStaysTheSame(st: Staging, m: Merge, c: CompanyId, n: nat)
    requires Fits(st, m) && !PeopleShow(st, m, c) && 1 <= n <= LISTED_PEOPLE
    ensures PersonAt(RolesAfter(st, m), c, n) == PersonAt(st.roles, c, n)
  {
    hide RolesAfter, Fits, RoleOrder, PersonAt, PlaceOf, Nth, Renamed;
    var roles := RolesAfter(st, m);
    PeopleAfter(st, m, c);
    if PersonAt(roles, c, n).Some? {
      SomeoneAt(roles, c, n);
      var r :| r in PeopleOf(roles, c) && PlaceOf(roles, c, r) == n;
      assert r in PeopleOf(st.roles, c);
      PlacesStay(st, m, c, r);
      PersonIs(roles, c, r);
      PersonIs(st.roles, c, r);
      RoleStays(st, m, r);
    } else if PersonAt(st.roles, c, n).Some? {
      SomeoneAt(st.roles, c, n);
      var r :| r in PeopleOf(st.roles, c) && PlaceOf(st.roles, c, r) == n;
      PlacesStay(st, m, c, r);
      PersonIs(roles, c, r);
    }
  }

  /** What is listed of a company's people changes exactly when the guards say so. */
  lemma PeopleStay(st: Staging, m: Merge, c: CompanyId)
    requires Keyed(st) && Fits(st, m)
    ensures PeopleListed(RolesAfter(st, m), c) == PeopleListed(st.roles, c) <==> !PeopleShow(st, m, c)
  {
    hide RolesAfter, Fits, Keyed, RoleOrder, PersonAt, PlaceOf, Renamed;
    if r :| r in NewPeople(st, m, c) && PlaceOf(RolesAfter(st, m), c, r) <= LISTED_PEOPLE {
      NewPersonShows(st, m, c, r);
    } else if r :| r in PeopleOf(st.roles, c) && PlaceOf(st.roles, c, r) <= LISTED_PEOPLE && Renamed(st, m, r) {
      RenamedShows(st, m, c, r);
    } else {
      forall n: nat | 1 <= n <= LISTED_PEOPLE ensures PersonAt(RolesAfter(st, m), c, n) == PersonAt(st.roles, c, n) {
        PlaceStaysTheSame(st, m, c, n);
      }
    }
  }

  // ----- what is served of one id -----

  lemma NoPhonesElsewhere(st: Staging, m: Merge, id: int)
    requires Keyed(st) && Fits(st, m)
    ensures id !in DocsAfter(st, m) ==> DocPhonesIn(st, m, id) == {}
    ensures id !in RucsAfter(st, m) ==> CompanyPhonesIn(st, m, id) == {}
  {
    hide Keyed, Fits, DocIdOf, CompanyIdOf, DocsAfter, RucsAfter;
    forall n | n in m.stage
      ensures DocIdOf(st, m, m.stage[n]) == Some(id) ==> id in DocsAfter(st, m)
      ensures CompanyIdOf(st, m, m.stage[n]) == Some(id) ==> id in RucsAfter(st, m)
    {
      RowJoinsDoc(st, m, n);
      RowJoinsCompany(st, m, n);
    }
  }

  lemma DocPhonesStay(st: Staging, m: Merge, d: DocId)
    requires Keyed(st) && Fits(st, m)
    ensures ServedAlike(st.docPhones, After(st, m).docPhones, d) <==> !ContactsShow(st.docPhones, DocPhonesIn(st, m, d), m.rank, d)
  {
    hide Keyed, Fits, DocPhonesIn, EmailsIn, CompanyPhonesIn, UpsertContacts, ContactsShow, ServedAlike, DocsAfter, RucsAfter,
      AttributesAfter, CompaniesAfter, RolesAfter;
    NoPhonesElsewhere(st, m, d);
    var texts := (d: DocId) => DocPhonesIn(st, m, d);
    UpsertedFor(st.docPhones, DocsAfter(st, m).Keys, texts, m.rank, d);
    ContactsShowExactly(st.docPhones, UpsertContacts(st.docPhones, DocsAfter(st, m).Keys, texts, m.rank),
                        DocPhonesIn(st, m, d), m.rank, d);
    assert After(st, m).docPhones == UpsertContacts(st.docPhones, DocsAfter(st, m).Keys, texts, m.rank);
  }

  lemma CompanyPhonesStay(st: Staging, m: Merge, c: CompanyId)
    requires Keyed(st) && Fits(st, m)
    ensures ServedAlike(st.companyPhones, After(st, m).companyPhones, c)
            <==> !ContactsShow(st.companyPhones, CompanyPhonesIn(st, m, c), m.rank, c)
  {
    hide Keyed, Fits, DocPhonesIn, EmailsIn, CompanyPhonesIn, UpsertContacts, ContactsShow, ServedAlike, DocsAfter, RucsAfter,
      AttributesAfter, CompaniesAfter, RolesAfter;
    NoPhonesElsewhere(st, m, c);
    var texts := (c: CompanyId) => CompanyPhonesIn(st, m, c);
    UpsertedFor(st.companyPhones, RucsAfter(st, m).Keys, texts, m.rank, c);
    ContactsShowExactly(st.companyPhones, UpsertContacts(st.companyPhones, RucsAfter(st, m).Keys, texts, m.rank),
                        CompanyPhonesIn(st, m, c), m.rank, c);
    assert After(st, m).companyPhones == UpsertContacts(st.companyPhones, RucsAfter(st, m).Keys, texts, m.rank);
  }

  /** A document outside the delta gets no email. */
  lemma EmailsStay(st: Staging, m: Merge, d: DocId)
    requires d !in DocsOfDelta(st, m)
    ensures ServedAlike(st.docEmails, After(st, m).docEmails, d)
  {
    hide DocPhonesIn, CompanyPhonesIn, UpsertContacts, ServedAlike, DocsAfter, RucsAfter, AttributesAfter, CompaniesAfter,
      RolesAfter, DocIdOf;
    assert EmailsIn(st, m, d) == {};
    var texts := (d: DocId) => EmailsIn(st, m, d);
    UpsertedFor(st.docEmails, DocsAfter(st, m).Keys, texts, m.rank, d);
    assert After(st, m).docEmails == UpsertContacts(st.docEmails, DocsAfter(st, m).Keys, texts, m.rank);
    NothingAdded(st.docEmails, After(st, m).docEmails, m.rank, d);
  }

  lemma NothingAdded(before: Contacts, after: Contacts, rank: int, owner: int)
    requires Upserted(before, after, {}, rank, owner)
    ensures ServedAlike(before, after, owner)
  {
    ContactsShowExactly(before, after, {}, rank, owner);
  }

  lemma DocumentStays(st: Staging, m: Merge, d: DocId)
    requires Fits(st, m)
    ensures d in st.documents ==> d in DocsAfter(st, m) && DocsAfter(st, m)[d] == st.documents[d]
    ensures d in DocsAfter(st, m) <==> d in st.documents || d in m.newDocs
    ensures d in st.documents ==> d !in m.newDocs
  {
  }

  /** For a document that is not marked, what ought to be served changes exactly when `DocShows` says so. */
  lemma DocViewStays(st: Staging, m: Merge, d: DocId)
    requires Keyed(st) && Fits(st, m) && d !in DocsOfDelta(st, m)
    ensures DocView(After(st, m), d) == DocView(st, d) <==> !DocShows(st, m, d)
  {
    hide Keyed, Fits, DocsAfter, AttributesAfter, CompaniesAfter, RolesAfter, RucsAfter, UpsertContacts, DocPhonesIn, EmailsIn,
      CompanyPhonesIn, DocsOfDelta, ContactsShow, AttributeShows, RoleShows, PrimaryOrg, NthContact, TextsOf, GroupConcat,
      PersonColumnsOf;
    var after := After(st, m);
    DocumentStays(st, m, d);
    DocPhonesStay(st, m, d);
    EmailsStay(st, m, d);
    if d in st.documents {
      AttributeStays(st, m, d);
      OrgStays(st, m, d);
    } else if d !in m.newDocs {
      NoPhonesElsewhere(st, m, d);
      NoContactsShow(st.docPhones, m.rank, d);
    }
  }

  lemma NoContactsShow(table: Contacts, rank: int, owner: int)
    ensures !ContactsShow(table, {}, rank, owner)
  {
  }

  lemma CompanyRowStays(st: Staging, m: Merge, c: CompanyId)
    requires Keyed(st) && Fits(st, m) && c in st.companies
    ensures c in CompaniesAfter(st, m) && c !in m.newCompanies
    ensures
      var known, after := st.companies[c], CompaniesAfter(st, m)[c];
      && after.ruc == known.ruc
      && (after.rest == known.rest && NullIfEmpty(after.legalName) == NullIfEmpty(known.legalName) && after.facts == known.facts
          <==> !CompanyRewritten(st, m, c))
  {
    hide CompaniesAfter, CompanyRewritten;
    CompanyStays(st, m, c);
    assert c in RucsKnown(st);
  }

  /** For any company, what ought to be served changes exactly when `CompanyShows` says so. */
  lemma CompanyViewStays(st: Staging, m: Merge, c: CompanyId)
    requires Keyed(st) && Fits(st, m)
    ensures CompanyView(After(st, m), c) == CompanyView(st, c) <==> !CompanyShows(st, m, c)
  {
    hide Keyed, Fits, DocsAfter, AttributesAfter, CompaniesAfter, RolesAfter, RucsAfter, UpsertContacts, DocPhonesIn, EmailsIn,
      CompanyPhonesIn, ContactsShow, CompanyRewritten, PeopleShow, PeopleListed, NthContact, TextsOf, GroupConcat, NullIfEmpty;
    CompanyPhonesStay(st, m, c);
    PeopleStay(st, m, c);
    if c in st.companies {
      CompanyRowStays(st, m, c);
    } else {
      CompanyNewOrNot(st, m, c);
      if c !in m.newCompanies {
        NoPhonesElsewhere(st, m, c);
        NoContactsShow(st.companyPhones, m.rank, c);
        NobodyNewElsewhere(st, m, c);
      }
    }
  }

  lemma CompanyNewOrNot(st: Staging, m: Merge, c: CompanyId)
    requires Keyed(st) && Fits(st, m) && c !in st.companies
    ensures c in CompaniesAfter(st, m) <==> c in m.newCompanies
    ensures c in RucsAfter(st, m) <==> c in m.newCompanies
  {
    hide CompaniesAfter;
    CompanyIsNew(st, m, c);
  }

  lemma NobodyNewElsewhere(st: Staging, m: Merge, c: CompanyId)
    requires Keyed(st) && Fits(st, m) && c !in RucsAfter(st, m)
    ensures !PeopleShow(st, m, c)
  {
    hide RolesAfter, Renamed, PlaceOf, Fits, RucsAfter;
    forall r | r in PeopleOf(RolesAfter(st, m), c) ensures false { RoleAtCompany(st, m, r); }
    PeopleAfter(st, m, c);
  }

  // ----- agreement -----

  lemma KeptRuc(st: Staging, m: Merge, ruc: string)
    requires Keyed(st) && Fits(st, m) && IsRucOf(st, ruc)
    ensures IsRucOf(After(st, m), ruc)
  {
    hide Keyed, Fits, DocsAfter, AttributesAfter, CompaniesAfter, RolesAfter, UpsertContacts, DocPhonesIn, EmailsIn,
      CompanyPhonesIn;
    var c :| c in st.companies && st.companies[c].ruc == ruc;
    CompanyRowStays(st, m, c);
  }

  /** What is served of a company that was there is read under the same ruc as before. */
  lemma ServedStays(st: Staging, m: Merge, sv: Serving, c: CompanyId)
    requires Keyed(st) && Fits(st, m) && (c in st.companies || c !in m.newCompanies)
    ensures CompanyServed(After(st, m), sv, c) == CompanyServed(st, sv, c)
  {
    hide Keyed, Fits, DocsAfter, AttributesAfter, CompaniesAfter, RolesAfter, UpsertContacts, DocPhonesIn, EmailsIn,
      CompanyPhonesIn, RucsAfter, PeopleServed, PhonesAt;
    if c in st.companies { CompanyRowStays(st, m, c); } else { CompanyNewOrNot(st, m, c); }
  }

  lemma NewCompanyUnserved(st: Staging, m: Merge, sv: Serving, c: CompanyId)
    requires Keyed(st) && Fits(st, m) && c in m.newCompanies && CompanyServed(st, sv, c) == CompanyView(st, c)
    ensures CompanyServed(After(st, m), sv, c) != CompanyView(After(st, m), c)
  {
    hide DocsAfter, AttributesAfter, CompaniesAfter, RolesAfter, UpsertContacts, DocPhonesIn, EmailsIn, CompanyPhonesIn,
      RucsAfter, PeopleServed, PeopleListed, PhonesAt, TextsOf, NthContact, GroupConcat, Inserts, RucsIn, NamedBy;
    assert c !in st.companies by { NewIsNew(st, m, c); }
    CompanyNewOrNot(st, m, c);
  }

  lemma NewIsNew(st: Staging, m: Merge, c: CompanyId)
    requires Fits(st, m) && c in m.newCompanies
    ensures c !in st.companies
  {
    assert c in st.companies ==> c in RucsKnown(st);
  }

  /**
   * The agreement survives a merge exactly when the merge shows in no id that it leaves unmarked: no document or
   * company is inserted, no upsert passes its guard with a change that is served.
   */
  lemma AgreementSurvivesExactlyWhen(
    st: Staging, m: Merge, sv: Serving, dirtyDocs: set<DocId>, dirtyCompanies: set<CompanyId>)
    requires Keyed(st) && Fits(st, m) && Agrees(st, sv, dirtyDocs, dirtyCompanies)
    ensures
      var docs, companies := dirtyDocs + MarkedDocs(st, m), dirtyCompanies + CompaniesOfDelta(st, m);
      Agrees(After(st, m), sv, docs, companies)
      <==> (forall d :: d !in docs ==> !DocShows(st, m, d)) && (forall c :: c !in companies ==> !CompanyShows(st, m, c))
  {
    hide Keyed, Fits, After, DocView, CompanyView, DocServed, CompanyServed, DocShows, CompanyShows, DocsOfDelta,
      CompaniesOfDelta, IsRucOf;
    var docs, companies := dirtyDocs + MarkedDocs(st, m), dirtyCompanies + CompaniesOfDelta(st, m);
    forall d | d !in docs ensures DocServed(sv, d) == DocView(After(st, m), d) <==> !DocShows(st, m, d) {
      DocViewStays(st, m, d);
    }
    forall c | c !in companies ensures CompanyServed(After(st, m), sv, c) == CompanyView(After(st, m), c) <==> !CompanyShows(st, m, c) {
      CompanyServedStays(st, m, sv, c);
    }
    forall ruc | ruc in sv.rucAgg ensures IsRucOf(After(st, m), ruc) { KeptRuc(st, m, ruc); }
  }

  lemma CompanyServedStays(st: Staging, m: Merge, sv: Serving, c: CompanyId)
    requires Keyed(st) && Fits(st, m) && CompanyServed(st, sv, c) == CompanyView(st, c)
    ensures CompanyServed(After(st, m), sv, c) == CompanyView(After(st, m), c) <==> !CompanyShows(st, m, c)
  {
    hide Keyed, Fits, After, CompanyView, CompanyServed;
    if c in m.newCompanies {
      NewCompanyUnserved(st, m, sv, c);
    } else {
      ServedStays(st, m, sv, c);
      CompanyViewStays(st, m, c);
    }
  }
}
