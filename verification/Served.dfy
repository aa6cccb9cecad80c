/** What the serving tables hold, column by column, for every id that is not marked. */
module Served {
  import opened Domain
  import opened Ranking
  import opened Projection
  import ContactUpserts

  /** A column is null where the staging column is empty. */
  predicate Shows(column: Option<string>, text: string) {
    if text == "" then column.None? else column == Some(text)
  }

  // ----- contacts -----

  /** `text` is the best contact once the best one is taken away. */
  ghost predicate NextBest(table: Contacts, owner: int, text: string) {
    exists first :: Best(table, owner, first) && first != text && Best(table - {(owner, first)}, owner, text)
  }

  /** The first column holds the best contact and the second the best of the rest, and each is null without one. */
  ghost predicate HoldsBestTwo(first: Option<string>, second: Option<string>, table: Contacts, owner: int) {
    && (forall t :: first == Some(t) <==> Best(table, owner, t))
    && (forall t :: second == Some(t) <==> NextBest(table, owner, t))
  }

  lemma NthAreBestTwo(table: Contacts, owner: int)
    ensures HoldsBestTwo(NthContact(table, owner, 1), NthContact(table, owner, 2), table, owner)
  {
    hide NthContact, Best;
    var first, second := NthContact(table, owner, 1), NthContact(table, owner, 2);
    forall t ensures first == Some(t) <==> Best(table, owner, t) { FirstContactIsBest(table, owner, t); }
    forall t ensures second == Some(t) <==> NextBest(table, owner, t) {
      if first.Some? {
        SecondContactIsNextBest(table, owner, first.value, t);
      } else {
        SecondHasFirst(table, owner);
      }
    }
  }

  lemma SecondHasFirst(table: Contacts, owner: int)
    ensures NthContact(table, owner, 2).Some? ==> NthContact(table, owner, 1).Some?
  {
    var row := TheRow(Nth(ContactsOf(table, owner), ContactBefore, 2));
    if row.Some? {
      assert row.value in ContactsOf(table, owner);
      ContactUpserts.SomeFirst(table, owner, row.value.text);
    }
  }

  // ----- roles -----

  /** Dated roles first, the latest of them first, and the older row among equals. */
  ghost predicate Precedes(roles: map<RoleId, Role>, a: RoleId, b: RoleId)
    requires a in roles && b in roles
  {
    || (roles[a].startDate != "" && roles[b].startDate == "")
    || (roles[a].startDate != "" && roles[b].startDate != "" && TextLess(roles[b].startDate, roles[a].startDate))
    || (roles[a].startDate == roles[b].startDate && a < b)
  }

  lemma PrecedesIsBefore(roles: map<RoleId, Role>, a: RoleId, b: RoleId)
    requires a in roles && b in roles
    ensures Precedes(roles, a, b) <==> RoleBefore(roles, a, b)
  {
  }

  /** The document's role that precedes all its others. */
  ghost predicate IsPrimary(roles: map<RoleId, Role>, d: DocId, r: RoleId) {
    && r in roles && roles[r].doc == Some(d)
    && forall q :: q in roles && roles[q].doc == Some(d) && q != r ==> Precedes(roles, r, q)
  }

  lemma PrimaryIs(roles: map<RoleId, Role>, d: DocId)
    ensures forall r :: PrimaryRole(roles, d) == Some(r) <==> IsPrimary(roles, d, r)
  {
    hide PrimaryRole, RoleBefore, Precedes;
    forall r ensures PrimaryRole(roles, d) == Some(r) <==> IsPrimary(roles, d, r) {
      PrimaryRoleIsFirst(roles, d, r);
      forall a, b | a in roles && b in roles { PrecedesIsBefore(roles, a, b); }
    }
  }

  /** The columns of a document's organisation are those of its primary role and of that role's company. */
  ghost predicate ShowsOrg(org: OrgColumns, role: Role, company: Option<Company>) {
    && Shows(org.roleName, role.roleName) && Shows(org.roleStart, role.startDate)
    && Shows(org.repType, role.repType) && Shows(org.repNumber, role.repNumber) && Shows(org.repName, role.repName)
    && (company.Some? ==>
          && Shows(org.ruc, company.value.ruc) && Shows(org.name, company.value.legalName)
          && org.facts == company.value.facts && org.rest == company.value.rest)
    && (company.None? ==> org.ruc.None? && org.name.None? && org.facts == map[] && org.rest == NO_REST)
  }

  ghost predicate ShowsNoOrg(org: OrgColumns) {
    && org.ruc.None? && org.name.None? && org.facts == map[] && org.rest == NO_REST && org.roleName.None?
    && org.roleStart.None? && org.repType.None? && org.repNumber.None? && org.repName.None?
  }

  lemma OrgShows(st: Staging, d: DocId)
    ensures forall r :: IsPrimary(st.roles, d, r) ==>
      ShowsOrg(PrimaryOrg(st, d), st.roles[r], At(st.companies, st.roles[r].company))
    ensures (forall r :: !IsPrimary(st.roles, d, r)) ==> ShowsNoOrg(PrimaryOrg(st, d))
  {
    hide PrimaryRole, Precedes;
    PrimaryIs(st.roles, d);
    var primary := PrimaryRole(st.roles, d);
    if primary.Some? { assert IsPrimary(st.roles, d, primary.value); }
  }

  // ----- texts in one column -----

  /** A list grows at its end by a semicolon and the next text. */
  lemma {:induction false} JoinedMeans(texts: seq<string>, t: string)
    ensures Joined([t]) == t
    ensures texts != [] ==> Joined(texts + [t]) == Joined(texts) + ";" + t
  {
    if |texts| > 1 {
      JoinedMeans(texts[1..], t);
      assert (texts + [t])[1..] == texts[1..] + [t];
    } else if |texts| == 1 {
      assert (texts + [t])[1..] == [t];
    }
  }

  /** The owner's contacts in text order, joined; null without any. */
  ghost predicate ShowsList(column: Option<string>, table: Contacts, owner: int) {
    && (column.None? <==> forall t :: (owner, t) !in table)
    && (column.Some? ==> exists texts: seq<string> ::
          && column.value == Joined(texts)
          && (forall i, j :: 0 <= i < j < |texts| ==> TextLess(texts[i], texts[j]))
          && forall t :: t in texts <==> (owner, t) in table)
  }

  lemma ConcatShows(table: Contacts, owner: int)
    ensures ShowsList(GroupConcat(TextsOf(table, owner)), table, owner)
  {
    hide Joined;
    var all := TextsOf(table, owner);
    forall t ensures t in all <==> (owner, t) in table {
      if (owner, t) in table { assert (owner, t).1 in all; }
    }
    if all != {} { var texts := SortedTexts(all); }
  }

  // ----- a document -----

  /**
   * Every column of an unmarked document's row: its key, name and ruc, the organisation of its primary role, its best
   * email, its best phone and the best of the others. Beside the row, its phones, its searched name and its list.
   */
  lemma ServedDocument(st: Staging, sv: Serving, dirtyDocs: set<DocId>, dirtyCompanies: set<CompanyId>, d: DocId)
    requires Agrees(st, sv, dirtyDocs, dirtyCompanies) && d !in dirtyDocs
    ensures d in sv.docRows <==> d in st.documents
    ensures d in sv.docRows ==>
      var row := sv.docRows[d];
      && row.document == st.documents[d]
      && (if d in st.attributes then
            Shows(row.person.name, st.attributes[d].fullName) && row.person.ruc == st.attributes[d].naturalRuc
            && row.person.rest == st.attributes[d].rest
          else row.person.name.None? && row.person.ruc.None? && row.person.rest == NO_REST)
      && (forall r :: IsPrimary(st.roles, d, r) ==> ShowsOrg(row.org, st.roles[r], At(st.companies, st.roles[r].company)))
      && ((forall r :: !IsPrimary(st.roles, d, r)) ==> ShowsNoOrg(row.org))
      && (forall t :: row.email == Some(t) <==> Best(st.docEmails, d, t))
      && HoldsBestTwo(row.phonePrimary, row.phoneSecondary, st.docPhones, d)
      && d in sv.docFts && sv.docFts[d] == (if d in st.attributes then st.attributes[d].fullName else "")
    ensures forall t :: (t, d) in sv.docPhones <==> (d, t) in st.docPhones
    ensures ShowsList(At(sv.docAgg, d), st.docPhones, d)
  {
    hide PrimaryOrg, NthContact, GroupConcat, IsPrimary, ShowsOrg, ShowsNoOrg, HoldsBestTwo, Best, ShowsList, TextsOf, PhonesAt,
      CompanyView, CompanyServed;
    assert DocServed(sv, d) == DocView(st, d);
    OrgShows(st, d);
    NthAreBestTwo(st.docPhones, d);
    FirstEmail(st.docEmails, d);
    ConcatShows(st.docPhones, d);
    IndexShows(sv.docPhones, st.docPhones, d);
  }

  lemma FirstEmail(table: Contacts, owner: int)
    ensures forall t :: NthContact(table, owner, 1) == Some(t) <==> Best(table, owner, t)
  {
    hide NthContact, Best;
    forall t { FirstContactIsBest(table, owner, t); }
  }

  lemma IndexShows(index: set<(string, int)>, table: Contacts, owner: int)
    requires PhonesAt(index, owner) == TextsOf(table, owner)
    ensures forall t :: (t, owner) in index <==> (owner, t) in table
  {
    forall t ensures (t, owner) in index <==> (owner, t) in table {
      if (t, owner) in index { assert t in PhonesAt(index, owner) && t in TextsOf(table, owner); }
      if (owner, t) in table { assert t in TextsOf(table, owner) && t in PhonesAt(index, owner); }
    }
  }

  // ----- a company -----

  /** A role that names someone at the company. */
  ghost predicate NamesSomeone(roles: map<RoleId, Role>, c: CompanyId, r: RoleId) {
    r in roles && roles[r].company == c && (roles[r].repName != "" || roles[r].repNumber != "")
  }

  /** Those of the company's people who precede this one. */
  ghost predicate AreAhead(roles: map<RoleId, Role>, c: CompanyId, r: RoleId, ahead: set<RoleId>)
    requires r in roles
  {
    forall q :: q in ahead <==> NamesSomeone(roles, c, q) && Precedes(roles, q, r)
  }

  lemma SameAhead(roles: map<RoleId, Role>, c: CompanyId, r: RoleId, a: set<RoleId>, b: set<RoleId>)
    requires r in roles && AreAhead(roles, c, r, a) && AreAhead(roles, c, r, b)
    ensures a == b
  {
    hide Precedes;
    forall q ensures q in a <==> q in b {
      assert q in a <==> NamesSomeone(roles, c, q) && Precedes(roles, q, r);
    }
  }

  /** Exactly `n - 1` of the company's people precede this one. */
  ghost predicate HasPlace(roles: map<RoleId, Role>, c: CompanyId, r: RoleId, n: nat) {
    NamesSomeone(roles, c, r) && exists ahead :: AreAhead(roles, c, r, ahead) && |ahead| == n - 1
  }

  ghost predicate ShowsPerson(person: Person, role: Role) {
    && Shows(person.docType, role.repType) && Shows(person.docNumber, role.repNumber) && Shows(person.name, role.repName)
    && Shows(person.roleName, role.roleName) && Shows(person.startDate, role.startDate)
  }

  lemma PlaceIsRowNumber(roles: map<RoleId, Role>, c: CompanyId, r: RoleId, n: nat)
    ensures r in Nth(PeopleOf(roles, c), RoleOrder(roles), n) <==> HasPlace(roles, c, r, n)
  {
    hide RoleBefore, Precedes;
    var people := PeopleOf(roles, c);
    forall a, b | a in roles && b in roles { PrecedesIsBefore(roles, a, b); }
    if r in people {
      var ahead := Ahead(people, RoleOrder(roles), r);
      assert AreAhead(roles, c, r, ahead);
      if HasPlace(roles, c, r, n) {
        var same :| AreAhead(roles, c, r, same) && |same| == n - 1;
        SameAhead(roles, c, r, same, ahead);
      }
    }
  }

  lemma PersonShows(roles: map<RoleId, Role>, c: CompanyId, n: nat)
    ensures PersonAt(roles, c, n).None? <==> forall r :: !HasPlace(roles, c, r, n)
    ensures forall r :: HasPlace(roles, c, r, n) ==>
      r in roles && PersonAt(roles, c, n).Some? && ShowsPerson(PersonAt(roles, c, n).value, roles[r])
  {
    hide RoleBefore, HasPlace, Nth;
    var rows := Nth(PeopleOf(roles, c), RoleOrder(roles), n);
    RolesOrdered(roles, PeopleOf(roles, c));
    forall r ensures r in rows <==> HasPlace(roles, c, r, n) { PlaceIsRowNumber(roles, c, r, n); }
    forall r | r in rows ensures rows == {r} && r in roles { OnlyRow(roles, c, n, r); }
    if r :| r in rows { assert TheRow(rows) == Some(r); }
  }

  lemma OnlyRow(roles: map<RoleId, Role>, c: CompanyId, n: nat, r: RoleId)
    requires Ordered(PeopleOf(roles, c), RoleOrder(roles)) && r in Nth(PeopleOf(roles, c), RoleOrder(roles), n)
    ensures Nth(PeopleOf(roles, c), RoleOrder(roles), n) == {r} && r in roles
  {
    hide RoleBefore, RoleOrder;
    OnlyOne(PeopleOf(roles, c), RoleOrder(roles), n, r);
  }

  /** The first ten people, each at its place. */
  ghost predicate ShowsPeople(people: map<(CompanyId, nat), Person>, roles: map<RoleId, Role>, c: CompanyId) {
    forall n: nat ::
      && ((c, n) in people <==> 1 <= n <= 10 && exists r :: HasPlace(roles, c, r, n))
      && ((c, n) in people ==> forall r :: HasPlace(roles, c, r, n) ==> r in roles && ShowsPerson(people[(c, n)], roles[r]))
  }

  lemma PeopleShow(people: map<(CompanyId, nat), Person>, roles: map<RoleId, Role>, c: CompanyId)
    requires PeopleServed(people, c) == PeopleListed(roles, c)
    ensures ShowsPeople(people, roles, c)
  {
    hide PersonAt, HasPlace, ShowsPerson;
    forall n: nat
      ensures (c, n) in people <==> 1 <= n <= 10 && exists r :: HasPlace(roles, c, r, n)
      ensures (c, n) in people ==> forall r :: HasPlace(roles, c, r, n) ==> r in roles && ShowsPerson(people[(c, n)], roles[r])
    {
      PersonShows(roles, c, n);
      assert (c, n) in people <==> n in PeopleServed(people, c);
      if (c, n) in people { assert PeopleServed(people, c)[n] == people[(c, n)]; }
    }
  }

  /** Every column of an unmarked company's row, its listed people, and what is kept beside the row. */
  lemma ServedCompany(st: Staging, sv: Serving, dirtyDocs: set<DocId>, dirtyCompanies: set<CompanyId>, c: CompanyId)
    requires Agrees(st, sv, dirtyDocs, dirtyCompanies) && c !in dirtyCompanies
    ensures c in sv.companyRows <==> c in st.companies
    ensures c in sv.companyRows ==>
      var row, company := sv.companyRows[c], st.companies[c];
      && row.ruc == company.ruc && Shows(row.legalName, company.legalName)
      && row.facts == company.facts && row.rest == company.rest
      && HoldsBestTwo(row.phonePrimary, row.phoneSecondary, st.companyPhones, c)
      && c in sv.companyFts && sv.companyFts[c] == company.legalName
      && ShowsList(At(sv.rucAgg, company.ruc), st.companyPhones, c)
    ensures ShowsPeople(sv.people, st.roles, c)
    ensures forall t :: (t, c) in sv.companyPhones <==> (c, t) in st.companyPhones
  {
    hide NthContact, GroupConcat, HoldsBestTwo, Best, ShowsList, TextsOf, PhonesAt, DocView, DocServed, PeopleServed, PeopleListed,
      ShowsPeople;
    assert CompanyServed(st, sv, c) == CompanyView(st, c);
    NthAreBestTwo(st.companyPhones, c);
    ConcatShows(st.companyPhones, c);
    IndexShows(sv.companyPhones, st.companyPhones, c);
    PeopleShow(sv.people, st.roles, c);
  }
}
