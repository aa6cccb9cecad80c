/** The rebuild of the serving tables for a chunk of ids, as the SQL batch does it. */
module Materialize {
  import opened Domain
  import opened Ranking
  import opened Projection

  /** `PARTITION BY owner ORDER BY weight DESC, text`. */
  predicate ContactBeforeInPartition(a: Contact, b: Contact) {
    a.owner == b.owner && ContactBefore(a, b)
  }

  /** The window over the chunk's contacts only. */
  function Window(table: Contacts, chunk: set<int>): set<Contact> {
    set k | k in table && k.0 in chunk :: Contact(k.0, k.1, table[k])
  }

  function Numbered(window: set<Contact>, owner: int, n: nat): set<Contact> {
    set x | x in window && x.owner == owner && RowNumber(window, ContactBeforeInPartition, x) == n
  }

  function ColumnOf(window: set<Contact>, owner: int, n: nat): Option<string> {
    var row := TheRow(Numbered(window, owner, n));
    if row.Some? then Some(row.value.text) else None
  }

  /** Ranking a chunk numbers each owner's contacts as ranking that owner alone does. */
  lemma WindowNumbers(table: Contacts, chunk: set<int>, owner: int, n: nat)
    requires owner in chunk
    ensures ColumnOf(Window(table, chunk), owner, n) == NthContact(table, owner, n)
  {
    var window, own := Window(table, chunk), ContactsOf(table, owner);
    forall x | x in own ensures x in window && RowNumber(window, ContactBeforeInPartition, x) == RowNumber(own, ContactBefore, x) {
      assert (x.owner, x.text) in table;
      assert Ahead(window, ContactBeforeInPartition, x) == Ahead(own, ContactBefore, x) by {
        forall y | y in Ahead(window, ContactBeforeInPartition, x) ensures y in own { assert (y.owner, y.text) in table; }
        forall y | y in Ahead(own, ContactBefore, x) ensures y in window { assert (y.owner, y.text) in table; }
      }
    }
    assert Numbered(window, owner, n) == Nth(own, ContactBefore, n) by {
      forall x | x in Numbered(window, owner, n) ensures x in own { assert (x.owner, x.text) in table; }
    }
  }

  function Others<V>(m: map<int, V>, chunk: set<int>): map<int, V> {
    map k | k in m && k !in chunk :: m[k]
  }

  function IndexOf(table: Contacts, chunk: set<int>): set<(string, int)> {
    set k | k in table && k.0 in chunk :: (k.1, k.0)
  }

  function OtherPhones(index: set<(string, int)>, chunk: set<int>): set<(string, int)> {
    set p | p in index && p.1 !in chunk
  }

  function MaterializeDocs(st: Staging, sv: Serving, chunk: set<DocId>): Serving {
    var phones, emails := Window(st.docPhones, chunk), Window(st.docEmails, chunk);
    var rows := map d | d in chunk && d in st.documents ::
      JoinedRow(st, d, ColumnOf(emails, d, 1), ColumnOf(phones, d, 1), ColumnOf(phones, d, 2));
    var index := OtherPhones(sv.docPhones, chunk) + IndexOf(st.docPhones, chunk);
    sv.(
      docRows := Others(sv.docRows, chunk) + rows,
      docPhones := index,
      docFts := Others(sv.docFts, chunk) + map d | d in rows :: OrEmpty(rows[d].person.name),
      docAgg := Others(sv.docAgg, chunk)
                + map d | d in chunk && GroupConcat(PhonesAt(index, d)).Some? :: GroupConcat(PhonesAt(index, d)).value)
  }

  lemma IndexServes(index: set<(string, int)>, table: Contacts, chunk: set<int>, owner: int)
    ensures PhonesAt(OtherPhones(index, chunk) + IndexOf(table, chunk), owner)
            == if owner in chunk then TextsOf(table, owner) else PhonesAt(index, owner)
  {
    var after := PhonesAt(OtherPhones(index, chunk) + IndexOf(table, chunk), owner);
    if owner in chunk {
      forall t | t in TextsOf(table, owner) ensures t in after { assert (t, owner) in IndexOf(table, chunk); }
    } else {
      forall t | t in PhonesAt(index, owner) ensures t in after { assert (t, owner) in OtherPhones(index, chunk); }
    }
  }

  /** A chunk's documents come out as they ought to, and no other document changes. */
  lemma DocsRebuilt(st: Staging, sv: Serving, chunk: set<DocId>, d: DocId)
    ensures DocServed(MaterializeDocs(st, sv, chunk), d) == if d in chunk then DocView(st, d) else DocServed(sv, d)
  {
    IndexServes(sv.docPhones, st.docPhones, chunk, d);
    if d in chunk {
      WindowNumbers(st.docPhones, chunk, d, 1);
      WindowNumbers(st.docPhones, chunk, d, 2);
      WindowNumbers(st.docEmails, chunk, d, 1);
    }
  }

  // ----- companies -----

  function OtherPeople(people: map<(CompanyId, nat), Person>, chunk: set<CompanyId>): map<(CompanyId, nat), Person> {
    map k | k in people && k.0 !in chunk :: people[k]
  }

  function RankedPeople(st: Staging, chunk: set<CompanyId>): map<(CompanyId, nat), Person> {
    map c, n: nat | c in chunk && 1 <= n <= LISTED_PEOPLE && PersonAt(st.roles, c, n).Some?
      :: (c, n) := PersonAt(st.roles, c, n).value
  }

  /** The rucs of the chunk's companies. */
  function RucsOf(st: Staging, chunk: set<CompanyId>): set<string> {
    set c | c in chunk && c in st.companies :: st.companies[c].ruc
  }

  /** `GROUP BY ruc` over the chunk's part of the phone index. */
  function PhonesOfRuc(st: Staging, index: set<(string, CompanyId)>, chunk: set<CompanyId>, ruc: string): set<string> {
    set p | p in index && p.1 in chunk && p.1 in st.companies && st.companies[p.1].ruc == ruc :: p.0
  }

  function RegroupedRucs(
    st: Staging, agg: map<string, string>, index: set<(string, CompanyId)>, chunk: set<CompanyId>): map<string, string>
  {
    (agg - RucsOf(st, chunk))
    + map ruc | ruc in RucsOf(st, chunk) && GroupConcat(PhonesOfRuc(st, index, chunk, ruc)).Some?
        :: GroupConcat(PhonesOfRuc(st, index, chunk, ruc)).value
  }

  function MaterializeCompanies(st: Staging, sv: Serving, chunk: set<CompanyId>): Serving {
    var phones := Window(st.companyPhones, chunk);
    var rows := map c | c in chunk && c in st.companies ::
      CompanyRow(st.companies[c].ruc, NullIfEmpty(st.companies[c].legalName), st.companies[c].facts,
                 st.companies[c].rest, ColumnOf(phones, c, 1), ColumnOf(phones, c, 2));
    var index := OtherPhones(sv.companyPhones, chunk) + IndexOf(st.companyPhones, chunk);
    sv.(
      companyRows := Others(sv.companyRows, chunk) + rows,
      people := OtherPeople(sv.people, chunk) + RankedPeople(st, chunk),
      companyPhones := index,
      companyFts := Others(sv.companyFts, chunk) + map c | c in rows :: OrEmpty(rows[c].legalName),
      rucAgg := RegroupedRucs(st, sv.rucAgg, index, chunk))
  }

  lemma PeopleRebuilt(st: Staging, people: map<(CompanyId, nat), Person>, chunk: set<CompanyId>, c: CompanyId)
    ensures PeopleServed(OtherPeople(people, chunk) + RankedPeople(st, chunk), c)
            == if c in chunk then PeopleListed(st.roles, c) else PeopleServed(people, c)
  {
  }

  /** A ruc is one company's, so grouping by ruc groups that company's phones. */
  lemma RucPhones(st: Staging, index: set<(string, CompanyId)>, chunk: set<CompanyId>, c: CompanyId)
    requires RucsUnique(st) && c in chunk && c in st.companies
    ensures PhonesOfRuc(st, index, chunk, st.companies[c].ruc) == PhonesAt(index, c)
  {
  }

  lemma RucServes(st: Staging, agg: map<string, string>, index: set<(string, CompanyId)>, chunk: set<CompanyId>, c: CompanyId)
    requires RucsUnique(st) && c in st.companies
    ensures At(RegroupedRucs(st, agg, index, chunk), st.companies[c].ruc)
            == if c in chunk then GroupConcat(PhonesAt(index, c)) else At(agg, st.companies[c].ruc)
  {
    hide GroupConcat, PhonesOfRuc;
    if c in chunk {
      RucPhones(st, index, chunk, c);
      assert st.companies[c].ruc in RucsOf(st, chunk);
    } else {
      assert st.companies[c].ruc !in RucsOf(st, chunk);
    }
  }

  lemma CompaniesRebuilt(st: Staging, sv: Serving, chunk: set<CompanyId>, c: CompanyId)
    requires RucsUnique(st)
    ensures CompanyServed(st, MaterializeCompanies(st, sv, chunk), c)
            == if c in chunk then CompanyView(st, c) else CompanyServed(st, sv, c)
  {
    hide PersonAt, RegroupedRucs, PeopleServed, PeopleListed, OtherPeople, RankedPeople, GroupConcat, PhonesAt, TextsOf,
      ColumnOf, NthContact;
    var index := OtherPhones(sv.companyPhones, chunk) + IndexOf(st.companyPhones, chunk);
    IndexServes(sv.companyPhones, st.companyPhones, chunk, c);
    PeopleRebuilt(st, sv.people, chunk, c);
    if c in st.companies { RucServes(st, sv.rucAgg, index, chunk, c); }
    if c in chunk {
      WindowNumbers(st.companyPhones, chunk, c, 1);
      WindowNumbers(st.companyPhones, chunk, c, 2);
    }
  }

  // ----- agreement -----

  lemma DocChunkAgrees(st: Staging, sv: Serving, chunk: set<DocId>, dirtyDocs: set<DocId>, dirtyCompanies: set<CompanyId>)
    requires Agrees(st, sv, dirtyDocs, dirtyCompanies)
    ensures Agrees(st, MaterializeDocs(st, sv, chunk), dirtyDocs - chunk, dirtyCompanies)
  {
    hide DocView, CompanyView, DocServed;
    var after := MaterializeDocs(st, sv, chunk);
    forall d | d !in dirtyDocs - chunk ensures DocServed(after, d) == DocView(st, d) { DocsRebuilt(st, sv, chunk, d); }
    forall c | c !in dirtyCompanies ensures CompanyServed(st, after, c) == CompanyView(st, c) {
      assert CompanyServed(st, after, c) == CompanyServed(st, sv, c);
    }
  }

  lemma CompanyChunkAgrees(
    st: Staging, sv: Serving, chunk: set<CompanyId>, dirtyDocs: set<DocId>, dirtyCompanies: set<CompanyId>)
    requires RucsUnique(st) && Agrees(st, sv, dirtyDocs, dirtyCompanies)
    ensures Agrees(st, MaterializeCompanies(st, sv, chunk), dirtyDocs, dirtyCompanies - chunk)
  {
    hide DocView, CompanyView, CompanyServed;
    var after := MaterializeCompanies(st, sv, chunk);
    forall c | c !in dirtyCompanies - chunk ensures CompanyServed(st, after, c) == CompanyView(st, c) {
      CompaniesRebuilt(st, sv, chunk, c);
    }
    forall d | d !in dirtyDocs ensures DocServed(after, d) == DocView(st, d) {
      assert DocServed(after, d) == DocServed(sv, d);
    }
  }
}
