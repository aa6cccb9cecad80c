/** Merges after which the serving tables are out of date with nothing marked. */
module StaleRows {
  import opened Domain
  import opened Ranking
  import opened Projection
  import opened Upserts
  import opened RowHash
  import opened Materialize
  import opened Drain
  import opened MergeRuns
  import Staleness

  lemma MaxOfOne(t: string)
    ensures MaxText({t}) == t && MaxText({}) == ""
  {
    var sorted := SortedTexts({t});
    assert t in sorted;
    assert sorted[|sorted| - 1] in sorted;
  }

  // ----- a person -----

  function PersonRow(dni: string, name: string): StagedRow {
    StagedRow(Some(dni), None, name, None, None, "", map[], "", "", "", "", "", [], false)
  }

  lemma OnePersonGiven(m: Merge, n: int, dni: string, name: string)
    requires m.stage == map[n := PersonRow(dni, name)] && dni != ""
    ensures Document("DNI", dni) in NamedBy(m.stage)
    ensures GivenAttribute(m, Document("DNI", dni)) == Attribute(name, m.rank, None, NO_REST)
  {
    hide MaxText;
    assert n in m.stage && DniKey(m.stage[n]) == Some(Document("DNI", dni));
    assert NamesFor(m.stage, Document("DNI", dni)) == {name};
    assert RucsFor(m.stage, Document("DNI", dni)) == {""};
    MaxOfOne(name);
    MaxOfOne("");
  }

  /**
   * An unchanged row takes a person's name back from the source that changed it last, in any store where ranks
   * allow it. It marks nothing, so the old name goes on being served.
   */
  lemma UnchangedRowTakesTheNameBack(
    st: Staging, m: Merge, sv: Serving, dirtyDocs: set<DocId>, dirtyCompanies: set<CompanyId>, d: DocId, n: int,
    dni: string, name: string)
    requires Keyed(st) && Fits(st, m) && Agrees(st, sv, dirtyDocs, dirtyCompanies)
    requires m.stage == map[n := PersonRow(dni, name)] && m.delta == {} && dni != ""
    requires d in st.documents && st.documents[d] == Document("DNI", dni) && d !in dirtyDocs
    requires d in st.attributes && Takes(st.attributes[d].rank, name, m.rank) && name != st.attributes[d].fullName
    ensures MarkedDocs(st, m) == {} && CompaniesOfDelta(st, m) == {}
    ensures !Agrees(After(st, m), sv, dirtyDocs, dirtyCompanies)
  {
    hide Keyed, Fits, Agrees, After, RolesAfter, NamedBy, GivenAttribute, DocIdOf, CompanyIdOf, Staleness.RoleShows,
      Staleness.CompanyShows;
    OnePersonGiven(m, n, dni, name);
    NothingMarked(st, m);
    assert Staleness.DocShows(st, m, d);
    assert dirtyDocs + MarkedDocs(st, m) == dirtyDocs && dirtyCompanies + CompaniesOfDelta(st, m) == dirtyCompanies;
    Staleness.AgreementSurvivesExactlyWhen(st, m, sv, dirtyDocs, dirtyCompanies);
  }

  lemma NothingMarked(st: Staging, m: Merge)
    requires m.delta == {}
    ensures MarkedDocs(st, m) == {} && CompaniesOfDelta(st, m) == {}
  {
    hide RolesAfter, DocIdOf, CompanyIdOf;
    assert DocsOfDelta(st, m) == {};
    assert HoldersAt(RolesAfter(st, m), {}) == {};
  }

  /** A new row without a company that names a representative and another, new person marks only the representative. */
  lemma SecondPersonIsNotMarked(
    st: Staging, m: Merge, sv: Serving, dirtyDocs: set<DocId>, dirtyCompanies: set<CompanyId>, d: DocId, n: int,
    row: StagedRow)
    requires Keyed(st) && Fits(st, m) && Agrees(st, sv, dirtyDocs, dirtyCompanies)
    requires m.stage == map[n := row] && m.delta == {n} && RucOf(row).None?
    requires RepKey(row).Some? && DniKey(row).Some? && RepKey(row) != DniKey(row)
    requires d in m.newDocs && m.newDocs[d] == DniKey(row).value && d !in dirtyDocs
    ensures d !in MarkedDocs(st, m)
    ensures !Agrees(After(st, m), sv, dirtyDocs + MarkedDocs(st, m), dirtyCompanies + CompaniesOfDelta(st, m))
  {
    hide Keyed, Agrees, After, RolesAfter, DocIdOf, CompanyIdOf, Staleness.RoleShows, Staleness.CompanyShows,
      Staleness.AttributeShows, Inserts, RoleSources;
    assert n in m.stage && m.stage[n] == row;
    Staleness.RowJoinsDoc(st, m, n);
    Staleness.RowJoinsCompany(st, m, n);
    assert CompaniesOfDelta(st, m) == {};
    assert HoldersAt(RolesAfter(st, m), {}) == {};
    assert DocsAfter(st, m)[d] == m.newDocs[d];
    assert Staleness.DocShows(st, m, d);
    Staleness.AgreementSurvivesExactlyWhen(st, m, sv, dirtyDocs, dirtyCompanies);
  }

  // ----- a company, in a whole run -----

  const RUC := "20100000001"

  function CompanyRowWith(status: string): StagedRow {
    StagedRow(None, None, "", None, Some(RUC), "ACME", map[Status := status], "", "", "", "", "", [], false)
  }

  function CompanyMerge(status: string, delta: set<int>, newCompanies: map<CompanyId, string>): Merge {
    Merge(map[1 := CompanyRowWith(status)], 100, delta, map[], newCompanies, map[], [])
  }

  function Acme(status: string): Company { Company(RUC, "ACME", 100, map[Status := status], NO_REST) }

  function OnlyCompanies(companies: map<CompanyId, Company>): Staging {
    Staging(map[], map[], companies, map[], map[], map[], map[])
  }

  lemma GivenAcme(status: string, m: Merge)
    requires m.stage == map[1 := CompanyRowWith(status)] && m.rank == 100 && status != ""
    ensures RucsIn(m.stage) == {RUC} && GivenCompany(m, RUC) == Acme(status)
    ensures NamedBy(m.stage) == {}
  {
    hide MaxText;
    assert 1 in m.stage && RucOf(m.stage[1]) == Some(RUC);
    assert CompanyNames(m.stage, RUC) == {"ACME"};
    MaxOfOne("ACME");
    GivenStatus(status, m.stage);
  }

  lemma GivenStatus(status: string, stage: Stage)
    requires stage == map[1 := CompanyRowWith(status)] && status != ""
    ensures GivenFacts(stage, RUC) == map[Status := status]
  {
    hide MaxText;
    assert 1 in stage && RucOf(stage[1]) == Some(RUC);
    assert FactTexts(stage, RUC, Status) == {status};
    MaxOfOne(status);
    forall column: Column | column != Status ensures FactTexts(stage, RUC, column) == {} {
    }
  }

  lemma NoSources(st: Staging, status: string, m: Merge)
    requires m.stage == map[1 := CompanyRowWith(status)]
    ensures RoleSources(st, m) == {} && RoleKeysIn(st, m) == {}
    ensures forall id :: DocPhonesIn(st, m, id) == {} && CompanyPhonesIn(st, m, id) == {} && EmailsIn(st, m, id) == {}
  {
    hide DocIdOf, CompanyIdOf;
  }

  lemma InsertsNone<K(!new)>(known: map<int, K>, wanted: set<K>)
    requires forall k :: k in wanted ==> Has(known, k)
    ensures Inserts(known, wanted, map[])
  {
  }

  lemma InsertsAcme()
    ensures Inserts(map[], {RUC}, map[1 := RUC])
  {
    var given: map<int, string> := map[1 := RUC];
    assert given[1] == RUC;
  }

  /** `acme` is the store with ACME and nothing else, and without it there is no row at all. */
  function Store(acme: Option<string>): Staging {
    OnlyCompanies(if acme.Some? then map[1 := Acme(acme.value)] else map[])
  }

  function NewAcme(acme: Option<string>): map<CompanyId, string> { if acme.Some? then map[] else map[1 := RUC] }

  lemma AcmeFits(acme: Option<string>, status: string, delta: set<int>)
    requires status != ""
    ensures Fits(Store(acme), CompanyMerge(status, delta, NewAcme(acme)))
  {
    hide GivenCompany, NamedBy, RucsIn, RoleSources, RoleKeysIn, Inserts;
    var st, m := Store(acme), CompanyMerge(status, delta, NewAcme(acme));
    GivenAcme(status, m);
    NoSources(st, status, m);
    InsertsNone(st.documents, {});
    InsertsNone(KeysKnown(st), {});
    if acme.Some? {
      assert RucsKnown(st)[1] == RUC;
      InsertsNone(RucsKnown(st), {RUC});
    } else {
      assert RucsKnown(st) == map[];
      InsertsAcme();
    }
  }

  lemma NoContacts(owners: set<int>, texts: int -> set<string>, rank: int)
    requires forall id :: texts(id) == {}
    ensures UpsertContacts(map[], owners, texts, rank) == map[]
  {
  }

  lemma AcmeAfter(acme: Option<string>, status: string, delta: set<int>)
    requires status != ""
    ensures After(Store(acme), CompanyMerge(status, delta, NewAcme(acme))) == Store(Some(status))
  {
    hide GivenCompany, NamedBy, RucsIn, RoleSources, DocPhonesIn, CompanyPhonesIn, EmailsIn, RucsAfter, CompaniesAfter,
      UpsertContacts;
    var st, m := Store(acme), CompanyMerge(status, delta, NewAcme(acme));
    GivenAcme(status, m);
    NoSources(st, status, m);
    AcmeCompanies(acme, status, delta);
    assert RolesAfter(st, m) == map[];
    assert AttributesAfter(st, m) == map[];
    NoContacts(DocsAfter(st, m).Keys, d => DocPhonesIn(st, m, d), m.rank);
    NoContacts(DocsAfter(st, m).Keys, d => EmailsIn(st, m, d), m.rank);
    NoContacts(RucsAfter(st, m).Keys, c => CompanyPhonesIn(st, m, c), m.rank);
  }

  lemma AcmeMarks(acme: Option<string>, status: string, delta: set<int>)
    requires status != "" && delta <= {1}
    ensures
      var st, m := Store(acme), CompanyMerge(status, delta, NewAcme(acme));
      MarkedDocs(st, m) == {} && CompaniesOfDelta(st, m) == delta
  {
    hide DocIdOf, CompanyIdOf, RucsAfter, RoleAfter;
    var st, m := Store(acme), CompanyMerge(status, delta, NewAcme(acme));
    AcmeJoins(acme, status, delta);
    assert RolesAfter(st, m) == map[] by { AcmeAfter(acme, status, delta); RolesAreAfter(st, m); }
    assert DocsOfDelta(st, m) == {};
    assert CompaniesOfDelta(st, m) == delta;
  }

  lemma AcmeJoins(acme: Option<string>, status: string, delta: set<int>)
    ensures
      var st, m := Store(acme), CompanyMerge(status, delta, NewAcme(acme));
      && DocIdOf(st, m, m.stage[1]) == None && CompanyIdOf(st, m, m.stage[1]) == Some(1)
  {
    var st, m := Store(acme), CompanyMerge(status, delta, NewAcme(acme));
    assert RucsAfter(st, m) == map[1 := RUC];
    var found := set c | c in RucsAfter(st, m) && RucOf(m.stage[1]) == Some(RucsAfter(st, m)[c]);
    assert found == {1};
    assert 1 in found;
    Staleness.TheRowIn(found);
  }

  lemma AcmeCompanies(acme: Option<string>, status: string, delta: set<int>)
    requires status != ""
    ensures
      var st, m := Store(acme), CompanyMerge(status, delta, NewAcme(acme));
      CompaniesAfter(st, m) == map[1 := Acme(status)]
  {
    hide GivenCompany, RucsIn;
    var st, m := Store(acme), CompanyMerge(status, delta, NewAcme(acme));
    GivenAcme(status, m);
    assert RucsAfter(st, m) == map[1 := RUC];
    assert CompanyAfter(st, m, 1, RUC) == Acme(status) by {
      if acme.Some? { AcmeUpserts(acme.value, status); }
    }
  }

  lemma AcmeUpserts(was: string, status: string)
    ensures UpsertCompany(Acme(was), Acme(status)) == Acme(status)
  {
    assert Acme(was).facts + Acme(status).facts == Acme(status).facts;
  }

  // ----- the run -----

  /** One source says ACTIVO, another says BAJA, and then the first one is merged again, unchanged. */
  const RUN: seq<Commit> := [
    MergeShard(1, 1, map[1 := "a"], CompanyMerge("ACTIVO", {1}, map[1 := RUC])),
    CompanyChunk({1}),
    MergeShard(2, 2, map[1 := "b"], CompanyMerge("BAJA", {1}, map[])),
    CompanyChunk({1}),
    MergeShard(1, 3, map[1 := "a"], CompanyMerge("ACTIVO", {}, map[]))]

  /** The store with ACME, and what is marked and seen. */
  ghost predicate AcmeStands(db: Durable, acme: Option<string>, dirty: set<CompanyId>, latest: map<(int, int), string>) {
    && db.staging == Store(acme) && db.dirtyDocs == {} && db.dirtyCompanies == dirty && Hashes(db.latest) == latest
  }

  lemma MergeAcme(db: Durable, acme: Option<string>, source: int, snapshot: int, hash: string, status: string,
                  delta: set<int>, latest: map<(int, int), string>)
    requires AcmeStands(db, acme, {}, latest) && status != ""
    requires delta == if (source, 1) in latest && latest[(source, 1)] == hash then {} else {1}
    ensures AcmeStands(Committed(db, MergeShard(source, snapshot, map[1 := hash], CompanyMerge(status, delta, NewAcme(acme)))),
                Some(status), delta, latest[(source, 1) := hash])
  {
    hide Fits, After, MarkedDocs, CompaniesOfDelta, ShownDocs, ShownCompanies, Store;
    var m, hashes := CompanyMerge(status, delta, NewAcme(acme)), map[1 := hash];
    AcmeFits(acme, status, delta);
    AcmeAfter(acme, status, delta);
    AcmeMarks(acme, status, delta);
    SeenOne(db.latest, source, hash, snapshot, latest);
    assert m.stage.Keys == hashes.Keys == {1};
  }

  lemma SeenOne(seen: Latest, source: int, hash: string, snapshot: int, latest: map<(int, int), string>)
    requires Hashes(seen) == latest
    ensures Delta(seen, source, map[1 := hash]) == if (source, 1) in latest && latest[(source, 1)] == hash then {} else {1}
    ensures Hashes(Upserted(seen, source, map[1 := hash], snapshot)) == latest[(source, 1) := hash]
  {
    hide Upserted;
    var after := Upserted(seen, source, map[1 := hash], snapshot);
    HashesAre(seen);
    HashesAre(after);
    forall k: (int, int)
      ensures k in after <==> k in seen || k == (source, 1)
      ensures k in after ==> after[k].hash == if k == (source, 1) then hash else seen[k].hash
    {
      UpsertedAt(seen, source, map[1 := hash], snapshot, k);
    }
  }

  lemma HashesAre(seen: Latest)
    ensures Hashes(seen).Keys == seen.Keys && forall k :: k in seen ==> Hashes(seen)[k] == seen[k].hash
  {
  }

  lemma DrainAcme(db: Durable, acme: Option<string>, latest: map<(int, int), string>)
    requires AcmeStands(db, acme, {1}, latest)
    ensures AcmeStands(Committed(db, CompanyChunk({1})), acme, {}, latest)
  {
    hide MaterializeCompanies, Store, Hashes;
  }

  lemma FreshStep(db: Durable, commit: Commit)
    requires Sound(db) && db.staleDocs == {} && db.staleCompanies == {}
    requires commit.MergeShard? ==> Covered(commit.merge)
    ensures
      var after := Committed(db, commit);
      Sound(after) && after.staleDocs == {} && after.staleCompanies == {}
  {
    hide Sound, Committed, Covered;
    CommitKeeps(db, commit);
    CoveredCommitStaysFresh(db, commit);
  }

  lemma AcmeCovered(status: string, newCompanies: map<CompanyId, string>)
    ensures Covered(CompanyMerge(status, {1}, newCompanies))
  {
  }

  lemma HistorySteps(db: Durable, commits: seq<Commit>)
    requires commits != []
    ensures History(db, commits) == History(Committed(db, commits[0]), commits[1..])
  {
    hide Committed;
  }

  /** The store before the last merge: BAJA, nothing marked, and everything served as it ought to be. */
  lemma BeforeTheLast() returns (db: Durable)
    ensures History(FRESH, RUN) == Committed(db, RUN[4])
    ensures AcmeStands(db, Some("BAJA"), {}, map[(1, 1) := "a", (2, 1) := "b"])
    ensures Sound(db) && db.staleDocs == {} && db.staleCompanies == {}
  {
    hide Sound, Committed, AcmeStands, Covered, History;
    AcmeCovered("ACTIVO", map[1 := RUC]);
    AcmeCovered("BAJA", map[]);
    FreshSound();
    FreshStands();
    var db1, rest1 := Committed(FRESH, RUN[0]), RUN[1..];
    FreshStep(FRESH, RUN[0]);
    MergeAcme(FRESH, None, 1, 1, "a", "ACTIVO", {1}, map[]);
    HistorySteps(FRESH, RUN);
    var db2, rest2 := Committed(db1, RUN[1]), rest1[1..];
    FreshStep(db1, RUN[1]);
    DrainAcme(db1, Some("ACTIVO"), map[(1, 1) := "a"]);
    HistorySteps(db1, rest1);
    var db3, rest3 := Committed(db2, RUN[2]), rest2[1..];
    FreshStep(db2, RUN[2]);
    MergeAcme(db2, Some("ACTIVO"), 2, 2, "b", "BAJA", {1}, map[(1, 1) := "a"]);
    HistorySteps(db2, rest2);
    db := Committed(db3, RUN[3]);
    FreshStep(db3, RUN[3]);
    DrainAcme(db3, Some("BAJA"), map[(1, 1) := "a", (2, 1) := "b"]);
    HistorySteps(db3, rest3);
    assert rest1[0] == RUN[1] && rest2[0] == RUN[2] && rest3[0] == RUN[3];
    assert rest3[1..][0] == RUN[4] && rest3[1..][1..] == [];
    HistorySteps(db, rest3[1..]);
    HistoryEnds(Committed(db, RUN[4]));
  }

  lemma FreshStands()
    ensures AcmeStands(FRESH, None, {}, map[])
  {
  }

  lemma HistoryEnds(db: Durable)
    ensures History(db, []) == db
  {
  }

  lemma AcmeShows(m: Merge)
    requires m == CompanyMerge("ACTIVO", {}, map[])
    ensures Staleness.CompanyShows(Store(Some("BAJA")), m, 1)
  {
    hide GivenCompany, RucsIn, Staleness.PeopleShow;
    GivenAcme("ACTIVO", m);
    assert (Acme("BAJA").facts + Acme("ACTIVO").facts)[Status] == "ACTIVO";
  }

  /**
   * An unchanged row puts a company's status back: at the end of the run the store says ACTIVO, nothing is marked,
   * and the serving tables still say what they said of a company in BAJA.
   */
  lemma UnchangedRowPutsTheStatusBack()
    ensures
      var db := History(FRESH, RUN);
      && db.dirtyDocs == {} && db.dirtyCompanies == {}
      && db.staging == Store(Some("ACTIVO"))
      && CompanyServed(db.staging, db.serving, 1) == CompanyView(Store(Some("BAJA")), 1)
      && !Agrees(db.staging, db.serving, {}, {})
  {
    hide Agrees, Committed, History, After, Fits, MarkedDocs, CompaniesOfDelta, Store, CompanyServed, CompanyView, Keyed;
    var db := BeforeTheLast();
    MergeAcme(db, Some("BAJA"), 1, 3, "a", "ACTIVO", {}, map[(1, 1) := "a", (2, 1) := "b"]);
    MergeServesAsBefore(db, RUN[4]);
    assert db.dirtyDocs + db.staleDocs == {} && db.dirtyCompanies + db.staleCompanies == {};
    LastMerge(db.serving);
  }

  lemma MergeServesAsBefore(db: Durable, commit: Commit)
    requires commit.MergeShard?
    ensures Committed(db, commit).serving == db.serving
  {
    hide After, Fits, MarkedDocs, CompaniesOfDelta, ShownDocs, ShownCompanies, Upserted, Delta;
  }

  lemma LastMerge(sv: Serving)
    requires Keyed(Store(Some("BAJA"))) && Agrees(Store(Some("BAJA")), sv, {}, {})
    ensures CompanyServed(Store(Some("ACTIVO")), sv, 1) == CompanyView(Store(Some("BAJA")), 1)
    ensures !Agrees(Store(Some("ACTIVO")), sv, {}, {})
  {
    hide Agrees, After, Fits, MarkedDocs, CompaniesOfDelta, Store, CompanyServed, CompanyView, Keyed, Staleness.CompanyShows,
      Staleness.DocShows;
    var st, m := Store(Some("BAJA")), CompanyMerge("ACTIVO", {}, map[]);
    AcmeFits(Some("BAJA"), "ACTIVO", {});
    AcmeAfter(Some("BAJA"), "ACTIVO", {});
    AcmeMarks(Some("BAJA"), "ACTIVO", {});
    AcmeShows(m);
    var none: set<int> := {};
    assert none + MarkedDocs(st, m) == {} && none + CompaniesOfDelta(st, m) == {};
    Staleness.AgreementSurvivesExactlyWhen(st, m, sv, {}, {});
    ServedAsRight(st, sv);
    Staleness.ServedStays(st, m, sv, 1);
  }

  lemma ServedAsRight(st: Staging, sv: Serving)
    requires Agrees(st, sv, {}, {})
    ensures CompanyServed(st, sv, 1) == CompanyView(st, 1)
  {
    hide CompanyServed, CompanyView, DocView, DocServed;
  }
}
