/** Merges mark what they touch, drains rebuild it chunk by chunk, and the rest always agrees. */
module Drain {
  import opened Domain
  import opened Projection
  import opened Materialize

  // ----- draining, as the code does it -----

  class PipelineDb {
    var staging: Staging
    var serving: Serving
    var dirtyDocs: set<DocId>
    var dirtyCompanies: set<CompanyId>

    ghost predicate Valid()
      reads this
    {
      RucsUnique(staging) && Agrees(staging, serving, dirtyDocs, dirtyCompanies)
    }

    constructor (staging: Staging, serving: Serving, dirtyDocs: set<DocId>, dirtyCompanies: set<CompanyId>)
      requires RucsUnique(staging) && Agrees(staging, serving, dirtyDocs, dirtyCompanies)
      ensures Valid() && this.staging == staging && this.serving == serving
      ensures this.dirtyDocs == dirtyDocs && this.dirtyCompanies == dirtyCompanies
    {
      this.staging, this.serving := staging, serving;
      this.dirtyDocs, this.dirtyCompanies := dirtyDocs, dirtyCompanies;
    }

    /** Each turn is one transaction, and a limit of no rows drains nothing. */
    method DrainDirtyDocs(chunkRows: nat) returns (total: nat)
      requires Valid()
      modifies `serving, `dirtyDocs
      ensures Valid()
      ensures if chunkRows == 0 then dirtyDocs == old(dirtyDocs) && serving == old(serving) && total == 0
              else dirtyDocs == {} && total == |old(dirtyDocs)|
    {
      hide Agrees, MaterializeDocs;
      total := 0;
      while true
        invariant Valid()
        invariant total + |dirtyDocs| == |old(dirtyDocs)|
        invariant chunkRows == 0 ==> dirtyDocs == old(dirtyDocs) && serving == old(serving)
        decreases |dirtyDocs|
      {
        var claimed := Claim(dirtyDocs, chunkRows);
        if |claimed| == 0 { return; }
        DocChunkAgrees(staging, serving, claimed, dirtyDocs, dirtyCompanies);
        serving := MaterializeDocs(staging, serving, claimed);
        dirtyDocs := dirtyDocs - claimed;
        total := total + |claimed|;
      }
    }

    method DrainDirtyCompanies(chunkRows: nat) returns (total: nat)
      requires Valid()
      modifies `serving, `dirtyCompanies
      ensures Valid()
      ensures if chunkRows == 0 then dirtyCompanies == old(dirtyCompanies) && serving == old(serving) && total == 0
              else dirtyCompanies == {} && total == |old(dirtyCompanies)|
    {
      hide Agrees, MaterializeCompanies;
      total := 0;
      while true
        invariant Valid()
        invariant total + |dirtyCompanies| == |old(dirtyCompanies)|
        invariant chunkRows == 0 ==> dirtyCompanies == old(dirtyCompanies) && serving == old(serving)
        decreases |dirtyCompanies|
      {
        var claimed := Claim(dirtyCompanies, chunkRows);
        if |claimed| == 0 { return; }
        CompanyChunkAgrees(staging, serving, claimed, dirtyDocs, dirtyCompanies);
        serving := MaterializeCompanies(staging, serving, claimed);
        dirtyCompanies := dirtyCompanies - claimed;
        total := total + |claimed|;
      }
    }

    /** Whatever was dirty and whatever the chunk size, the tables end as a rebuild from nothing would make them. */
    method MaterializeServing() returns (docs: nat, companies: nat)
      requires Valid()
      modifies `serving, `dirtyDocs, `dirtyCompanies
      ensures Valid() && dirtyDocs == {} && dirtyCompanies == {}
      ensures serving == Rebuilt(staging)
      ensures docs == |old(dirtyDocs)| && companies == |old(dirtyCompanies)|
    {
      docs := DrainDirtyDocs(CHUNK_ROWS);
      companies := DrainDirtyCompanies(CHUNK_ROWS);
      CleanMeansRebuilt(staging, serving);
    }
  }

  const CHUNK_ROWS: nat := 250_000

  /** Some `limit` rows, or all of them when there are fewer. */
  method Claim(ids: set<int>, limit: nat) returns (claimed: set<int>)
    ensures claimed <= ids && |claimed| == if limit < |ids| then limit else |ids|
  {
    claimed := {};
    var left := ids;
    while |claimed| < limit && exists id :: id in left
      invariant claimed !! left && claimed + left == ids
      invariant |claimed| <= limit
      decreases left
    {
      var id :| id in left;
      claimed, left := claimed + {id}, left - {id};
    }
    assert |ids| == |claimed| + |left| by { assert ids == claimed + left; }
  }

  // ----- agreement pins the tables down -----

  const NOTHING_SERVED := Serving(map[], {}, map[], map[], map[], map[], {}, map[], map[])

  function AllDocs(st: Staging): set<DocId> {
    st.documents.Keys + (set k | k in st.docPhones :: k.0)
  }

  function AllCompanies(st: Staging): set<CompanyId> {
    st.companies.Keys + (set k | k in st.companyPhones :: k.0) + (set r | r in st.roles :: st.roles[r].company)
  }

  /** Everything rebuilt from nothing, in one chunk each. */
  function Rebuilt(st: Staging): Serving {
    MaterializeCompanies(st, MaterializeDocs(st, NOTHING_SERVED, AllDocs(st)), AllCompanies(st))
  }

  lemma NobodyWorks(roles: map<RoleId, Role>, c: CompanyId)
    requires forall r :: r in roles ==> roles[r].company != c
    ensures PeopleListed(roles, c) == map[]
  {
    assert PeopleOf(roles, c) == {} by { assert forall r :: r !in PeopleOf(roles, c); }
  }

  /** An id without staging rows has no serving rows. */
  lemma NothingToServe(st: Staging, id: int)
    ensures id !in AllDocs(st) ==> DocServed(NOTHING_SERVED, id) == DocView(st, id)
    ensures id !in AllCompanies(st) ==> CompanyServed(st, NOTHING_SERVED, id) == CompanyView(st, id)
  {
    if id !in AllDocs(st) {
      assert TextsOf(st.docPhones, id) == {} == PhonesAt({}, id);
    }
    if id !in AllCompanies(st) {
      assert TextsOf(st.companyPhones, id) == {} == PhonesAt({}, id);
      NobodyWorks(st.roles, id);
      assert PeopleServed(map[], id) == map[];
    }
  }

  lemma RebuiltAgrees(st: Staging)
    requires RucsUnique(st)
    ensures Agrees(st, Rebuilt(st), {}, {})
  {
    hide DocView, CompanyView, DocServed, CompanyServed, MaterializeDocs, MaterializeCompanies;
    forall id {
      NothingToServe(st, id);
    }
    assert Agrees(st, NOTHING_SERVED, AllDocs(st), AllCompanies(st));
    DocChunkAgrees(st, NOTHING_SERVED, AllDocs(st), AllDocs(st), AllCompanies(st));
    CompanyChunkAgrees(st, MaterializeDocs(st, NOTHING_SERVED, AllDocs(st)), AllCompanies(st),
                       AllDocs(st) - AllDocs(st), AllCompanies(st));
    assert AllDocs(st) - AllDocs(st) == {} && AllCompanies(st) - AllCompanies(st) == {};
  }

  lemma SameDocTables(st: Staging, a: Serving, b: Serving)
    requires Agrees(st, a, {}, {}) && Agrees(st, b, {}, {})
    ensures a.docRows == b.docRows && a.docPhones == b.docPhones && a.docFts == b.docFts && a.docAgg == b.docAgg
  {
    hide DocView, CompanyView, CompanyServed;
    forall d ensures DocServed(a, d) == DocServed(b, d) { assert DocServed(a, d) == DocView(st, d); }
    forall d ensures At(a.docRows, d) == At(b.docRows, d) && At(a.docFts, d) == At(b.docFts, d)
                     && At(a.docAgg, d) == At(b.docAgg, d)
    {
      assert DocServed(a, d) == DocServed(b, d);
    }
    SameEntries(a.docRows, b.docRows);
    SameEntries(a.docFts, b.docFts);
    SameEntries(a.docAgg, b.docAgg);
    forall d ensures PhonesAt(a.docPhones, d) == PhonesAt(b.docPhones, d) { assert DocServed(a, d) == DocServed(b, d); }
    SameIndex(a.docPhones, b.docPhones);
  }

  lemma SameEntries<K(!new), V>(a: map<K, V>, b: map<K, V>)
    requires forall k :: At(a, k) == At(b, k)
    ensures a == b
  {
    forall k | k in a ensures k in b && b[k] == a[k] { assert At(a, k) == At(b, k); }
    forall k | k in b ensures k in a { assert At(a, k) == At(b, k); }
  }

  lemma SameIndex(a: set<(string, int)>, b: set<(string, int)>)
    requires forall d :: PhonesAt(a, d) == PhonesAt(b, d)
    ensures a == b
  {
    forall p | p in a ensures p in b { assert p.0 in PhonesAt(a, p.1) && p.0 in PhonesAt(b, p.1); }
    forall p | p in b ensures p in a { assert p.0 in PhonesAt(b, p.1) && p.0 in PhonesAt(a, p.1); }
  }

  lemma SamePeople(a: map<(CompanyId, nat), Person>, b: map<(CompanyId, nat), Person>)
    requires forall c :: PeopleServed(a, c) == PeopleServed(b, c)
    ensures a == b
  {
    forall k | k in a ensures k in b && b[k] == a[k] {
      assert k.1 in PeopleServed(a, k.0) && k.1 in PeopleServed(b, k.0);
      assert PeopleServed(a, k.0)[k.1] == PeopleServed(b, k.0)[k.1];
    }
    forall k | k in b ensures k in a { assert k.1 in PeopleServed(b, k.0) && k.1 in PeopleServed(a, k.0); }
  }

  lemma SameRucs(st: Staging, a: map<string, string>, b: map<string, string>)
    requires forall ruc :: ruc in a || ruc in b ==> IsRucOf(st, ruc)
    requires forall c :: c in st.companies ==> At(a, st.companies[c].ruc) == At(b, st.companies[c].ruc)
    ensures a == b
  {
    forall ruc | ruc in a ensures ruc in b && b[ruc] == a[ruc] {
      var c :| c in st.companies && st.companies[c].ruc == ruc;
      assert At(a, st.companies[c].ruc) == At(b, st.companies[c].ruc);
    }
    forall ruc | ruc in b ensures ruc in a {
      var c :| c in st.companies && st.companies[c].ruc == ruc;
      assert At(a, st.companies[c].ruc) == At(b, st.companies[c].ruc);
    }
  }

  lemma SameCompanyTables(st: Staging, a: Serving, b: Serving)
    requires Agrees(st, a, {}, {}) && Agrees(st, b, {}, {})
    ensures a.companyRows == b.companyRows && a.people == b.people && a.companyPhones == b.companyPhones
    ensures a.companyFts == b.companyFts && a.rucAgg == b.rucAgg
  {
    hide Agrees, PhonesAt, PeopleServed, IsRucOf;
    forall c ensures At(a.companyRows, c) == At(b.companyRows, c) { SameCompany(st, a, b, c); }
    forall c ensures At(a.companyFts, c) == At(b.companyFts, c) { SameCompany(st, a, b, c); }
    forall c ensures PeopleServed(a.people, c) == PeopleServed(b.people, c) { SameCompany(st, a, b, c); }
    forall c ensures PhonesAt(a.companyPhones, c) == PhonesAt(b.companyPhones, c) { SameCompany(st, a, b, c); }
    forall c | c in st.companies ensures At(a.rucAgg, st.companies[c].ruc) == At(b.rucAgg, st.companies[c].ruc) {
      SameCompany(st, a, b, c);
    }
    SameEntries(a.companyRows, b.companyRows);
    SameEntries(a.companyFts, b.companyFts);
    SamePeople(a.people, b.people);
    SameIndex(a.companyPhones, b.companyPhones);
    OnlyRucs(st, a);
    OnlyRucs(st, b);
    SameRucs(st, a.rucAgg, b.rucAgg);
  }

  lemma SameCompany(st: Staging, a: Serving, b: Serving, c: CompanyId)
    requires Agrees(st, a, {}, {}) && Agrees(st, b, {}, {})
    ensures At(a.companyRows, c) == At(b.companyRows, c) && At(a.companyFts, c) == At(b.companyFts, c)
    ensures PeopleServed(a.people, c) == PeopleServed(b.people, c)
    ensures PhonesAt(a.companyPhones, c) == PhonesAt(b.companyPhones, c)
    ensures c in st.companies ==> At(a.rucAgg, st.companies[c].ruc) == At(b.rucAgg, st.companies[c].ruc)
  {
    hide At, PhonesAt, PeopleServed, CompanyView, DocView, DocServed, IsRucOf;
    assert CompanyServed(st, a, c) == CompanyView(st, c) == CompanyServed(st, b, c);
  }

  lemma OnlyRucs(st: Staging, sv: Serving)
    requires Agrees(st, sv, {}, {})
    ensures forall ruc :: ruc in sv.rucAgg ==> IsRucOf(st, ruc)
  {
  }

  /** With nothing dirty the serving tables are the rebuilt ones, so how the drain got there does not matter. */
  lemma CleanMeansRebuilt(st: Staging, sv: Serving)
    requires RucsUnique(st) && Agrees(st, sv, {}, {})
    ensures sv == Rebuilt(st)
  {
    hide Agrees, MaterializeDocs, MaterializeCompanies;
    RebuiltAgrees(st);
    SameDocTables(st, sv, Rebuilt(st));
    SameCompanyTables(st, sv, Rebuilt(st));
  }
}
