/** searchSiswa: students whose name or NISN contains the trimmed query,
    ignoring case, joined with their kelas and ordered by name. */
module Search {
  import opened Schema
  import opened Text
  import opened Queries

  /** nama_siswa ILIKE '%q%' OR nisn ILIKE '%q%'. */
  predicate Matches(s: Siswa, q: string) {
    ILikeContains(s.nama_siswa, q) || ILikeContains(s.nisn, q)
  }

  /** The rows of rs that survive the join with kelas and the WHERE clause. */
  function Candidates(db: Db, q: string, rs: seq<Siswa>): (r: seq<Siswa>)
    ensures forall s :: s in r <==> s in rs && s.kelas_id in db.kelas && Matches(s, q)
    ensures multiset(r) <= multiset(rs)
  {
    if rs == [] then []
    else if rs[0].kelas_id in db.kelas && Matches(rs[0], q) then
      assert rs == [rs[0]] + rs[1..];
      [rs[0]] + Candidates(db, q, rs[1..])
    else
      assert rs == [rs[0]] + rs[1..];
      Candidates(db, q, rs[1..])
  }

  ghost predicate SortedByName(xs: seq<Siswa>) {
    forall i, j :: 0 <= i < j < |xs| ==> NameLe(xs[i].nama_siswa, xs[j].nama_siswa)
  }

  function InsertByName(x: Siswa, xs: seq<Siswa>): (r: seq<Siswa>)
    requires SortedByName(xs)
    ensures SortedByName(r)
    ensures multiset(r) == multiset(xs) + multiset{x}
    ensures |r| == |xs| + 1
    ensures forall y :: y in r ==> y == x || y in xs
  {
    if xs == [] then [x]
    else if NameLe(x.nama_siswa, xs[0].nama_siswa) then
      forall j | 0 <= j < |xs| ensures NameLe(x.nama_siswa, xs[j].nama_siswa) {
        if j > 0 { NameLeTransitive(x.nama_siswa, xs[0].nama_siswa, xs[j].nama_siswa); }
      }
      [x] + xs
    else
      NameLeTotal(x.nama_siswa, xs[0].nama_siswa);
      var rest := InsertByName(x, xs[1..]);
      assert xs == [xs[0]] + xs[1..];
      assert forall y :: y in rest ==> NameLe(xs[0].nama_siswa, y.nama_siswa);
      [xs[0]] + rest
  }

  /** ORDER BY nama_siswa: a sorted permutation of the input. */
  function SortByName(xs: seq<Siswa>): (r: seq<Siswa>)
    ensures SortedByName(r)
    ensures multiset(r) == multiset(xs)
  {
    if xs == [] then []
    else
      assert xs == [xs[0]] + xs[1..];
      InsertByName(xs[0], SortByName(xs[1..]))
  }

  function SearchSiswa(db: Db, query: string): (r: seq<Siswa>)
    ensures Trim(query) == [] ==> r == []
    ensures forall s :: s in r ==>
      s in db.siswa.Values && s.kelas_id in db.kelas && Matches(s, Trim(query))
    ensures SortedByName(r)
    ensures Trim(query) != [] ==> multiset(r) == multiset(Candidates(db, Trim(query), GetSiswa(db)))
  {
    var q := Trim(query);
    if q == [] then []
    else
      var r := SortByName(Candidates(db, q, GetSiswa(db)));
      assert forall s :: s in r ==> s in Candidates(db, q, GetSiswa(db)) by {
        forall s | s in r ensures s in Candidates(db, q, GetSiswa(db)) {
          assert s in multiset(r);
        }
      }
      r
  }

  /** Every student of an existing kelas whose name or NISN contains the
      trimmed query, ignoring case, is found. */
  lemma SearchComplete(db: Db, query: string, k: int)
    requires Consistent(db) && k in db.siswa
    requires Trim(query) != [] && Matches(db.siswa[k], Trim(query))
    ensures db.siswa[k] in SearchSiswa(db, query)
  {
    var s := db.siswa[k];
    var c := Candidates(db, Trim(query), GetSiswa(db));
    assert s in c;
    assert s in multiset(SearchSiswa(db, query));
  }

  lemma {:induction false} CandidatesIgnoreCase(db: Db, q1: string, q2: string, rs: seq<Siswa>)
    requires Lower(q1) == Lower(q2)
    ensures Candidates(db, q1, rs) == Candidates(db, q2, rs)
  {
    if rs != [] {
      CandidatesIgnoreCase(db, q1, q2, rs[1..]);
    }
  }

  /** The query's case does not matter: "ahmad", "AHMAD" and "Ahmad" give
      the same result. */
  lemma SearchIgnoresCase(db: Db, q1: string, q2: string)
    requires Lower(Trim(q1)) == Lower(Trim(q2))
    ensures SearchSiswa(db, q1) == SearchSiswa(db, q2)
  {
    assert |Trim(q1)| == |Lower(Trim(q1))| == |Trim(q2)|;
    CandidatesIgnoreCase(db, Trim(q1), Trim(q2), GetSiswa(db));
  }

  /** A query found anywhere inside a student's name, not only at its
      start, finds that student. */
  lemma SearchFindsInfix(db: Db, query: string, k: int, before: string, after: string)
    requires Consistent(db) && k in db.siswa && Trim(query) != []
    requires Lower(db.siswa[k].nama_siswa) == before + Lower(Trim(query)) + after
    ensures db.siswa[k] in SearchSiswa(db, query)
  {
    ContainsAnywhere(before, Lower(Trim(query)), after);
    SearchComplete(db, query, k);
  }
}
