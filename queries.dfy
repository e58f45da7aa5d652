/** The read-only list handlers: getKelas, getGuru, getSiswa,
    getDataPelanggaran, getPelanggaranSiswa and getPengaturanInstansi.
    Each is a function of a database snapshot, so none changes the store. */
module Queries {
  import opened Wrappers
  import opened Schema
  import opened Listing

  function GetKelas(db: Db): (r: seq<Kelas>)
    ensures db.kelas == map[] ==> r == []
    ensures forall row :: row in r ==> row in db.kelas.Values
    ensures Consistent(db) ==>
      && |r| == |db.kelas|
      && (forall k :: k in db.kelas ==> db.kelas[k] in r)
      && (forall i, j :: 0 <= i < j < |r| ==> r[i].id < r[j].id)
  {
    TableComplete(db.kelas, db.nextKelasId);
    Table(db.kelas, db.nextKelasId)
  }

  function GetGuru(db: Db): (r: seq<Guru>)
    ensures db.guru == map[] ==> r == []
    ensures forall row :: row in r ==> row in db.guru.Values
    ensures Consistent(db) ==>
      && |r| == |db.guru|
      && (forall k :: k in db.guru ==> db.guru[k] in r)
      && (forall i, j :: 0 <= i < j < |r| ==> r[i].id < r[j].id)
  {
    TableComplete(db.guru, db.nextGuruId);
    Table(db.guru, db.nextGuruId)
  }

  function GetSiswa(db: Db): (r: seq<Siswa>)
    ensures db.siswa == map[] ==> r == []
    ensures forall row :: row in r ==> row in db.siswa.Values
    ensures Consistent(db) ==>
      && |r| == |db.siswa|
      && (forall k :: k in db.siswa ==> db.siswa[k] in r)
      && (forall i, j :: 0 <= i < j < |r| ==> r[i].id < r[j].id)
  {
    TableComplete(db.siswa, db.nextSiswaId);
    Table(db.siswa, db.nextSiswaId)
  }

  /** Violation types come back exactly as stored, poin included. */
  function GetDataPelanggaran(db: Db): (r: seq<DataPelanggaran>)
    ensures db.dataPelanggaran == map[] ==> r == []
    ensures forall row :: row in r ==> row in db.dataPelanggaran.Values
    ensures Consistent(db) ==>
      && |r| == |db.dataPelanggaran|
      && (forall k :: k in db.dataPelanggaran ==> db.dataPelanggaran[k] in r)
      && (forall i, j :: 0 <= i < j < |r| ==> r[i].id < r[j].id)
  {
    TableComplete(db.dataPelanggaran, db.nextDataPelanggaranId);
    Table(db.dataPelanggaran, db.nextDataPelanggaranId)
  }

  /** The inner joins of getPelanggaranSiswa: the record's siswa,
      data_pelanggaran and guru, and the siswa's kelas. */
  predicate JoinsAll(db: Db, p: PelanggaranSiswa) {
    && p.siswa_id in db.siswa
    && p.data_pelanggaran_id in db.dataPelanggaran
    && p.guru_id in db.guru
    && db.siswa[p.siswa_id].kelas_id in db.kelas
  }

  function Joined(db: Db, rs: seq<PelanggaranSiswa>): (r: seq<PelanggaranSiswa>)
    ensures forall p :: p in r <==> p in rs && JoinsAll(db, p)
    ensures (forall p :: p in rs ==> JoinsAll(db, p)) ==> r == rs
  {
    if rs == [] then []
    else if JoinsAll(db, rs[0]) then [rs[0]] + Joined(db, rs[1..])
    else Joined(db, rs[1..])
  }

  /** Every record whose four joins succeed, copied verbatim (the stored
      date is already a day value). */
  function GetPelanggaranSiswa(db: Db): (r: seq<PelanggaranSiswa>)
    ensures db.pelanggaranSiswa == map[] ==> r == []
    ensures forall p :: p in r <==> p in Table(db.pelanggaranSiswa, db.nextPelanggaranSiswaId) && JoinsAll(db, p)
    ensures forall p :: p in r ==> p in db.pelanggaranSiswa.Values
  {
    Joined(db, Table(db.pelanggaranSiswa, db.nextPelanggaranSiswaId))
  }

  /** Under the foreign-key invariant every join succeeds, so every record
      is listed, once, in id order. */
  lemma GetPelanggaranSiswaAll(db: Db)
    requires Consistent(db)
    ensures |GetPelanggaranSiswa(db)| == |db.pelanggaranSiswa|
    ensures forall k :: k in db.pelanggaranSiswa ==> db.pelanggaranSiswa[k] in GetPelanggaranSiswa(db)
    ensures forall i, j :: 0 <= i < j < |GetPelanggaranSiswa(db)| ==>
      GetPelanggaranSiswa(db)[i].id < GetPelanggaranSiswa(db)[j].id
  {
    var rows := Table(db.pelanggaranSiswa, db.nextPelanggaranSiswaId);
    TableComplete(db.pelanggaranSiswa, db.nextPelanggaranSiswaId);
    forall p | p in rows ensures JoinsAll(db, p) {
      var k :| k in db.pelanggaranSiswa && db.pelanggaranSiswa[k] == p;
      StoredRecordJoins(db, k);
    }
    assert GetPelanggaranSiswa(db) == rows;
  }

  /** Under the foreign-key invariant every stored record joins. */
  lemma StoredRecordJoins(db: Db, k: int)
    requires ForeignKeysHold(db) && k in db.pelanggaranSiswa
    ensures JoinsAll(db, db.pelanggaranSiswa[k])
  {
    assert db.pelanggaranSiswa[k].siswa_id in db.siswa;
  }

  /** The first settings row (the one with the least id), or null. */
  function GetPengaturanInstansi(db: Db): (r: Option<PengaturanInstansi>)
    ensures r.Some? ==> r.value in db.pengaturanInstansi.Values
    ensures db.pengaturanInstansi == map[] ==> r == None
    ensures Consistent(db) ==>
      && (r == None <==> db.pengaturanInstansi == map[])
      && (r.Some? ==> forall k :: k in db.pengaturanInstansi ==> r.value.id <= k)
  {
    TableComplete(db.pengaturanInstansi, db.nextPengaturanInstansiId);
    var rows := Table(db.pengaturanInstansi, db.nextPengaturanInstansiId);
    if rows == [] then None else Some(rows[0])
  }

  /** A create stores its row under the sequence's next key, so each list
      handler returns the new row last, after every earlier row: the
      listing is in insertion order. */
  lemma CreatedRowListedLast(db: Db, k: Kelas, g: Guru, s: Siswa, d: DataPelanggaran)
    requires SerialKeys(db)
    ensures GetKelas(db.(kelas := db.kelas[db.nextKelasId := k], nextKelasId := db.nextKelasId + 1))
      == GetKelas(db) + [k]
    ensures GetGuru(db.(guru := db.guru[db.nextGuruId := g], nextGuruId := db.nextGuruId + 1))
      == GetGuru(db) + [g]
    ensures GetSiswa(db.(siswa := db.siswa[db.nextSiswaId := s], nextSiswaId := db.nextSiswaId + 1))
      == GetSiswa(db) + [s]
    ensures GetDataPelanggaran(db.(dataPelanggaran := db.dataPelanggaran[db.nextDataPelanggaranId := d],
                                   nextDataPelanggaranId := db.nextDataPelanggaranId + 1))
      == GetDataPelanggaran(db) + [d]
  {
    TableAppend(db.kelas, db.nextKelasId, k);
    TableAppend(db.guru, db.nextGuruId, g);
    TableAppend(db.siswa, db.nextSiswaId, s);
    TableAppend(db.dataPelanggaran, db.nextDataPelanggaranId, d);
  }

  /** An update rewrites its row in place: each list handler returns as
      many rows as before, in the same order, with the updated row where
      the old one stood. One lemma per table. */
  lemma UpdatedKelasKeepsPlace(db: Db, k: Kelas)
    requires IdsMatchKeys(db) && k.id in db.kelas
    ensures var r := GetKelas(db.(kelas := db.kelas[k.id := k]));
      && |r| == |GetKelas(db)|
      && forall i :: 0 <= i < |r| ==> r[i] == if GetKelas(db)[i].id == k.id then k else GetKelas(db)[i]
  {
    TableReplace(db.kelas, db.nextKelasId, k.id, k);
    var ks := KeysBetween(db.kelas, 1, db.nextKelasId);
    forall i | 0 <= i < |ks| ensures GetKelas(db)[i].id == ks[i] {
      assert ks[i] in db.kelas;
    }
  }

  lemma UpdatedGuruKeepsPlace(db: Db, g: Guru)
    requires IdsMatchKeys(db) && g.id in db.guru
    ensures var r := GetGuru(db.(guru := db.guru[g.id := g]));
      && |r| == |GetGuru(db)|
      && forall i :: 0 <= i < |r| ==> r[i] == if GetGuru(db)[i].id == g.id then g else GetGuru(db)[i]
  {
    TableReplace(db.guru, db.nextGuruId, g.id, g);
    var ks := KeysBetween(db.guru, 1, db.nextGuruId);
    forall i | 0 <= i < |ks| ensures GetGuru(db)[i].id == ks[i] {
      assert ks[i] in db.guru;
    }
  }

  lemma UpdatedSiswaKeepsPlace(db: Db, s: Siswa)
    requires IdsMatchKeys(db) && s.id in db.siswa
    ensures var r := GetSiswa(db.(siswa := db.siswa[s.id := s]));
      && |r| == |GetSiswa(db)|
      && forall i :: 0 <= i < |r| ==> r[i] == if GetSiswa(db)[i].id == s.id then s else GetSiswa(db)[i]
  {
    TableReplace(db.siswa, db.nextSiswaId, s.id, s);
    var ks := KeysBetween(db.siswa, 1, db.nextSiswaId);
    forall i | 0 <= i < |ks| ensures GetSiswa(db)[i].id == ks[i] {
      assert ks[i] in db.siswa;
    }
  }

  lemma UpdatedDataPelanggaranKeepsPlace(db: Db, d: DataPelanggaran)
    requires IdsMatchKeys(db) && d.id in db.dataPelanggaran
    ensures var r := GetDataPelanggaran(db.(dataPelanggaran := db.dataPelanggaran[d.id := d]));
      && |r| == |GetDataPelanggaran(db)|
      && forall i :: 0 <= i < |r| ==>
        r[i] == if GetDataPelanggaran(db)[i].id == d.id then d else GetDataPelanggaran(db)[i]
  {
    TableReplace(db.dataPelanggaran, db.nextDataPelanggaranId, d.id, d);
    var ks := KeysBetween(db.dataPelanggaran, 1, db.nextDataPelanggaranId);
    forall i | 0 <= i < |ks| ensures GetDataPelanggaran(db)[i].id == ks[i] {
      assert ks[i] in db.dataPelanggaran;
    }
  }
}
