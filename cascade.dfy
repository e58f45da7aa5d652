/** Row deletion with the ON DELETE CASCADE rules of the schema:
    deleting a kelas deletes its siswa; deleting a siswa, a guru or a
    data_pelanggaran deletes the pelanggaran_siswa rows that reference it.
    Deleting a key that is not there deletes nothing. */
module Cascade {
  import opened Schema

  function DeleteUser(db: Db, id: int): (r: Db)
    ensures id !in r.users
    ensures forall k :: k in db.users && k != id ==> k in r.users && r.users[k] == db.users[k]
    ensures r.users.Keys <= db.users.Keys
    ensures r == db.(users := r.users)
    ensures Consistent(db) ==> Consistent(r)
  {
    db.(users := db.users - {id})
  }

  function DeletePelanggaranSiswa(db: Db, id: int): (r: Db)
    ensures id !in r.pelanggaranSiswa
    ensures forall k :: k in db.pelanggaranSiswa && k != id ==>
      k in r.pelanggaranSiswa && r.pelanggaranSiswa[k] == db.pelanggaranSiswa[k]
    ensures r.pelanggaranSiswa.Keys <= db.pelanggaranSiswa.Keys
    ensures r == db.(pelanggaranSiswa := r.pelanggaranSiswa)
    ensures Consistent(db) ==> Consistent(r)
  {
    db.(pelanggaranSiswa := db.pelanggaranSiswa - {id})
  }

  /** The pelanggaran_siswa rows that do not satisfy `gone`. */
  function KeepRecords(recs: map<int, PelanggaranSiswa>, gone: PelanggaranSiswa -> bool): (r: map<int, PelanggaranSiswa>)
    ensures forall k :: k in r <==> k in recs && !gone(recs[k])
    ensures forall k :: k in r ==> r[k] == recs[k]
  {
    map k | k in recs && !gone(recs[k]) :: recs[k]
  }

  function DeleteSiswa(db: Db, id: int): (r: Db)
    ensures id !in r.siswa
    ensures forall k :: k in db.siswa && k != id ==> k in r.siswa && r.siswa[k] == db.siswa[k]
    ensures r.siswa.Keys <= db.siswa.Keys
    ensures forall k :: k in db.pelanggaranSiswa ==>
      (k in r.pelanggaranSiswa <==> db.pelanggaranSiswa[k].siswa_id != id)
    ensures forall k :: k in r.pelanggaranSiswa ==>
      k in db.pelanggaranSiswa && r.pelanggaranSiswa[k] == db.pelanggaranSiswa[k]
    ensures r == db.(siswa := r.siswa, pelanggaranSiswa := r.pelanggaranSiswa)
    ensures Consistent(db) ==> Consistent(r)
  {
    db.(siswa := db.siswa - {id},
        pelanggaranSiswa := KeepRecords(db.pelanggaranSiswa, (p: PelanggaranSiswa) => p.siswa_id == id))
  }

  function DeleteGuru(db: Db, id: int): (r: Db)
    ensures id !in r.guru
    ensures forall k :: k in db.guru && k != id ==> k in r.guru && r.guru[k] == db.guru[k]
    ensures r.guru.Keys <= db.guru.Keys
    ensures forall k :: k in db.pelanggaranSiswa ==>
      (k in r.pelanggaranSiswa <==> db.pelanggaranSiswa[k].guru_id != id)
    ensures forall k :: k in r.pelanggaranSiswa ==>
      k in db.pelanggaranSiswa && r.pelanggaranSiswa[k] == db.pelanggaranSiswa[k]
    ensures r == db.(guru := r.guru, pelanggaranSiswa := r.pelanggaranSiswa)
    ensures Consistent(db) ==> Consistent(r)
  {
    db.(guru := db.guru - {id},
        pelanggaranSiswa := KeepRecords(db.pelanggaranSiswa, (p: PelanggaranSiswa) => p.guru_id == id))
  }

  function DeleteDataPelanggaran(db: Db, id: int): (r: Db)
    ensures id !in r.dataPelanggaran
    ensures forall k :: k in db.dataPelanggaran && k != id ==>
      k in r.dataPelanggaran && r.dataPelanggaran[k] == db.dataPelanggaran[k]
    ensures r.dataPelanggaran.Keys <= db.dataPelanggaran.Keys
    ensures forall k :: k in db.pelanggaranSiswa ==>
      (k in r.pelanggaranSiswa <==> db.pelanggaranSiswa[k].data_pelanggaran_id != id)
    ensures forall k :: k in r.pelanggaranSiswa ==>
      k in db.pelanggaranSiswa && r.pelanggaranSiswa[k] == db.pelanggaranSiswa[k]
    ensures r == db.(dataPelanggaran := r.dataPelanggaran, pelanggaranSiswa := r.pelanggaranSiswa)
    ensures Consistent(db) ==> Consistent(r)
  {
    db.(dataPelanggaran := db.dataPelanggaran - {id},
        pelanggaranSiswa := KeepRecords(db.pelanggaranSiswa, (p: PelanggaranSiswa) => p.data_pelanggaran_id == id))
  }

  /** Whether a record belongs to a student of class `kelasId`. */
  predicate OfClass(db: Db, p: PelanggaranSiswa, kelasId: int) {
    p.siswa_id in db.siswa && db.siswa[p.siswa_id].kelas_id == kelasId
  }

  /** Deleting a kelas removes its siswa and, through them, their records. */
  function DeleteKelas(db: Db, id: int): (r: Db)
    ensures id !in r.kelas
    ensures forall k :: k in db.kelas && k != id ==> k in r.kelas && r.kelas[k] == db.kelas[k]
    ensures r.kelas.Keys <= db.kelas.Keys
    ensures forall k :: k in db.siswa ==> (k in r.siswa <==> db.siswa[k].kelas_id != id)
    ensures forall k :: k in r.siswa ==> k in db.siswa && r.siswa[k] == db.siswa[k]
    ensures forall k :: k in db.pelanggaranSiswa ==>
      (k in r.pelanggaranSiswa <==> !OfClass(db, db.pelanggaranSiswa[k], id))
    ensures forall k :: k in r.pelanggaranSiswa ==>
      k in db.pelanggaranSiswa && r.pelanggaranSiswa[k] == db.pelanggaranSiswa[k]
    ensures r == db.(kelas := r.kelas, siswa := r.siswa, pelanggaranSiswa := r.pelanggaranSiswa)
    ensures Consistent(db) ==> Consistent(r)
  {
    db.(kelas := db.kelas - {id},
        siswa := map k | k in db.siswa && db.siswa[k].kelas_id != id :: db.siswa[k],
        pelanggaranSiswa := KeepRecords(db.pelanggaranSiswa, (p: PelanggaranSiswa) => OfClass(db, p, id)))
  }

  /** After a consistent delete of a kelas no remaining siswa is in it and
      no remaining record belongs to a student who was. */
  lemma DeleteKelasTransitive(db: Db, id: int)
    requires Consistent(db)
    ensures var r := DeleteKelas(db, id);
      && (forall k :: k in r.siswa ==> r.siswa[k].kelas_id != id)
      && (forall k :: k in r.pelanggaranSiswa ==>
            var p := r.pelanggaranSiswa[k];
            p.siswa_id in r.siswa && r.siswa[p.siswa_id].kelas_id != id)
  {
  }

  /** Deleting an id that is absent from a consistent database changes
      nothing: no error, no cascade. One lemma per table. */
  lemma DeleteUserAbsent(db: Db, id: int)
    requires id !in db.users
    ensures DeleteUser(db, id) == db
  {
    assert DeleteUser(db, id).users == db.users;
  }

  lemma DeletePelanggaranSiswaAbsent(db: Db, id: int)
    requires id !in db.pelanggaranSiswa
    ensures DeletePelanggaranSiswa(db, id) == db
  {
    assert DeletePelanggaranSiswa(db, id).pelanggaranSiswa == db.pelanggaranSiswa;
  }

  lemma DeleteSiswaAbsent(db: Db, id: int)
    requires Consistent(db) && id !in db.siswa
    ensures DeleteSiswa(db, id) == db
  {
    var r := DeleteSiswa(db, id);
    assert r.siswa == db.siswa;
    forall k | k in db.pelanggaranSiswa ensures k in r.pelanggaranSiswa {
      assert db.pelanggaranSiswa[k].siswa_id in db.siswa;
    }
    assert r.pelanggaranSiswa == db.pelanggaranSiswa;
  }

  lemma DeleteGuruAbsent(db: Db, id: int)
    requires Consistent(db) && id !in db.guru
    ensures DeleteGuru(db, id) == db
  {
    var r := DeleteGuru(db, id);
    assert r.guru == db.guru;
    forall k | k in db.pelanggaranSiswa ensures k in r.pelanggaranSiswa {
      assert db.pelanggaranSiswa[k].guru_id in db.guru;
    }
    assert r.pelanggaranSiswa == db.pelanggaranSiswa;
  }

  lemma DeleteDataPelanggaranAbsent(db: Db, id: int)
    requires Consistent(db) && id !in db.dataPelanggaran
    ensures DeleteDataPelanggaran(db, id) == db
  {
    var r := DeleteDataPelanggaran(db, id);
    assert r.dataPelanggaran == db.dataPelanggaran;
    forall k | k in db.pelanggaranSiswa ensures k in r.pelanggaranSiswa {
      assert db.pelanggaranSiswa[k].data_pelanggaran_id in db.dataPelanggaran;
    }
    assert r.pelanggaranSiswa == db.pelanggaranSiswa;
  }

  lemma DeleteKelasAbsent(db: Db, id: int)
    requires Consistent(db) && id !in db.kelas
    ensures DeleteKelas(db, id) == db
  {
    var r := DeleteKelas(db, id);
    assert r.kelas == db.kelas;
    forall k | k in db.siswa ensures k in r.siswa {
      assert db.siswa[k].kelas_id in db.kelas;
    }
    assert r.siswa == db.siswa;
    assert r.pelanggaranSiswa == db.pelanggaranSiswa;
  }

  /** Deleting twice is deleting once. */
  lemma DeleteIdempotent(db: Db, id: int)
    requires Consistent(db)
    ensures DeleteUser(DeleteUser(db, id), id) == DeleteUser(db, id)
    ensures DeletePelanggaranSiswa(DeletePelanggaranSiswa(db, id), id) == DeletePelanggaranSiswa(db, id)
    ensures DeleteSiswa(DeleteSiswa(db, id), id) == DeleteSiswa(db, id)
    ensures DeleteGuru(DeleteGuru(db, id), id) == DeleteGuru(db, id)
    ensures DeleteDataPelanggaran(DeleteDataPelanggaran(db, id), id) == DeleteDataPelanggaran(db, id)
    ensures DeleteKelas(DeleteKelas(db, id), id) == DeleteKelas(db, id)
  {
    DeleteUserAbsent(DeleteUser(db, id), id);
    DeletePelanggaranSiswaAbsent(DeletePelanggaranSiswa(db, id), id);
    DeleteSiswaAbsent(DeleteSiswa(db, id), id);
    DeleteGuruAbsent(DeleteGuru(db, id), id);
    DeleteDataPelanggaranAbsent(DeleteDataPelanggaran(db, id), id);
    DeleteKelasAbsent(DeleteKelas(db, id), id);
  }
}
