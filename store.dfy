/** The database as a mutable store, and the mutating handlers as methods
    on it. Each method checks what its handler checks, in the same order,
    and on an error leaves the store exactly as it was, because every check
    precedes the single write. The clock is the `now` parameter. */
module Store {
  import opened Wrappers
  import opened Schema
  import opened Inputs
  import Cascade
  import Queries
  import Dashboard

  /** The table a not-found error is about. */
  datatype Entity = KelasRow | GuruRow | SiswaRow | DataPelanggaranRow | PelanggaranSiswaRow

  /** The varchar(20) columns a handler can overflow. */
  datatype Column = NipColumn | NisnColumn

  /** A handler's error: a missing row (with its id when the message names
      it), or a value the database refuses to store. */
  datatype Error = NotFound(entity: Entity, id: Option<int>) | ValueTooLong(column: Column)

  const DefaultNamaInstansi := "Default Institution"
  const DefaultAlamat := "Default Address"
  const DefaultNamaKepalaSekolah := "Default Principal"

  /** `s || null` on an optional, nullable string: absent, null and the
      empty string are all stored as null. */
  function OrNull(p: Patch<string>): (r: Option<string>)
    ensures r.Some? <==> p.Value? && p.value != ""
    ensures r.Some? ==> r.value == p.value
  {
    if p.Value? && p.value != "" then Some(p.value) else None
  }

  /** `s || d` on an optional string: absent and empty give the default. */
  function OrDefault(o: Option<string>, d: string): (r: string)
    ensures o.None? || o.value == "" ==> r == d
    ensures o.Some? && o.value != "" ==> r == o.value
  {
    if o.Some? && o.value != "" then o.value else d
  }

  /** An update of a nullable column: absent keeps the stored value, null
      clears it, a value replaces it. */
  function ApplyPatch(p: Patch<string>, stored: Option<string>): (r: Option<string>)
    ensures p.Absent? ==> r == stored
    ensures p.Null? ==> r == None
    ensures p.Value? ==> r == Some(p.value)
  {
    match p
    case Absent => stored
    case Null => None
    case Value(v) => Some(v)
  }

  /** The row the insert path of updatePengaturanInstansi writes: `||`
      defaults, so no text column of it is ever the empty string. */
  function NewSettings(id: int, input: UpdatePengaturanInstansiInput, now: Timestamp): (r: PengaturanInstansi)
    ensures r.id == id && r.created_at == now && r.updated_at == None
    ensures r.nama_instansi != "" && r.alamat != "" && r.nama_kepala_sekolah != ""
    ensures r.website != Some("") && r.email != Some("") && r.logo_sekolah != Some("")
    ensures r.nama_instansi == OrDefault(input.nama_instansi, DefaultNamaInstansi)
    ensures r.alamat == OrDefault(input.alamat, DefaultAlamat)
    ensures r.nama_kepala_sekolah == OrDefault(input.nama_kepala_sekolah, DefaultNamaKepalaSekolah)
    ensures r.website == OrNull(input.website) && r.email == OrNull(input.email)
    ensures r.logo_sekolah == OrNull(input.logo_sekolah)
  {
    PengaturanInstansi(id,
                       OrDefault(input.nama_instansi, DefaultNamaInstansi),
                       OrDefault(input.alamat, DefaultAlamat),
                       OrDefault(input.nama_kepala_sekolah, DefaultNamaKepalaSekolah),
                       OrNull(input.website), OrNull(input.email), OrNull(input.logo_sekolah),
                       now, None)
  }

  /** The row the update path writes, `{...input, updated_at}`: the given
      fields (an empty string included) replace the stored ones, a null
      clears a nullable one, and the rest are kept. */
  function PatchSettings(before: PengaturanInstansi, input: UpdatePengaturanInstansiInput, now: Timestamp)
    : (r: PengaturanInstansi)
    ensures r.id == before.id && r.created_at == before.created_at && r.updated_at == Some(now)
    ensures input.nama_instansi.Some? ==> r.nama_instansi == input.nama_instansi.value
    ensures input.nama_instansi.None? ==> r.nama_instansi == before.nama_instansi
    ensures input.alamat.Some? ==> r.alamat == input.alamat.value
    ensures input.alamat.None? ==> r.alamat == before.alamat
    ensures input.nama_kepala_sekolah.Some? ==> r.nama_kepala_sekolah == input.nama_kepala_sekolah.value
    ensures input.nama_kepala_sekolah.None? ==> r.nama_kepala_sekolah == before.nama_kepala_sekolah
    ensures r.website == ApplyPatch(input.website, before.website)
    ensures r.email == ApplyPatch(input.email, before.email)
    ensures r.logo_sekolah == ApplyPatch(input.logo_sekolah, before.logo_sekolah)
  {
    before.(nama_instansi := input.nama_instansi.GetOr(before.nama_instansi),
            alamat := input.alamat.GetOr(before.alamat),
            nama_kepala_sekolah := input.nama_kepala_sekolah.GetOr(before.nama_kepala_sekolah),
            website := ApplyPatch(input.website, before.website),
            email := ApplyPatch(input.email, before.email),
            logo_sekolah := ApplyPatch(input.logo_sekolah, before.logo_sekolah),
            updated_at := Some(now))
  }

  class Store {
    var users: map<int, User>
    var nextUserId: int
    var kelas: map<int, Kelas>
    var nextKelasId: int
    var guru: map<int, Guru>
    var nextGuruId: int
    var siswa: map<int, Siswa>
    var nextSiswaId: int
    var dataPelanggaran: map<int, DataPelanggaran>
    var nextDataPelanggaranId: int
    var pelanggaranSiswa: map<int, PelanggaranSiswa>
    var nextPelanggaranSiswaId: int
    var pengaturanInstansi: map<int, PengaturanInstansi>
    var nextPengaturanInstansiId: int

    /** The current contents, as a value the query functions read. */
    function Snapshot(): Db
      reads this
    {
      Db(users, nextUserId, kelas, nextKelasId, guru, nextGuruId, siswa, nextSiswaId,
         dataPelanggaran, nextDataPelanggaranId, pelanggaranSiswa, nextPelanggaranSiswaId,
         pengaturanInstansi, nextPengaturanInstansiId)
    }

    ghost predicate Valid()
      reads this
    {
      Consistent(Snapshot()) && ValidatedRows(Snapshot())
    }

    /** A fresh database: every table empty, every sequence at 1. */
    constructor ()
      ensures Snapshot() == EmptyDb
      ensures Valid()
    {
      users, nextUserId := map[], 1;
      kelas, nextKelasId := map[], 1;
      guru, nextGuruId := map[], 1;
      siswa, nextSiswaId := map[], 1;
      dataPelanggaran, nextDataPelanggaranId := map[], 1;
      pelanggaranSiswa, nextPelanggaranSiswaId := map[], 1;
      pengaturanInstansi, nextPengaturanInstansiId := map[], 1;
    }

    // ---------------------------------------------------------------- kelas

    /** createKelas: no check, one row under a fresh id, updated_at null. */
    method CreateKelas(input: CreateKelasInput, now: Timestamp) returns (row: Kelas)
      requires Valid() && ValidCreateKelas(input)
      modifies this
      ensures Valid()
      ensures row == Kelas(old(nextKelasId), input.nomor, input.rombel, input.nama_kelas, now, None)
      ensures row.id !in old(kelas)
      ensures Snapshot() == old(Snapshot()).(kelas := old(kelas)[row.id := row],
                                             nextKelasId := old(nextKelasId) + 1)
    {
      row := Kelas(nextKelasId, input.nomor, input.rombel, input.nama_kelas, now, None);
      kelas := kelas[row.id := row];
      nextKelasId := nextKelasId + 1;
    }

    /** updateKelas: a missing id is an error naming it; otherwise only the
        given fields change, updated_at is set and created_at kept. */
    method UpdateKelas(input: UpdateKelasInput, now: Timestamp) returns (r: Result<Kelas, Error>)
      requires Valid() && ValidUpdateKelas(input)
      modifies this
      ensures Valid()
      ensures input.id !in old(kelas) ==>
        r == Err(NotFound(KelasRow, Some(input.id))) && Snapshot() == old(Snapshot())
      ensures input.id in old(kelas) ==>
        var before := old(kelas)[input.id];
        && r == Ok(before.(nomor := input.nomor.GetOr(before.nomor),
                           rombel := input.rombel.GetOr(before.rombel),
                           nama_kelas := input.nama_kelas.GetOr(before.nama_kelas),
                           updated_at := Some(now)))
        && r.value.id == input.id && r.value.created_at == before.created_at
        && Snapshot() == old(Snapshot()).(kelas := old(kelas)[input.id := r.value])
    {
      if input.id !in kelas {
        return Err(NotFound(KelasRow, Some(input.id)));
      }
      var row := kelas[input.id];
      if input.nomor.Some? {
        row := row.(nomor := input.nomor.value);
      }
      if input.rombel.Some? {
        row := row.(rombel := input.rombel.value);
      }
      if input.nama_kelas.Some? {
        row := row.(nama_kelas := input.nama_kelas.value);
      }
      row := row.(updated_at := Some(now));
      kelas := kelas[input.id := row];
      return Ok(row);
    }

    /** deleteKelas: removes the kelas, its siswa and their records. */
    method DeleteKelas(id: int)
      requires Valid()
      modifies this
      ensures Valid()
      ensures Snapshot() == Cascade.DeleteKelas(old(Snapshot()), id)
    {
      // The database applies the cascade in the same statement: the kelas,
      // its siswa and their records.
      var before := Snapshot();
      var after := Cascade.DeleteKelas(before, id);
      KelasDeleteValidated(before, id);
      assert Consistent(after) && ValidatedRows(after);
      pelanggaranSiswa := after.pelanggaranSiswa;
      siswa := after.siswa;
      kelas := after.kelas;
      assert Snapshot() == after;
    }

    // ----------------------------------------------------------------- guru

    /** createGuru: one row under a fresh id; a nip the varchar(20) column
        cannot hold is refused by the database and nothing is stored. */
    method CreateGuru(input: CreateGuruInput, now: Timestamp) returns (r: Result<Guru, Error>)
      requires Valid() && ValidCreateGuru(input)
      modifies this
      ensures Valid()
      ensures FitVarchar(input.nip, NipLength).None? ==>
        r == Err(ValueTooLong(NipColumn)) && Snapshot() == old(Snapshot())
      ensures FitVarchar(input.nip, NipLength).Some? ==>
        && r == Ok(Guru(old(nextGuruId), input.nomor, input.nama_guru,
                        FitVarchar(input.nip, NipLength).value, now, None))
        && r.value.id !in old(guru)
        && Snapshot() == old(Snapshot()).(guru := old(guru)[r.value.id := r.value],
                                          nextGuruId := old(nextGuruId) + 1)
    {
      var nip := FitVarchar(input.nip, NipLength);
      if nip.None? {
        return Err(ValueTooLong(NipColumn));
      }
      var row := Guru(nextGuruId, input.nomor, input.nama_guru, nip.value, now, None);
      var before := Snapshot();
      GuruInserted(before, row);
      guru := guru[row.id := row];
      nextGuruId := nextGuruId + 1;
      assert Snapshot() == before.(guru := before.guru[row.id := row], nextGuruId := before.nextGuruId + 1);
      return Ok(row);
    }

    /** updateGuru: a missing id is an error naming it; otherwise only the
        given fields change and updated_at is set. */
    method UpdateGuru(input: UpdateGuruInput, now: Timestamp) returns (r: Result<Guru, Error>)
      requires Valid() && ValidUpdateGuru(input)
      modifies this
      ensures Valid()
      ensures input.id !in old(guru) ==>
        r == Err(NotFound(GuruRow, Some(input.id))) && Snapshot() == old(Snapshot())
      ensures input.id in old(guru) && input.nip.Some? && FitVarchar(input.nip.value, NipLength).None? ==>
        r == Err(ValueTooLong(NipColumn)) && Snapshot() == old(Snapshot())
      ensures input.id in old(guru) && (input.nip.Some? ==> FitVarchar(input.nip.value, NipLength).Some?) ==>
        var before := old(guru)[input.id];
        && r == Ok(before.(nomor := input.nomor.GetOr(before.nomor),
                           nama_guru := input.nama_guru.GetOr(before.nama_guru),
                           nip := if input.nip.Some? then FitVarchar(input.nip.value, NipLength).value
                                  else before.nip,
                           updated_at := Some(now)))
        && r.value.id == input.id && r.value.created_at == before.created_at
        && Snapshot() == old(Snapshot()).(guru := old(guru)[input.id := r.value])
    {
      if input.id !in guru {
        return Err(NotFound(GuruRow, Some(input.id)));
      }
      var row := guru[input.id];
      if input.nomor.Some? {
        row := row.(nomor := input.nomor.value);
      }
      if input.nama_guru.Some? {
        row := row.(nama_guru := input.nama_guru.value);
      }
      if input.nip.Some? {
        var nip := FitVarchar(input.nip.value, NipLength);
        if nip.None? {
          return Err(ValueTooLong(NipColumn));
        }
        row := row.(nip := nip.value);
      }
      row := row.(updated_at := Some(now));
      guru := guru[input.id := row];
      return Ok(row);
    }

    /** deleteGuru: removes the guru and the records that name it. */
    method DeleteGuru(id: int)
      requires Valid()
      modifies this
      ensures Valid()
      ensures Snapshot() == Cascade.DeleteGuru(old(Snapshot()), id)
    {
      // The database applies the cascade in the same statement.
      var after := Cascade.DeleteGuru(Snapshot(), id);
      pelanggaranSiswa := after.pelanggaranSiswa;
      guru := after.guru;
    }

    // ---------------------------------------------------------------- siswa

    /** createSiswa: the kelas must exist (an error naming its id), then
        the nisn must fit varchar(20); then one row under a fresh id. */
    method CreateSiswa(input: CreateSiswaInput, now: Timestamp) returns (r: Result<Siswa, Error>)
      requires Valid() && ValidCreateSiswa(input)
      modifies this
      ensures Valid()
      ensures input.kelas_id !in old(kelas) ==>
        r == Err(NotFound(KelasRow, Some(input.kelas_id))) && Snapshot() == old(Snapshot())
      ensures input.kelas_id in old(kelas) && FitVarchar(input.nisn, NisnLength).None? ==>
        r == Err(ValueTooLong(NisnColumn)) && Snapshot() == old(Snapshot())
      ensures input.kelas_id in old(kelas) && FitVarchar(input.nisn, NisnLength).Some? ==>
        && r == Ok(Siswa(old(nextSiswaId), input.nomor, input.nama_siswa,
                         FitVarchar(input.nisn, NisnLength).value, input.kelas_id, now, None))
        && r.value.id !in old(siswa)
        && Snapshot() == old(Snapshot()).(siswa := old(siswa)[r.value.id := r.value],
                                          nextSiswaId := old(nextSiswaId) + 1)
    {
      if input.kelas_id !in kelas {
        return Err(NotFound(KelasRow, Some(input.kelas_id)));
      }
      var nisn := FitVarchar(input.nisn, NisnLength);
      if nisn.None? {
        return Err(ValueTooLong(NisnColumn));
      }
      var row := Siswa(nextSiswaId, input.nomor, input.nama_siswa, nisn.value, input.kelas_id, now, None);
      siswa := siswa[row.id := row];
      nextSiswaId := nextSiswaId + 1;
      return Ok(row);
    }

    /** updateSiswa: the siswa must exist, then a given kelas_id must name
        a kelas (neither message names an id); only the given fields change
        and updated_at is set. */
    method UpdateSiswa(input: UpdateSiswaInput, now: Timestamp) returns (r: Result<Siswa, Error>)
      requires Valid() && ValidUpdateSiswa(input)
      modifies this
      ensures Valid()
      ensures input.id !in old(siswa) ==>
        r == Err(NotFound(SiswaRow, None)) && Snapshot() == old(Snapshot())
      ensures input.id in old(siswa) && input.kelas_id.Some? && input.kelas_id.value !in old(kelas) ==>
        r == Err(NotFound(KelasRow, None)) && Snapshot() == old(Snapshot())
      ensures input.id in old(siswa) && (input.kelas_id.Some? ==> input.kelas_id.value in old(kelas))
              && input.nisn.Some? && FitVarchar(input.nisn.value, NisnLength).None? ==>
        r == Err(ValueTooLong(NisnColumn)) && Snapshot() == old(Snapshot())
      ensures input.id in old(siswa) && (input.kelas_id.Some? ==> input.kelas_id.value in old(kelas))
              && (input.nisn.Some? ==> FitVarchar(input.nisn.value, NisnLength).Some?) ==>
        var before := old(siswa)[input.id];
        && r == Ok(before.(nomor := input.nomor.GetOr(before.nomor),
                           nama_siswa := input.nama_siswa.GetOr(before.nama_siswa),
                           nisn := if input.nisn.Some? then FitVarchar(input.nisn.value, NisnLength).value
                                   else before.nisn,
                           kelas_id := input.kelas_id.GetOr(before.kelas_id),
                           updated_at := Some(now)))
        && r.value.id == input.id && r.value.created_at == before.created_at
        && Snapshot() == old(Snapshot()).(siswa := old(siswa)[input.id := r.value])
    {
      if input.id !in siswa {
        return Err(NotFound(SiswaRow, None));
      }
      if input.kelas_id.Some? && input.kelas_id.value !in kelas {
        return Err(NotFound(KelasRow, None));
      }
      var row := siswa[input.id];
      if input.nomor.Some? {
        row := row.(nomor := input.nomor.value);
      }
      if input.nama_siswa.Some? {
        row := row.(nama_siswa := input.nama_siswa.value);
      }
      if input.nisn.Some? {
        var nisn := FitVarchar(input.nisn.value, NisnLength);
        if nisn.None? {
          return Err(ValueTooLong(NisnColumn));
        }
        row := row.(nisn := nisn.value);
      }
      if input.kelas_id.Some? {
        row := row.(kelas_id := input.kelas_id.value);
      }
      row := row.(updated_at := Some(now));
      var before := Snapshot();
      SiswaReplaced(before, row);
      siswa := siswa[input.id := row];
      assert Snapshot() == before.(siswa := before.siswa[row.id := row]);
      return Ok(row);
    }

    /** deleteSiswa: removes the siswa and its records. */
    method DeleteSiswa(id: int)
      requires Valid()
      modifies this
      ensures Valid()
      ensures Snapshot() == Cascade.DeleteSiswa(old(Snapshot()), id)
    {
      // The database applies the cascade in the same statement.
      var after := Cascade.DeleteSiswa(Snapshot(), id);
      pelanggaranSiswa := after.pelanggaranSiswa;
      siswa := after.siswa;
    }

    // ------------------------------------------------------ data_pelanggaran

    /** createDataPelanggaran: no check, one row under a fresh id. */
    method CreateDataPelanggaran(input: CreateDataPelanggaranInput, now: Timestamp) returns (row: DataPelanggaran)
      requires Valid() && ValidCreateDataPelanggaran(input)
      modifies this
      ensures Valid()
      ensures row == DataPelanggaran(old(nextDataPelanggaranId), input.kategori, input.jenis_pelanggaran,
                                     input.poin, now, None)
      ensures row.id !in old(dataPelanggaran)
      ensures Snapshot() == old(Snapshot()).(dataPelanggaran := old(dataPelanggaran)[row.id := row],
                                             nextDataPelanggaranId := old(nextDataPelanggaranId) + 1)
    {
      row := DataPelanggaran(nextDataPelanggaranId, input.kategori, input.jenis_pelanggaran, input.poin, now, None);
      dataPelanggaran := dataPelanggaran[row.id := row];
      nextDataPelanggaranId := nextDataPelanggaranId + 1;
    }

    /** updateDataPelanggaran: a missing id is an error (the message names
        no id); otherwise only the given fields change and updated_at is
        set. Records of this type are not touched: the dashboard reads poin
        when it runs. */
    method UpdateDataPelanggaran(input: UpdateDataPelanggaranInput, now: Timestamp)
      returns (r: Result<DataPelanggaran, Error>)
      requires Valid() && ValidUpdateDataPelanggaran(input)
      modifies this
      ensures Valid()
      ensures input.id !in old(dataPelanggaran) ==>
        r == Err(NotFound(DataPelanggaranRow, None)) && Snapshot() == old(Snapshot())
      ensures input.id in old(dataPelanggaran) ==>
        var before := old(dataPelanggaran)[input.id];
        && r == Ok(before.(kategori := input.kategori.GetOr(before.kategori),
                           jenis_pelanggaran := input.jenis_pelanggaran.GetOr(before.jenis_pelanggaran),
                           poin := input.poin.GetOr(before.poin),
                           updated_at := Some(now)))
        && r.value.id == input.id && r.value.created_at == before.created_at
        && Snapshot() == old(Snapshot()).(dataPelanggaran := old(dataPelanggaran)[input.id := r.value])
    {
      if input.id !in dataPelanggaran {
        return Err(NotFound(DataPelanggaranRow, None));
      }
      var row := dataPelanggaran[input.id];
      if input.kategori.Some? {
        row := row.(kategori := input.kategori.value);
      }
      if input.jenis_pelanggaran.Some? {
        row := row.(jenis_pelanggaran := input.jenis_pelanggaran.value);
      }
      if input.poin.Some? {
        row := row.(poin := input.poin.value);
      }
      row := row.(updated_at := Some(now));
      dataPelanggaran := dataPelanggaran[input.id := row];
      return Ok(row);
    }

    /** deleteDataPelanggaran: removes the type and the records of it. */
    method DeleteDataPelanggaran(id: int)
      requires Valid()
      modifies this
      ensures Valid()
      ensures Snapshot() == Cascade.DeleteDataPelanggaran(old(Snapshot()), id)
    {
      // The database applies the cascade in the same statement.
      var after := Cascade.DeleteDataPelanggaran(Snapshot(), id);
      pelanggaranSiswa := after.pelanggaranSiswa;
      dataPelanggaran := after.dataPelanggaran;
    }

    // ----------------------------------------------------- pelanggaran_siswa

    /** createPelanggaranSiswa: the siswa, the violation type and the guru
        must exist, checked in that order, each error naming the id; then
        one record under a fresh id, with the date as given and an absent,
        null or empty bukti_file stored as null. */
    method CreatePelanggaranSiswa(input: CreatePelanggaranSiswaInput, now: Timestamp)
      returns (r: Result<PelanggaranSiswa, Error>)
      requires Valid()
      modifies this
      ensures Valid()
      ensures input.siswa_id !in old(siswa) ==>
        r == Err(NotFound(SiswaRow, Some(input.siswa_id)))
      ensures input.siswa_id in old(siswa) && input.data_pelanggaran_id !in old(dataPelanggaran) ==>
        r == Err(NotFound(DataPelanggaranRow, Some(input.data_pelanggaran_id)))
      ensures input.siswa_id in old(siswa) && input.data_pelanggaran_id in old(dataPelanggaran)
              && input.guru_id !in old(guru) ==>
        r == Err(NotFound(GuruRow, Some(input.guru_id)))
      ensures r.Err? ==> Snapshot() == old(Snapshot())
      ensures r.Ok? <==>
        input.siswa_id in old(siswa) && input.data_pelanggaran_id in old(dataPelanggaran)
        && input.guru_id in old(guru)
      ensures r.Ok? ==>
        && r.value == PelanggaranSiswa(old(nextPelanggaranSiswaId), input.tanggal, input.siswa_id,
                                       input.data_pelanggaran_id, input.guru_id,
                                       OrNull(input.bukti_file), now, None)
        && r.value.id !in old(pelanggaranSiswa)
        && Snapshot() == old(Snapshot()).(pelanggaranSiswa := old(pelanggaranSiswa)[r.value.id := r.value],
                                          nextPelanggaranSiswaId := old(nextPelanggaranSiswaId) + 1)
    {
      if input.siswa_id !in siswa {
        return Err(NotFound(SiswaRow, Some(input.siswa_id)));
      }
      if input.data_pelanggaran_id !in dataPelanggaran {
        return Err(NotFound(DataPelanggaranRow, Some(input.data_pelanggaran_id)));
      }
      if input.guru_id !in guru {
        return Err(NotFound(GuruRow, Some(input.guru_id)));
      }
      var row := PelanggaranSiswa(nextPelanggaranSiswaId, input.tanggal, input.siswa_id,
                                  input.data_pelanggaran_id, input.guru_id,
                                  OrNull(input.bukti_file), now, None);
      pelanggaranSiswa := pelanggaranSiswa[row.id := row];
      nextPelanggaranSiswaId := nextPelanggaranSiswaId + 1;
      return Ok(row);
    }

    /** updatePelanggaranSiswa: the record must exist; then each given
        siswa, violation type and guru must exist, in that order, each error
        naming its id; then only the given fields change, a null bukti_file
        clears it, and updated_at is set. */
    method UpdatePelanggaranSiswa(input: UpdatePelanggaranSiswaInput, now: Timestamp)
      returns (r: Result<PelanggaranSiswa, Error>)
      requires Valid()
      modifies this
      ensures Valid()
      ensures input.id !in old(pelanggaranSiswa) ==>
        r == Err(NotFound(PelanggaranSiswaRow, Some(input.id)))
      ensures input.id in old(pelanggaranSiswa) && input.siswa_id.Some?
              && input.siswa_id.value !in old(siswa) ==>
        r == Err(NotFound(SiswaRow, Some(input.siswa_id.value)))
      ensures input.id in old(pelanggaranSiswa)
              && (input.siswa_id.Some? ==> input.siswa_id.value in old(siswa))
              && input.data_pelanggaran_id.Some? && input.data_pelanggaran_id.value !in old(dataPelanggaran) ==>
        r == Err(NotFound(DataPelanggaranRow, Some(input.data_pelanggaran_id.value)))
      ensures input.id in old(pelanggaranSiswa)
              && (input.siswa_id.Some? ==> input.siswa_id.value in old(siswa))
              && (input.data_pelanggaran_id.Some? ==> input.data_pelanggaran_id.value in old(dataPelanggaran))
              && input.guru_id.Some? && input.guru_id.value !in old(guru) ==>
        r == Err(NotFound(GuruRow, Some(input.guru_id.value)))
      ensures r.Err? ==> Snapshot() == old(Snapshot())
      ensures r.Ok? <==>
        && input.id in old(pelanggaranSiswa)
        && (input.siswa_id.Some? ==> input.siswa_id.value in old(siswa))
        && (input.data_pelanggaran_id.Some? ==> input.data_pelanggaran_id.value in old(dataPelanggaran))
        && (input.guru_id.Some? ==> input.guru_id.value in old(guru))
      ensures r.Ok? ==>
        var before := old(pelanggaranSiswa)[input.id];
        && r.value == before.(tanggal := input.tanggal.GetOr(before.tanggal),
                              siswa_id := input.siswa_id.GetOr(before.siswa_id),
                              data_pelanggaran_id := input.data_pelanggaran_id.GetOr(before.data_pelanggaran_id),
                              guru_id := input.guru_id.GetOr(before.guru_id),
                              bukti_file := ApplyPatch(input.bukti_file, before.bukti_file),
                              updated_at := Some(now))
        && r.value.id == input.id && r.value.created_at == before.created_at
        && Snapshot() == old(Snapshot()).(pelanggaranSiswa := old(pelanggaranSiswa)[input.id := r.value])
    {
      if input.id !in pelanggaranSiswa {
        return Err(NotFound(PelanggaranSiswaRow, Some(input.id)));
      }
      if input.siswa_id.Some? && input.siswa_id.value !in siswa {
        return Err(NotFound(SiswaRow, Some(input.siswa_id.value)));
      }
      if input.data_pelanggaran_id.Some? && input.data_pelanggaran_id.value !in dataPelanggaran {
        return Err(NotFound(DataPelanggaranRow, Some(input.data_pelanggaran_id.value)));
      }
      if input.guru_id.Some? && input.guru_id.value !in guru {
        return Err(NotFound(GuruRow, Some(input.guru_id.value)));
      }
      var row := pelanggaranSiswa[input.id];
      row := row.(updated_at := Some(now));
      if input.tanggal.Some? {
        row := row.(tanggal := input.tanggal.value);
      }
      if input.siswa_id.Some? {
        row := row.(siswa_id := input.siswa_id.value);
      }
      if input.data_pelanggaran_id.Some? {
        row := row.(data_pelanggaran_id := input.data_pelanggaran_id.value);
      }
      if input.guru_id.Some? {
        row := row.(guru_id := input.guru_id.value);
      }
      if !input.bukti_file.Absent? {
        row := row.(bukti_file := if input.bukti_file.Value? then Some(input.bukti_file.value) else None);
      }
      RecordReplaced(Snapshot(), row);
      pelanggaranSiswa := pelanggaranSiswa[input.id := row];
      return Ok(row);
    }

    /** deletePelanggaranSiswa: removes the record; nothing cascades. */
    method DeletePelanggaranSiswa(id: int)
      requires Valid()
      modifies this
      ensures Valid()
      ensures Snapshot() == Cascade.DeletePelanggaranSiswa(old(Snapshot()), id)
    {
      pelanggaranSiswa := pelanggaranSiswa - {id};
    }

    // -------------------------------------------------- pengaturan_instansi

    /** updatePengaturanInstansi: with no settings row, inserts one, with
        the defaults for absent or empty name, address and principal and
        null for absent or empty website, email and logo; otherwise patches
        the first row (least id) with the given fields, null clearing a
        nullable one, and sets updated_at. Afterwards getPengaturanInstansi
        returns the row written. */
    method UpdatePengaturanInstansi(input: UpdatePengaturanInstansiInput, now: Timestamp)
      returns (row: PengaturanInstansi)
      requires Valid()
      modifies this
      ensures Valid()
      ensures old(pengaturanInstansi) == map[] ==>
        && row == NewSettings(old(nextPengaturanInstansiId), input, now)
        && Snapshot() == old(Snapshot()).(pengaturanInstansi := map[row.id := row],
                                          nextPengaturanInstansiId := old(nextPengaturanInstansiId) + 1)
      ensures old(pengaturanInstansi) != map[] ==>
        && row.id in old(pengaturanInstansi)
        && (forall k :: k in old(pengaturanInstansi) ==> row.id <= k)
        && row == PatchSettings(old(pengaturanInstansi)[row.id], input, now)
        && Snapshot() == old(Snapshot()).(pengaturanInstansi := old(pengaturanInstansi)[row.id := row])
      ensures pengaturanInstansi != map[]
      ensures |pengaturanInstansi| <= |old(pengaturanInstansi)| + 1
      ensures Queries.GetPengaturanInstansi(Snapshot()) == Some(row)
    {
      var before := Snapshot();
      var existing := Queries.GetPengaturanInstansi(before);
      if existing.None? {
        row := NewSettings(nextPengaturanInstansiId, input, now);
        SettingsInserted(before, row);
        pengaturanInstansi := pengaturanInstansi[row.id := row];
        nextPengaturanInstansiId := nextPengaturanInstansiId + 1;
        assert Snapshot() == before.(pengaturanInstansi := map[row.id := row],
                                     nextPengaturanInstansiId := before.nextPengaturanInstansiId + 1);
      } else {
        FirstSettingsKey(before);
        row := PatchSettings(existing.value, input, now);
        SettingsReplaced(before, row);
        pengaturanInstansi := pengaturanInstansi[row.id := row];
        assert Snapshot() == before.(pengaturanInstansi := before.pengaturanInstansi[row.id := row]);
      }
    }

    // ---------------------------------------------------------------- users

    /** deleteUser: removes the user; no other table references users. */
    method DeleteUser(id: int)
      requires Valid()
      modifies this
      ensures Valid()
      ensures Snapshot() == Cascade.DeleteUser(old(Snapshot()), id)
    {
      users := users - {id};
    }
  }

  /** The first settings row is stored under its own id. */
  lemma FirstSettingsKey(db: Db)
    requires Consistent(db) && db.pengaturanInstansi != map[]
    ensures Queries.GetPengaturanInstansi(db).Some?
    ensures var first := Queries.GetPengaturanInstansi(db).value;
      first.id in db.pengaturanInstansi && db.pengaturanInstansi[first.id] == first
  {
    var first := Queries.GetPengaturanInstansi(db).value;
    var k :| k in db.pengaturanInstansi && db.pengaturanInstansi[k] == first;
  }

  /** In every state a store keeps, each row of the dashboard summary has
      at least as many points as violations, because validation made every
      stored poin positive. */
  lemma SummaryPoinAtLeastCount(db: Db, f: Dashboard.DashboardFilter)
    requires ValidatedRows(db)
    ensures forall row :: row in Dashboard.GetDashboardSummary(db, f).rangkumanPelanggaran ==>
      row.total_poin >= row.total_pelanggaran
    ensures forall row :: row in Dashboard.GetDashboardSummary(db, f).pelanggaranPerKelas ==>
      row.total_poin >= row.total_pelanggaran
  {
    Dashboard.RowsPoinAtLeastCount(db, f);
  }

  /** Deleting a kelas only removes rows, so what validation guarantees
      of the stored rows survives it. */
  lemma KelasDeleteValidated(db: Db, id: int)
    requires ValidatedRows(db)
    ensures ValidatedRows(Cascade.DeleteKelas(db, id))
  {
    var r := Cascade.DeleteKelas(db, id);
    forall k | k in r.kelas ensures r.kelas[k].nomor > 0 {
      assert k in db.kelas && k != id;
    }
    forall k | k in r.siswa ensures r.siswa[k].nomor > 0 {
      assert r.siswa[k] == db.siswa[k];
    }
    assert r.guru == db.guru && r.dataPelanggaran == db.dataPelanggaran;
  }

  /** A new guru with a positive nomor and a fitting nip, stored under the
      next serial key, keeps the database consistent and validated. */
  lemma GuruInserted(db: Db, row: Guru)
    requires Consistent(db) && ValidatedRows(db)
    requires row.id == db.nextGuruId && row.nomor > 0 && |row.nip| <= NipLength
    ensures var after := db.(guru := db.guru[row.id := row], nextGuruId := db.nextGuruId + 1);
      Consistent(after) && ValidatedRows(after)
  {
  }

  /** Rewriting a siswa whose kelas exists, whose nisn fits and whose nomor
      is positive keeps the database consistent and validated. */
  lemma SiswaReplaced(db: Db, row: Siswa)
    requires Consistent(db) && row.id in db.siswa
    requires row.kelas_id in db.kelas && |row.nisn| <= NisnLength
    requires ValidatedRows(db) && row.nomor > 0
    ensures Consistent(db.(siswa := db.siswa[row.id := row]))
    ensures ValidatedRows(db.(siswa := db.siswa[row.id := row]))
  {
  }

  /** Rewriting a record whose references all exist keeps the database
      consistent. */
  lemma RecordReplaced(db: Db, row: PelanggaranSiswa)
    requires Consistent(db) && row.id in db.pelanggaranSiswa
    requires row.siswa_id in db.siswa && row.data_pelanggaran_id in db.dataPelanggaran && row.guru_id in db.guru
    ensures Consistent(db.(pelanggaranSiswa := db.pelanggaranSiswa[row.id := row]))
  {
  }

  /** Storing the first settings row under the next key keeps the database
      consistent and makes that row the one getPengaturanInstansi returns. */
  lemma SettingsInserted(db: Db, row: PengaturanInstansi)
    requires Consistent(db) && db.pengaturanInstansi == map[] && row.id == db.nextPengaturanInstansiId
    ensures var after := db.(pengaturanInstansi := map[row.id := row],
                             nextPengaturanInstansiId := db.nextPengaturanInstansiId + 1);
      Consistent(after) && Queries.GetPengaturanInstansi(after) == Some(row)
  {
    var after := db.(pengaturanInstansi := map[row.id := row],
                     nextPengaturanInstansiId := db.nextPengaturanInstansiId + 1);
    FirstSettingsRow(after, row);
  }

  /** Rewriting the settings row with the least id under that id keeps the
      database consistent and keeps that row the one returned. */
  lemma SettingsReplaced(db: Db, row: PengaturanInstansi)
    requires Consistent(db) && row.id in db.pengaturanInstansi
    requires forall k :: k in db.pengaturanInstansi ==> row.id <= k
    ensures var after := db.(pengaturanInstansi := db.pengaturanInstansi[row.id := row]);
      Consistent(after) && Queries.GetPengaturanInstansi(after) == Some(row)
  {
    var after := db.(pengaturanInstansi := db.pengaturanInstansi[row.id := row]);
    FirstSettingsRow(after, row);
  }

  /** In a consistent database, the settings row with the least id is the
      one getPengaturanInstansi returns. */
  lemma FirstSettingsRow(db: Db, row: PengaturanInstansi)
    requires Consistent(db)
    requires row.id in db.pengaturanInstansi && db.pengaturanInstansi[row.id] == row
    requires forall k :: k in db.pengaturanInstansi ==> row.id <= k
    ensures Queries.GetPengaturanInstansi(db) == Some(row)
  {
    var first := Queries.GetPengaturanInstansi(db);
    var k :| k in db.pengaturanInstansi && db.pengaturanInstansi[k] == first.value;
    assert first.value.id == k;
  }
}
