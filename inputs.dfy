/** The input objects the router validates before a handler runs, and
    their validity: positive `nomor` and `poin`, minimum username and
    password lengths, the closed enumerations (by type), optional fields as
    `Option`, and `.nullable().optional()` fields as `Patch`. */
module Inputs {
  import opened Wrappers
  import opened Enums
  import opened Schema

  datatype CreateUserInput = CreateUserInput(username: string, password: string, nama: string,
                                             role: Role, is_active: Option<bool>)

  /** A create-user input after validation, with its default applied. */
  datatype NewUser = NewUser(username: string, password: string, nama: string,
                             role: Role, is_active: bool)

  datatype UpdateUserInput = UpdateUserInput(id: int, username: Option<string>, password: Option<string>,
                                             nama: Option<string>, role: Option<Role>,
                                             is_active: Option<bool>)

  datatype CreateKelasInput = CreateKelasInput(nomor: int, rombel: Rombel, nama_kelas: string)
  datatype UpdateKelasInput = UpdateKelasInput(id: int, nomor: Option<int>, rombel: Option<Rombel>,
                                               nama_kelas: Option<string>)

  datatype CreateGuruInput = CreateGuruInput(nomor: int, nama_guru: string, nip: string)
  datatype UpdateGuruInput = UpdateGuruInput(id: int, nomor: Option<int>, nama_guru: Option<string>,
                                             nip: Option<string>)

  datatype CreateSiswaInput = CreateSiswaInput(nomor: int, nama_siswa: string, nisn: string, kelas_id: int)
  datatype UpdateSiswaInput = UpdateSiswaInput(id: int, nomor: Option<int>, nama_siswa: Option<string>,
                                               nisn: Option<string>, kelas_id: Option<int>)

  datatype CreateDataPelanggaranInput = CreateDataPelanggaranInput(kategori: Kategori, jenis_pelanggaran: string,
                                                                   poin: int)
  datatype UpdateDataPelanggaranInput = UpdateDataPelanggaranInput(id: int, kategori: Option<Kategori>,
                                                                   jenis_pelanggaran: Option<string>,
                                                                   poin: Option<int>)

  datatype CreatePelanggaranSiswaInput = CreatePelanggaranSiswaInput(tanggal: Day, siswa_id: int,
                                                                     data_pelanggaran_id: int, guru_id: int,
                                                                     bukti_file: Patch<string>)
  datatype UpdatePelanggaranSiswaInput = UpdatePelanggaranSiswaInput(id: int, tanggal: Option<Day>,
                                                                     siswa_id: Option<int>,
                                                                     data_pelanggaran_id: Option<int>,
                                                                     guru_id: Option<int>,
                                                                     bukti_file: Patch<string>)

  datatype UpdatePengaturanInstansiInput = UpdatePengaturanInstansiInput(
    nama_instansi: Option<string>, alamat: Option<string>, nama_kepala_sekolah: Option<string>,
    website: Patch<string>, email: Patch<string>, logo_sekolah: Patch<string>)

  const MinUsernameLength := 3
  const MinPasswordLength := 6

  /** The length JavaScript reports for a string: its number of UTF-16
      code units, two for a character beyond the Basic Multilingual Plane
      (a surrogate pair), one for any other. */
  function Utf16Length(s: string): (n: nat)
    ensures |s| <= n <= 2 * |s|
    ensures (forall i :: 0 <= i < |s| ==> s[i] as int <= 0xFFFF) ==> n == |s|
  {
    if s == [] then 0
    else (if s[0] as int > 0xFFFF then 2 else 1) + Utf16Length(s[1..])
  }

  /** A surrogate pair counts twice: an emoji followed by one letter is
      three code units long, so it meets a minimum length of 3. */
  lemma AstralCharCountsTwice()
    ensures Utf16Length("\U{1F600}a") == 3 == MinUsernameLength
    ensures |"\U{1F600}a"| == 2
  {
    assert "\U{1F600}a"[1..] == "a";
    assert "a"[1..] == "";
  }

  /** createUserInputSchema: username of at least 3 characters, password
      of at least 6, both counted as JavaScript counts them, and is_active
      true unless given. */
  function ValidateCreateUser(i: CreateUserInput): (r: Option<NewUser>)
    ensures r.Some? <==> Utf16Length(i.username) >= MinUsernameLength && Utf16Length(i.password) >= MinPasswordLength
    ensures |i.username| < 2 || |i.password| < 3 ==> r.None?
    ensures |i.username| >= MinUsernameLength && |i.password| >= MinPasswordLength ==> r.Some?
    ensures r.Some? ==>
      && r.value.username == i.username && r.value.password == i.password
      && r.value.nama == i.nama && r.value.role == i.role
      && (r.value.is_active <==> i.is_active != Some(false))
  {
    if Utf16Length(i.username) < MinUsernameLength || Utf16Length(i.password) < MinPasswordLength then None
    else Some(NewUser(i.username, i.password, i.nama, i.role, i.is_active.GetOr(true)))
  }

  /** updateUserInputSchema: the length limits apply to the fields given. */
  predicate ValidUpdateUser(i: UpdateUserInput) {
    && (i.username.Some? ==> Utf16Length(i.username.value) >= MinUsernameLength)
    && (i.password.Some? ==> Utf16Length(i.password.value) >= MinPasswordLength)
  }

  predicate ValidCreateKelas(i: CreateKelasInput) { i.nomor > 0 }
  predicate ValidUpdateKelas(i: UpdateKelasInput) { i.nomor.Some? ==> i.nomor.value > 0 }
  predicate ValidCreateGuru(i: CreateGuruInput) { i.nomor > 0 }
  predicate ValidUpdateGuru(i: UpdateGuruInput) { i.nomor.Some? ==> i.nomor.value > 0 }
  predicate ValidCreateSiswa(i: CreateSiswaInput) { i.nomor > 0 }
  predicate ValidUpdateSiswa(i: UpdateSiswaInput) { i.nomor.Some? ==> i.nomor.value > 0 }
  predicate ValidCreateDataPelanggaran(i: CreateDataPelanggaranInput) { i.poin > 0 }
  predicate ValidUpdateDataPelanggaran(i: UpdateDataPelanggaranInput) { i.poin.Some? ==> i.poin.value > 0 }

  /** updatePengaturanInstansiInputSchema: a given, non-null email must be
      an email address; the format check itself is a parameter. */
  predicate ValidUpdatePengaturanInstansi(i: UpdatePengaturanInstansiInput, isEmail: string -> bool) {
    i.email.Value? ==> isEmail(i.email.value)
  }

  /** What validation leaves in the tables: every input that wrote a
      nomor or a poin had it positive, so every stored one is. */
  ghost predicate ValidatedRows(db: Db) {
    && (forall k :: k in db.kelas ==> db.kelas[k].nomor > 0)
    && (forall k :: k in db.guru ==> db.guru[k].nomor > 0)
    && (forall k :: k in db.siswa ==> db.siswa[k].nomor > 0)
    && (forall k :: k in db.dataPelanggaran ==> db.dataPelanggaran[k].poin > 0)
  }

  /** Every update input needs only its id: with every other field absent
      it is valid. */
  lemma UpdatesNeedOnlyId(id: int, isEmail: string -> bool)
    ensures ValidUpdateUser(UpdateUserInput(id, None, None, None, None, None))
    ensures ValidUpdateKelas(UpdateKelasInput(id, None, None, None))
    ensures ValidUpdateGuru(UpdateGuruInput(id, None, None, None))
    ensures ValidUpdateSiswa(UpdateSiswaInput(id, None, None, None, None))
    ensures ValidUpdateDataPelanggaran(UpdateDataPelanggaranInput(id, None, None, None))
    ensures ValidUpdatePengaturanInstansi(UpdatePengaturanInstansiInput(None, None, None, Absent, Absent, Absent), isEmail)
  {
  }

  /** nomor must be a positive integer: 0 and negative numbers are refused
      on every create input that carries one. */
  lemma NonPositiveNomorRefused(nomor: int, rombel: Rombel, s: string, kelasId: int)
    requires nomor <= 0
    ensures !ValidCreateKelas(CreateKelasInput(nomor, rombel, s))
    ensures !ValidCreateGuru(CreateGuruInput(nomor, s, s))
    ensures !ValidCreateSiswa(CreateSiswaInput(nomor, s, s, kelasId))
    ensures !ValidUpdateKelas(UpdateKelasInput(kelasId, Some(nomor), None, None))
  {
  }

  /** poin must be positive on create, and on update whenever it is given. */
  lemma NonPositivePoinRefused(poin: int, k: Kategori, jenis: string, id: int)
    requires poin <= 0
    ensures !ValidCreateDataPelanggaran(CreateDataPelanggaranInput(k, jenis, poin))
    ensures !ValidUpdateDataPelanggaran(UpdateDataPelanggaranInput(id, None, None, Some(poin)))
    ensures ValidUpdateDataPelanggaran(UpdateDataPelanggaranInput(id, Some(k), Some(jenis), None))
  {
  }
}
