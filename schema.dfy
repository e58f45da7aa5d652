/** The seven tables of the database, one row datatype per table, and the
    constraints the schema declares: serial primary keys, the unique
    username, varchar lengths, and the foreign keys of siswa and
    pelanggaran_siswa. */
module Schema {
  import opened Wrappers
  import opened Enums

  /** A `timestamp` column value; the clock itself is a parameter of every
      handler that writes one. */
  type Timestamp = int
  /** A `date` column value: a calendar day. Days are totally ordered, as
      the `YYYY-MM-DD` strings that store them are. */
  type Day = int

  datatype User = User(id: int, username: string, password_hash: string, nama: string,
                       role: Role, is_active: bool,
                       created_at: Timestamp, updated_at: Option<Timestamp>)

  datatype Kelas = Kelas(id: int, nomor: int, rombel: Rombel, nama_kelas: string,
                         created_at: Timestamp, updated_at: Option<Timestamp>)

  datatype Guru = Guru(id: int, nomor: int, nama_guru: string, nip: string,
                       created_at: Timestamp, updated_at: Option<Timestamp>)

  datatype Siswa = Siswa(id: int, nomor: int, nama_siswa: string, nisn: string, kelas_id: int,
                         created_at: Timestamp, updated_at: Option<Timestamp>)

  datatype DataPelanggaran = DataPelanggaran(id: int, kategori: Kategori, jenis_pelanggaran: string,
                                             poin: int,
                                             created_at: Timestamp, updated_at: Option<Timestamp>)

  datatype PelanggaranSiswa = PelanggaranSiswa(id: int, tanggal: Day, siswa_id: int,
                                               data_pelanggaran_id: int, guru_id: int,
                                               bukti_file: Option<string>,
                                               created_at: Timestamp, updated_at: Option<Timestamp>)

  datatype PengaturanInstansi = PengaturanInstansi(id: int, nama_instansi: string, alamat: string,
                                                   nama_kepala_sekolah: string,
                                                   website: Option<string>, email: Option<string>,
                                                   logo_sekolah: Option<string>,
                                                   created_at: Timestamp, updated_at: Option<Timestamp>)

  /** A snapshot of the database: each table maps its primary key to its
      row, beside the next value of the table's serial sequence. */
  datatype Db = Db(users: map<int, User>, nextUserId: int,
                   kelas: map<int, Kelas>, nextKelasId: int,
                   guru: map<int, Guru>, nextGuruId: int,
                   siswa: map<int, Siswa>, nextSiswaId: int,
                   dataPelanggaran: map<int, DataPelanggaran>, nextDataPelanggaranId: int,
                   pelanggaranSiswa: map<int, PelanggaranSiswa>, nextPelanggaranSiswaId: int,
                   pengaturanInstansi: map<int, PengaturanInstansi>, nextPengaturanInstansiId: int)

  const EmptyDb: Db := Db(map[], 1, map[], 1, map[], 1, map[], 1, map[], 1, map[], 1, map[], 1)

  const UsernameLength := 50
  const NipLength := 20
  const NisnLength := 20

  /** Every key a serial sequence has handed out lies in [1, next); the
      sequence starts at 1. */
  ghost predicate Serial<T>(m: map<int, T>, next: int) {
    && 1 <= next
    && (forall k :: k in m ==> 1 <= k < next)
  }

  /** Each row's id column equals its primary key. */
  ghost predicate IdsMatchKeys(db: Db) {
    && (forall k :: k in db.users ==> db.users[k].id == k)
    && (forall k :: k in db.kelas ==> db.kelas[k].id == k)
    && (forall k :: k in db.guru ==> db.guru[k].id == k)
    && (forall k :: k in db.siswa ==> db.siswa[k].id == k)
    && (forall k :: k in db.dataPelanggaran ==> db.dataPelanggaran[k].id == k)
    && (forall k :: k in db.pelanggaranSiswa ==> db.pelanggaranSiswa[k].id == k)
    && (forall k :: k in db.pengaturanInstansi ==> db.pengaturanInstansi[k].id == k)
  }

  ghost predicate SerialKeys(db: Db) {
    && Serial(db.users, db.nextUserId)
    && Serial(db.kelas, db.nextKelasId)
    && Serial(db.guru, db.nextGuruId)
    && Serial(db.siswa, db.nextSiswaId)
    && Serial(db.dataPelanggaran, db.nextDataPelanggaranId)
    && Serial(db.pelanggaranSiswa, db.nextPelanggaranSiswaId)
    && Serial(db.pengaturanInstansi, db.nextPengaturanInstansiId)
  }

  /** users.username is unique. */
  ghost predicate UniqueUsernames(users: map<int, User>) {
    forall a, b :: a in users && b in users && a != b ==> users[a].username != users[b].username
  }

  /** varchar(n) columns hold at most n characters. */
  ghost predicate ColumnsFit(db: Db) {
    && (forall k :: k in db.users ==> |db.users[k].username| <= UsernameLength)
    && (forall k :: k in db.guru ==> |db.guru[k].nip| <= NipLength)
    && (forall k :: k in db.siswa ==> |db.siswa[k].nisn| <= NisnLength)
  }

  /** siswa.kelas_id references kelas.id. */
  ghost predicate SiswaReferencesKelas(db: Db) {
    forall k :: k in db.siswa ==> db.siswa[k].kelas_id in db.kelas
  }

  /** pelanggaran_siswa references siswa, data_pelanggaran and guru. */
  ghost predicate PelanggaranReferences(db: Db) {
    forall k :: k in db.pelanggaranSiswa ==>
      && db.pelanggaranSiswa[k].siswa_id in db.siswa
      && db.pelanggaranSiswa[k].data_pelanggaran_id in db.dataPelanggaran
      && db.pelanggaranSiswa[k].guru_id in db.guru
  }

  /** Everything the schema guarantees of a database state. The settings
      table carries no singleton constraint. */
  ghost predicate Consistent(db: Db) {
    && IdsMatchKeys(db)
    && SerialKeys(db)
    && UniqueUsernames(db.users)
    && ColumnsFit(db)
    && SiswaReferencesKelas(db)
    && PelanggaranReferences(db)
  }

  /** The foreign-key invariant alone. */
  ghost predicate ForeignKeysHold(db: Db) {
    SiswaReferencesKelas(db) && PelanggaranReferences(db)
  }

  /** How PostgreSQL stores a string into a varchar(n) column: a longer
      string is refused unless every excess character is a space, in which
      case it is cut to n characters. */
  function FitVarchar(s: string, n: nat): (r: Option<string>)
    ensures r.Some? <==> (forall i :: n <= i < |s| ==> s[i] == ' ')
    ensures r.Some? ==> |r.value| <= n && r.value <= s
    ensures |s| <= n ==> r == Some(s)
    ensures r.Some? && |s| > n ==> r.value == s[..n]
  {
    if |s| <= n then Some(s)
    else if forall i :: n <= i < |s| ==> s[i] == ' ' then Some(s[..n])
    else None
  }

  /** The empty database satisfies every constraint. */
  lemma EmptyDbConsistent()
    ensures Consistent(EmptyDb)
  {
  }

  /** Nothing limits the settings table to one row: a database holding two
      settings rows satisfies every constraint. */
  lemma SeveralSettingsRowsAllowed(a: PengaturanInstansi, b: PengaturanInstansi)
    requires a.id == 1 && b.id == 2
    ensures Consistent(EmptyDb.(pengaturanInstansi := map[1 := a, 2 := b], nextPengaturanInstansiId := 3))
  {
  }
}
