/** getDashboardSummary: the violation records that pass the optional
    filters, grouped once by category and once by class, with a record
    count and a point sum per group. */
module Dashboard {
  import opened Wrappers
  import opened Enums
  import opened Schema
  import opened Listing

  /** The validated filter. The dates are already cut to their day. */
  datatype DashboardFilter = DashboardFilter(tanggal_awal: Option<Day>, tanggal_akhir: Option<Day>,
                                             kelas_id: Option<int>, guru_id: Option<int>,
                                             kategori: Option<Kategori>)

  datatype RangkumanPelanggaran = RangkumanPelanggaran(kategori: Kategori, total_pelanggaran: int,
                                                       total_poin: int)

  datatype PelanggaranPerKelas = PelanggaranPerKelas(kelas_id: int, nama_kelas: string, rombel: Rombel,
                                                     total_pelanggaran: int, total_poin: int)

  datatype DashboardSummary = DashboardSummary(rangkumanPelanggaran: seq<RangkumanPelanggaran>,
                                               pelanggaranPerKelas: seq<PelanggaranPerKelas>)

  /** A JavaScript number used as a condition: absent and 0 are both false. */
  predicate Truthy(x: Option<int>) {
    x.Some? && x.value != 0
  }

  /** The conditions both queries share: inclusive day bounds, the teacher
      and the category of the record's violation type. */
  predicate BaseMatch(f: DashboardFilter, p: PelanggaranSiswa, dp: DataPelanggaran) {
    && (f.tanggal_awal.Some? ==> f.tanggal_awal.value <= p.tanggal)
    && (f.tanggal_akhir.Some? ==> p.tanggal <= f.tanggal_akhir.value)
    && (Truthy(f.guru_id) ==> p.guru_id == f.guru_id.value)
    && (f.kategori.Some? ==> dp.kategori == f.kategori.value)
  }

  /** The two grouped queries of the handler. */
  datatype Grouping = PerKategori | PerKelas

  /** Whether a record is a row of the grouping's inner joins and WHERE
      clause. The category query joins data_pelanggaran, and siswa only
      when the kelas filter is truthy; the class query always joins siswa,
      kelas and data_pelanggaran. */
  predicate Selected(db: Db, f: DashboardFilter, g: Grouping, p: PelanggaranSiswa) {
    && p.data_pelanggaran_id in db.dataPelanggaran
    && BaseMatch(f, p, db.dataPelanggaran[p.data_pelanggaran_id])
    && if g == PerKategori then
         Truthy(f.kelas_id) ==>
           p.siswa_id in db.siswa && db.siswa[p.siswa_id].kelas_id == f.kelas_id.value
       else
         && p.siswa_id in db.siswa
         && db.siswa[p.siswa_id].kelas_id in db.kelas
         && (Truthy(f.kelas_id) ==> db.siswa[p.siswa_id].kelas_id == f.kelas_id.value)
  }

  /** The GROUP BY value of a joined row. */
  datatype GroupKey = KategoriKey(kategori: Kategori) | KelasKey(kelas_id: int)

  function KeyOf(db: Db, g: Grouping, p: PelanggaranSiswa): GroupKey
    requires p.data_pelanggaran_id in db.dataPelanggaran
    requires g == PerKelas ==> p.siswa_id in db.siswa
  {
    if g == PerKategori then KategoriKey(db.dataPelanggaran[p.data_pelanggaran_id].kategori)
    else KelasKey(db.siswa[p.siswa_id].kelas_id)
  }

  predicate InGroup(db: Db, f: DashboardFilter, g: Grouping, key: GroupKey, p: PelanggaranSiswa) {
    Selected(db, f, g, p) && KeyOf(db, g, p) == key
  }

  /** The two aggregates: count(pelanggaran_siswa.id) and sum(data_pelanggaran.poin). */
  datatype Measure = RecordCount | PoinSum

  function Weight(db: Db, m: Measure, p: PelanggaranSiswa): int
    requires p.data_pelanggaran_id in db.dataPelanggaran
  {
    if m == RecordCount then 1 else db.dataPelanggaran[p.data_pelanggaran_id].poin
  }

  /** The violation records, in id order. */
  function Records(db: Db): seq<PelanggaranSiswa> {
    Table(db.pelanggaranSiswa, db.nextPelanggaranSiswaId)
  }

  /** One aggregate over the records of one group. A group without a
      record counts 0 and sums 0. */
  function GroupSum(db: Db, f: DashboardFilter, g: Grouping, m: Measure, key: GroupKey,
                    recs: seq<PelanggaranSiswa>): (r: int)
    ensures m == RecordCount ==> 0 <= r <= |recs|
  {
    if recs == [] then 0
    else
      (if InGroup(db, f, g, key, recs[0]) then Weight(db, m, recs[0]) else 0)
      + GroupSum(db, f, g, m, key, recs[1..])
  }

  /** A group counts 0 exactly when none of the records belongs to it, and
      then its point sum is 0 as well. */
  lemma {:induction false} GroupEmpty(db: Db, f: DashboardFilter, g: Grouping, key: GroupKey,
                                      recs: seq<PelanggaranSiswa>)
    ensures GroupSum(db, f, g, RecordCount, key, recs) == 0
            <==> forall i :: 0 <= i < |recs| ==> !InGroup(db, f, g, key, recs[i])
    ensures GroupSum(db, f, g, RecordCount, key, recs) == 0 ==> GroupSum(db, f, g, PoinSum, key, recs) == 0
  {
    if recs != [] {
      GroupEmpty(db, f, g, key, recs[1..]);
      assert forall i :: 1 <= i < |recs| ==> recs[i] == recs[1..][i - 1];
    }
  }

  /** The aggregate over every selected record, whatever its group. */
  function Total(db: Db, f: DashboardFilter, g: Grouping, m: Measure, recs: seq<PelanggaranSiswa>): int {
    if recs == [] then 0
    else (if Selected(db, f, g, recs[0]) then Weight(db, m, recs[0]) else 0) + Total(db, f, g, m, recs[1..])
  }

  /** The aggregate summed over a list of groups. */
  function KeysSum(db: Db, f: DashboardFilter, g: Grouping, m: Measure, keys: seq<GroupKey>,
                   recs: seq<PelanggaranSiswa>): (r: int)
    ensures recs == [] ==> r == 0
  {
    if keys == [] then 0
    else GroupSum(db, f, g, m, keys[0], recs) + KeysSum(db, f, g, m, keys[1..], recs)
  }

  predicate Distinct<T(==)>(xs: seq<T>) {
    forall i, j :: 0 <= i < j < |xs| ==> xs[i] != xs[j]
  }

  const KategoriKeys: seq<GroupKey> :=
    [KategoriKey(Kelakuan), KategoriKey(KerajinanPembiasaan), KategoriKey(Kerapian)]

  /** Every category has its key in KategoriKeys. */
  lemma KategoriKeysComplete()
    ensures forall k: Kategori :: KategoriKey(k) in KategoriKeys
    ensures Distinct(KategoriKeys)
  {
    forall k: Kategori ensures KategoriKey(k) in KategoriKeys {
      match k
      case Kelakuan => assert KategoriKeys[0] == KategoriKey(k);
      case KerajinanPembiasaan => assert KategoriKeys[1] == KategoriKey(k);
      case Kerapian => assert KategoriKeys[2] == KategoriKey(k);
    }
  }

  /** One key per class of the kelas table, in ascending id order. */
  function ClassKeys(db: Db): (keys: seq<GroupKey>)
    ensures AscendingKelas(keys)
    ensures forall k :: k in keys ==> k.kelas_id in db.kelas
  {
    var ids := KeysBetween(db.kelas, 1, db.nextKelasId);
    seq(|ids|, i requires 0 <= i < |ids| => KelasKey(ids[i]))
  }

  /** When the serial keys hold, every class has its key in ClassKeys. */
  lemma ClassKeysComplete(db: Db)
    requires SerialKeys(db)
    ensures forall id :: id in db.kelas ==> KelasKey(id) in ClassKeys(db)
  {
    var ids := KeysBetween(db.kelas, 1, db.nextKelasId);
    forall id | id in db.kelas ensures KelasKey(id) in ClassKeys(db) {
      var i :| 0 <= i < |ids| && ids[i] == id;
      assert ClassKeys(db)[i] == KelasKey(id);
    }
  }

  function RangkumanTotal(rows: seq<RangkumanPelanggaran>, m: Measure): int {
    if rows == [] then 0
    else (if m == RecordCount then rows[0].total_pelanggaran else rows[0].total_poin)
         + RangkumanTotal(rows[1..], m)
  }

  function PerKelasTotal(rows: seq<PelanggaranPerKelas>, m: Measure): int {
    if rows == [] then 0
    else (if m == RecordCount then rows[0].total_pelanggaran else rows[0].total_poin)
         + PerKelasTotal(rows[1..], m)
  }

  /** The groups of keys that hold at least one record, in keys order: the
      groups an inner-joined GROUP BY yields. */
  function ActiveKeys(db: Db, f: DashboardFilter, g: Grouping, keys: seq<GroupKey>,
                      recs: seq<PelanggaranSiswa>): (a: seq<GroupKey>)
    ensures forall k :: k in a <==> k in keys && GroupSum(db, f, g, RecordCount, k, recs) > 0
    ensures Distinct(keys) ==> Distinct(a)
  {
    if keys == [] then []
    else
      var rest := ActiveKeys(db, f, g, keys[1..], recs);
      if GroupSum(db, f, g, RecordCount, keys[0], recs) > 0 then [keys[0]] + rest else rest
  }

  lemma {:induction false} ActiveKeysAscending(db: Db, f: DashboardFilter, g: Grouping, keys: seq<GroupKey>,
                                               recs: seq<PelanggaranSiswa>)
    requires AscendingKelas(keys)
    ensures AscendingKelas(ActiveKeys(db, f, g, keys, recs))
  {
    if keys != [] {
      var rest := ActiveKeys(db, f, g, keys[1..], recs);
      ActiveKeysAscending(db, f, g, keys[1..], recs);
      if GroupSum(db, f, g, RecordCount, keys[0], recs) > 0 {
        var a := ActiveKeys(db, f, g, keys, recs);
        forall j | 0 <= j < |rest| ensures keys[0].kelas_id < rest[j].kelas_id {
          assert rest[j] in rest;
          var i :| 0 <= i < |keys[1..]| && keys[1..][i] == rest[j];
          assert keys[i + 1] == rest[j];
        }
        forall i, j | 0 <= i < j < |a| ensures a[i].kelas_id < a[j].kelas_id {
          assert a[j] == rest[j - 1];
          if i > 0 { assert a[i] == rest[i - 1]; }
        }
      }
    }
  }

  /** Class keys with strictly ascending ids. */
  predicate AscendingKelas(keys: seq<GroupKey>) {
    && (forall k :: k in keys ==> k.KelasKey?)
    && (forall i, j :: 0 <= i < j < |keys| ==> keys[i].kelas_id < keys[j].kelas_id)
  }

  /** Dropping the groups without records leaves both aggregates' sums unchanged. */
  lemma {:induction false} ActiveKeysSum(db: Db, f: DashboardFilter, g: Grouping, m: Measure,
                                         keys: seq<GroupKey>, recs: seq<PelanggaranSiswa>)
    ensures KeysSum(db, f, g, m, ActiveKeys(db, f, g, keys, recs), recs) == KeysSum(db, f, g, m, keys, recs)
  {
    if keys != [] {
      ActiveKeysSum(db, f, g, m, keys[1..], recs);
      GroupEmpty(db, f, g, keys[0], recs);
      var a := ActiveKeys(db, f, g, keys, recs);
      if GroupSum(db, f, g, RecordCount, keys[0], recs) > 0 {
        assert a[0] == keys[0] && a[1..] == ActiveKeys(db, f, g, keys[1..], recs);
      }
    }
  }

  /** The category row of each key, in keys order. */
  function KategoriRows(db: Db, f: DashboardFilter, keys: seq<GroupKey>, recs: seq<PelanggaranSiswa>)
    : (rows: seq<RangkumanPelanggaran>)
    requires forall k :: k in keys ==> k.KategoriKey?
    ensures |rows| == |keys|
    ensures forall i :: 0 <= i < |keys| ==>
      && rows[i].kategori == keys[i].kategori
      && rows[i].total_pelanggaran == GroupSum(db, f, PerKategori, RecordCount, keys[i], recs)
      && rows[i].total_poin == GroupSum(db, f, PerKategori, PoinSum, keys[i], recs)
    ensures forall m :: RangkumanTotal(rows, m) == KeysSum(db, f, PerKategori, m, keys, recs)
  {
    if keys == [] then []
    else
      var row := RangkumanPelanggaran(keys[0].kategori,
                                      GroupSum(db, f, PerKategori, RecordCount, keys[0], recs),
                                      GroupSum(db, f, PerKategori, PoinSum, keys[0], recs));
      var rest := KategoriRows(db, f, keys[1..], recs);
      assert ([row] + rest)[1..] == rest;
      [row] + rest
  }

  /** The class row of each key, carrying the class's name and rombel, in keys order. */
  function KelasRows(db: Db, f: DashboardFilter, keys: seq<GroupKey>, recs: seq<PelanggaranSiswa>)
    : (rows: seq<PelanggaranPerKelas>)
    requires forall k :: k in keys ==> k.KelasKey? && k.kelas_id in db.kelas
    ensures |rows| == |keys|
    ensures forall i :: 0 <= i < |keys| ==>
      && rows[i].kelas_id == keys[i].kelas_id
      && rows[i].nama_kelas == db.kelas[keys[i].kelas_id].nama_kelas
      && rows[i].rombel == db.kelas[keys[i].kelas_id].rombel
      && rows[i].total_pelanggaran == GroupSum(db, f, PerKelas, RecordCount, keys[i], recs)
      && rows[i].total_poin == GroupSum(db, f, PerKelas, PoinSum, keys[i], recs)
    ensures forall m :: PerKelasTotal(rows, m) == KeysSum(db, f, PerKelas, m, keys, recs)
  {
    if keys == [] then []
    else
      var k := db.kelas[keys[0].kelas_id];
      var row := PelanggaranPerKelas(keys[0].kelas_id, k.nama_kelas, k.rombel,
                                     GroupSum(db, f, PerKelas, RecordCount, keys[0], recs),
                                     GroupSum(db, f, PerKelas, PoinSum, keys[0], recs));
      var rest := KelasRows(db, f, keys[1..], recs);
      assert ([row] + rest)[1..] == rest;
      [row] + rest
  }

  function CategoryRows(db: Db, f: DashboardFilter, recs: seq<PelanggaranSiswa>): seq<RangkumanPelanggaran> {
    KategoriKeysComplete();
    KategoriRows(db, f, ActiveKeys(db, f, PerKategori, KategoriKeys, recs), recs)
  }

  function ClassRows(db: Db, f: DashboardFilter, recs: seq<PelanggaranSiswa>): seq<PelanggaranPerKelas> {
    KelasRows(db, f, ActiveKeys(db, f, PerKelas, ClassKeys(db), recs), recs)
  }

  /** Each category row carries its category's count, at least 1, and point sum. */
  lemma CategoryRowsSound(db: Db, f: DashboardFilter, recs: seq<PelanggaranSiswa>)
    ensures forall row :: row in CategoryRows(db, f, recs) ==>
      && row.total_pelanggaran > 0
      && row.total_pelanggaran == GroupSum(db, f, PerKategori, RecordCount, KategoriKey(row.kategori), recs)
      && row.total_poin == GroupSum(db, f, PerKategori, PoinSum, KategoriKey(row.kategori), recs)
  {
    KategoriKeysComplete();
    var cats := ActiveKeys(db, f, PerKategori, KategoriKeys, recs);
    var rows := CategoryRows(db, f, recs);
    forall row | row in rows
      ensures row.total_pelanggaran > 0
      ensures row.total_pelanggaran == GroupSum(db, f, PerKategori, RecordCount, KategoriKey(row.kategori), recs)
      ensures row.total_poin == GroupSum(db, f, PerKategori, PoinSum, KategoriKey(row.kategori), recs)
    {
      var i :| 0 <= i < |rows| && rows[i] == row;
      assert cats[i] == KategoriKey(row.kategori);
      assert cats[i] in cats;
    }
  }

  /** A category has a row exactly when it has a record. */
  lemma CategoryRowsComplete(db: Db, f: DashboardFilter, recs: seq<PelanggaranSiswa>)
    ensures forall k: Kategori ::
      (exists row :: row in CategoryRows(db, f, recs) && row.kategori == k)
      <==> GroupSum(db, f, PerKategori, RecordCount, KategoriKey(k), recs) > 0
  {
    KategoriKeysComplete();
    CategoryRowsSound(db, f, recs);
    var cats := ActiveKeys(db, f, PerKategori, KategoriKeys, recs);
    var rows := CategoryRows(db, f, recs);
    forall k: Kategori | GroupSum(db, f, PerKategori, RecordCount, KategoriKey(k), recs) > 0
      ensures exists row :: row in rows && row.kategori == k
    {
      var i :| 0 <= i < |cats| && cats[i] == KategoriKey(k);
      assert rows[i] in rows;
    }
  }

  /** No category has two rows. */
  lemma CategoryRowsDistinct(db: Db, f: DashboardFilter, recs: seq<PelanggaranSiswa>)
    ensures var rows := CategoryRows(db, f, recs);
      forall i, j :: 0 <= i < j < |rows| ==> rows[i].kategori != rows[j].kategori
  {
    KategoriKeysComplete();
    var cats := ActiveKeys(db, f, PerKategori, KategoriKeys, recs);
    var rows := CategoryRows(db, f, recs);
    forall i, j | 0 <= i < j < |rows| ensures rows[i].kategori != rows[j].kategori {
      assert cats[i] != cats[j];
    }
  }

  /** Each class row carries an existing class's id, name and rombel, its
      count, at least 1, and its point sum. */
  lemma ClassRowsSound(db: Db, f: DashboardFilter, recs: seq<PelanggaranSiswa>)
    ensures forall row :: row in ClassRows(db, f, recs) ==>
      && row.kelas_id in db.kelas
      && row.nama_kelas == db.kelas[row.kelas_id].nama_kelas
      && row.rombel == db.kelas[row.kelas_id].rombel
      && row.total_pelanggaran > 0
      && row.total_pelanggaran == GroupSum(db, f, PerKelas, RecordCount, KelasKey(row.kelas_id), recs)
      && row.total_poin == GroupSum(db, f, PerKelas, PoinSum, KelasKey(row.kelas_id), recs)
  {
    var classes := ActiveKeys(db, f, PerKelas, ClassKeys(db), recs);
    var rows := ClassRows(db, f, recs);
    forall row | row in rows
      ensures row.kelas_id in db.kelas
      ensures row.total_pelanggaran > 0
      ensures row.total_pelanggaran == GroupSum(db, f, PerKelas, RecordCount, KelasKey(row.kelas_id), recs)
      ensures row.total_poin == GroupSum(db, f, PerKelas, PoinSum, KelasKey(row.kelas_id), recs)
    {
      var i :| 0 <= i < |rows| && rows[i] == row;
      assert classes[i] in classes;
      assert classes[i] == KelasKey(row.kelas_id);
    }
  }

  /** Under the serial keys, every class with a record has a row. */
  lemma ClassRowsComplete(db: Db, f: DashboardFilter, recs: seq<PelanggaranSiswa>)
    ensures SerialKeys(db) ==> forall id ::
      (id in db.kelas && GroupSum(db, f, PerKelas, RecordCount, KelasKey(id), recs) > 0) ==>
      exists row :: row in ClassRows(db, f, recs) && row.kelas_id == id
  {
    if !SerialKeys(db) { return; }
    ClassKeysComplete(db);
    var classes := ActiveKeys(db, f, PerKelas, ClassKeys(db), recs);
    var rows := ClassRows(db, f, recs);
    forall id | id in db.kelas && GroupSum(db, f, PerKelas, RecordCount, KelasKey(id), recs) > 0
      ensures exists row :: row in rows && row.kelas_id == id
    {
      var i :| 0 <= i < |classes| && classes[i] == KelasKey(id);
      assert rows[i] in rows;
    }
  }

  /** Class rows come in ascending id order, so no class has two rows. */
  lemma ClassRowsAscending(db: Db, f: DashboardFilter, recs: seq<PelanggaranSiswa>)
    ensures var rows := ClassRows(db, f, recs);
      forall i, j :: 0 <= i < j < |rows| ==> rows[i].kelas_id < rows[j].kelas_id
  {
    ActiveKeysAscending(db, f, PerKelas, ClassKeys(db), recs);
  }

  /** The summary: the filtered records counted and summed per violation
      category, and again per class of the student, each grouping shaped
      into its list of rows. */
  function GetDashboardSummary(db: Db, f: DashboardFilter): (s: DashboardSummary)
    ensures forall row :: row in s.rangkumanPelanggaran ==>
      && row.total_pelanggaran > 0
      && row.total_pelanggaran == GroupSum(db, f, PerKategori, RecordCount, KategoriKey(row.kategori), Records(db))
      && row.total_poin == GroupSum(db, f, PerKategori, PoinSum, KategoriKey(row.kategori), Records(db))
    ensures forall k: Kategori ::
      (exists row :: row in s.rangkumanPelanggaran && row.kategori == k)
      <==> GroupSum(db, f, PerKategori, RecordCount, KategoriKey(k), Records(db)) > 0
    ensures forall i, j :: 0 <= i < j < |s.rangkumanPelanggaran| ==>
      s.rangkumanPelanggaran[i].kategori != s.rangkumanPelanggaran[j].kategori
    ensures forall row :: row in s.pelanggaranPerKelas ==>
      && row.kelas_id in db.kelas
      && row.nama_kelas == db.kelas[row.kelas_id].nama_kelas
      && row.rombel == db.kelas[row.kelas_id].rombel
      && row.total_pelanggaran > 0
      && row.total_pelanggaran == GroupSum(db, f, PerKelas, RecordCount, KelasKey(row.kelas_id), Records(db))
      && row.total_poin == GroupSum(db, f, PerKelas, PoinSum, KelasKey(row.kelas_id), Records(db))
    ensures Consistent(db) ==> forall id ::
      (id in db.kelas && GroupSum(db, f, PerKelas, RecordCount, KelasKey(id), Records(db)) > 0) ==>
      exists row :: row in s.pelanggaranPerKelas && row.kelas_id == id
    ensures forall i, j :: 0 <= i < j < |s.pelanggaranPerKelas| ==>
      s.pelanggaranPerKelas[i].kelas_id < s.pelanggaranPerKelas[j].kelas_id
  {
    var recs := Records(db);
    CategoryRowsSound(db, f, recs);
    CategoryRowsComplete(db, f, recs);
    CategoryRowsDistinct(db, f, recs);
    ClassRowsSound(db, f, recs);
    ClassRowsComplete(db, f, recs);
    ClassRowsAscending(db, f, recs);
    DashboardSummary(CategoryRows(db, f, recs), ClassRows(db, f, recs))
  }

  /** Adding one record in front adds its weight to exactly the group it
      belongs to, if that group is among the (distinct) keys. */
  lemma {:induction false} KeysSumStep(db: Db, f: DashboardFilter, g: Grouping, m: Measure, keys: seq<GroupKey>,
                                       p: PelanggaranSiswa, rest: seq<PelanggaranSiswa>)
    requires Distinct(keys)
    ensures KeysSum(db, f, g, m, keys, [p] + rest)
            == KeysSum(db, f, g, m, keys, rest)
               + (if Selected(db, f, g, p) && KeyOf(db, g, p) in keys then Weight(db, m, p) else 0)
  {
    if keys != [] {
      KeysSumStep(db, f, g, m, keys[1..], p, rest);
      assert ([p] + rest)[0] == p && ([p] + rest)[1..] == rest;
      assert keys == [keys[0]] + keys[1..];
      assert keys[0] !in keys[1..];
    }
  }

  /** Summing over distinct keys that cover every selected record's group
      gives the aggregate over all selected records. */
  lemma {:induction false} KeysSumCovers(db: Db, f: DashboardFilter, g: Grouping, m: Measure, keys: seq<GroupKey>,
                                         recs: seq<PelanggaranSiswa>)
    requires Distinct(keys)
    requires forall p :: p in recs && Selected(db, f, g, p) ==> KeyOf(db, g, p) in keys
    ensures KeysSum(db, f, g, m, keys, recs) == Total(db, f, g, m, recs)
  {
    if recs != [] {
      assert recs == [recs[0]] + recs[1..];
      KeysSumStep(db, f, g, m, keys, recs[0], recs[1..]);
      KeysSumCovers(db, f, g, m, keys, recs[1..]);
    }
  }

  /** Under the foreign-key invariant the two queries select the same
      records, so their aggregates over all groups agree. */
  lemma {:induction false} GroupingsSelectAlike(db: Db, f: DashboardFilter, m: Measure, recs: seq<PelanggaranSiswa>)
    requires forall p :: p in recs ==> p.siswa_id in db.siswa && db.siswa[p.siswa_id].kelas_id in db.kelas
    ensures Total(db, f, PerKategori, m, recs) == Total(db, f, PerKelas, m, recs)
  {
    if recs != [] {
      var p := recs[0];
      assert p in recs;
      assert Selected(db, f, PerKategori, p) == Selected(db, f, PerKelas, p);
      GroupingsSelectAlike(db, f, m, recs[1..]);
    }
  }

  /** The class rows add up to the aggregate over every selected record. */
  lemma ClassRowsTotal(db: Db, f: DashboardFilter, m: Measure, recs: seq<PelanggaranSiswa>)
    requires SerialKeys(db)
    ensures PerKelasTotal(ClassRows(db, f, recs), m) == Total(db, f, PerKelas, m, recs)
  {
    var keys := ClassKeys(db);
    ClassKeysComplete(db);
    ActiveKeysSum(db, f, PerKelas, m, keys, recs);
    assert Distinct(keys);
    KeysSumCovers(db, f, PerKelas, m, keys, recs);
  }

  /** The category rows add up to the aggregate over every selected record. */
  lemma CategoryRowsTotal(db: Db, f: DashboardFilter, m: Measure, recs: seq<PelanggaranSiswa>)
    ensures RangkumanTotal(CategoryRows(db, f, recs), m) == Total(db, f, PerKategori, m, recs)
  {
    KategoriKeysComplete();
    ActiveKeysSum(db, f, PerKategori, m, KategoriKeys, recs);
    KeysSumCovers(db, f, PerKategori, m, KategoriKeys, recs);
  }

  /** In a consistent database the category rows and the class rows agree
      on the total number of violations and on the total points, whatever
      the filter. */
  lemma DashboardTotalsAgree(db: Db, f: DashboardFilter)
    requires Consistent(db)
    ensures var s := GetDashboardSummary(db, f);
      && RangkumanTotal(s.rangkumanPelanggaran, RecordCount) == PerKelasTotal(s.pelanggaranPerKelas, RecordCount)
      && RangkumanTotal(s.rangkumanPelanggaran, PoinSum) == PerKelasTotal(s.pelanggaranPerKelas, PoinSum)
  {
    var recs := Records(db);
    forall p | p in recs ensures p.siswa_id in db.siswa && db.siswa[p.siswa_id].kelas_id in db.kelas {
      var k :| k in db.pelanggaranSiswa && db.pelanggaranSiswa[k] == p;
      assert SiswaReferencesKelas(db) && PelanggaranReferences(db);
    }
    forall m: Measure
      ensures RangkumanTotal(CategoryRows(db, f, recs), m) == PerKelasTotal(ClassRows(db, f, recs), m)
    {
      CategoryRowsTotal(db, f, m, recs);
      ClassRowsTotal(db, f, m, recs);
      GroupingsSelectAlike(db, f, m, recs);
    }
  }

  /** When no record passes either query, both lists are empty. */
  lemma NothingSelectedEmpty(db: Db, f: DashboardFilter)
    requires forall p, g :: p in Records(db) ==> !Selected(db, f, g, p)
    ensures GetDashboardSummary(db, f) == DashboardSummary([], [])
  {
    var recs := Records(db);
    forall key, g ensures GroupSum(db, f, g, RecordCount, key, recs) == 0 {
      GroupEmpty(db, f, g, key, recs);
      assert forall i :: 0 <= i < |recs| ==> recs[i] in recs;
    }
    KategoriKeysComplete();
    NoActiveKeys(db, f, PerKategori, KategoriKeys, recs);
    NoActiveKeys(db, f, PerKelas, ClassKeys(db), recs);
    assert GetDashboardSummary(db, f) == DashboardSummary(CategoryRows(db, f, recs), ClassRows(db, f, recs));
  }

  /** Keys whose groups are all empty leave no active key. */
  lemma {:induction false} NoActiveKeys(db: Db, f: DashboardFilter, g: Grouping, keys: seq<GroupKey>,
                                        recs: seq<PelanggaranSiswa>)
    requires forall k :: k in keys ==> GroupSum(db, f, g, RecordCount, k, recs) == 0
    ensures ActiveKeys(db, f, g, keys, recs) == []
  {
    if keys != [] {
      assert keys[0] in keys;
      NoActiveKeys(db, f, g, keys[1..], recs);
    }
  }

  /** With no violation records at all, both lists are empty. */
  lemma NoRecordsEmpty(db: Db, f: DashboardFilter)
    requires db.pelanggaranSiswa == map[]
    ensures GetDashboardSummary(db, f) == DashboardSummary([], [])
  {
    TableComplete(db.pelanggaranSiswa, db.nextPelanggaranSiswaId);
    NothingSelectedEmpty(db, f);
  }

  /** A start day after the end day selects nothing: both bounds apply
      together. */
  lemma EmptyDateRangeEmpty(db: Db, f: DashboardFilter)
    requires f.tanggal_awal.Some? && f.tanggal_akhir.Some?
    requires f.tanggal_awal.value > f.tanggal_akhir.value
    ensures GetDashboardSummary(db, f) == DashboardSummary([], [])
  {
    NothingSelectedEmpty(db, f);
  }

  /** Every category row is backed by a record of that category that
      passes the whole filter, its day within both bounds included. */
  lemma CategoryRowHasRecord(db: Db, f: DashboardFilter, row: RangkumanPelanggaran)
    requires row in GetDashboardSummary(db, f).rangkumanPelanggaran
    ensures exists p ::
      && p in db.pelanggaranSiswa.Values
      && p.data_pelanggaran_id in db.dataPelanggaran
      && db.dataPelanggaran[p.data_pelanggaran_id].kategori == row.kategori
      && (f.tanggal_awal.Some? ==> f.tanggal_awal.value <= p.tanggal)
      && (f.tanggal_akhir.Some? ==> p.tanggal <= f.tanggal_akhir.value)
      && (Truthy(f.guru_id) ==> p.guru_id == f.guru_id.value)
      && (Truthy(f.kelas_id) ==> p.siswa_id in db.siswa && db.siswa[p.siswa_id].kelas_id == f.kelas_id.value)
  {
    var recs := Records(db);
    GroupEmpty(db, f, PerKategori, KategoriKey(row.kategori), recs);
    var i :| 0 <= i < |recs| && InGroup(db, f, PerKategori, KategoriKey(row.kategori), recs[i]);
    assert recs[i] in recs;
  }

  /** A record that passes the filter, where the kelas filter applies to
      its student, given it joins. */
  predicate PassesFilter(db: Db, f: DashboardFilter, p: PelanggaranSiswa) {
    && p.data_pelanggaran_id in db.dataPelanggaran
    && p.siswa_id in db.siswa
    && BaseMatch(f, p, db.dataPelanggaran[p.data_pelanggaran_id])
    && (Truthy(f.kelas_id) ==> db.siswa[p.siswa_id].kelas_id == f.kelas_id.value)
  }

  /** In a consistent database, a record that passes the filter, both day
      bounds inclusive, is counted in the row of its category. */
  lemma MatchingRecordInCategoryRow(db: Db, f: DashboardFilter, id: int)
    requires Consistent(db) && id in db.pelanggaranSiswa
    requires PassesFilter(db, f, db.pelanggaranSiswa[id])
    ensures exists row ::
      && row in GetDashboardSummary(db, f).rangkumanPelanggaran
      && row.kategori == db.dataPelanggaran[db.pelanggaranSiswa[id].data_pelanggaran_id].kategori
  {
    var p := db.pelanggaranSiswa[id];
    var recs := Records(db);
    TableComplete(db.pelanggaranSiswa, db.nextPelanggaranSiswaId);
    var k := db.dataPelanggaran[p.data_pelanggaran_id].kategori;
    assert InGroup(db, f, PerKategori, KategoriKey(k), p);
    CategoryRowOf(db, f, recs, p, k);
    assert GetDashboardSummary(db, f).rangkumanPelanggaran == CategoryRows(db, f, recs);
  }

  /** A listed record of a category makes that category a row. */
  lemma CategoryRowOf(db: Db, f: DashboardFilter, recs: seq<PelanggaranSiswa>, p: PelanggaranSiswa, k: Kategori)
    requires p in recs && InGroup(db, f, PerKategori, KategoriKey(k), p)
    ensures exists row :: row in CategoryRows(db, f, recs) && row.kategori == k
  {
    var i :| 0 <= i < |recs| && recs[i] == p;
    RecordMakesGroup(db, f, PerKategori, KategoriKey(k), recs, i);
    CategoryRowsComplete(db, f, recs);
  }

  /** In a consistent database, a record that passes the filter is counted
      in the row of its student's class. */
  lemma MatchingRecordInClassRow(db: Db, f: DashboardFilter, id: int)
    requires Consistent(db) && id in db.pelanggaranSiswa
    requires PassesFilter(db, f, db.pelanggaranSiswa[id])
    ensures exists row ::
      && row in GetDashboardSummary(db, f).pelanggaranPerKelas
      && row.kelas_id == db.siswa[db.pelanggaranSiswa[id].siswa_id].kelas_id
  {
    var p := db.pelanggaranSiswa[id];
    var recs := Records(db);
    TableComplete(db.pelanggaranSiswa, db.nextPelanggaranSiswaId);
    assert SiswaReferencesKelas(db);
    var kelasId := db.siswa[p.siswa_id].kelas_id;
    assert InGroup(db, f, PerKelas, KelasKey(kelasId), p);
    ClassRowOf(db, f, recs, p, kelasId);
    assert GetDashboardSummary(db, f).pelanggaranPerKelas == ClassRows(db, f, recs);
  }

  /** Under the serial keys, a listed record of a stored class makes that
      class a row. */
  lemma ClassRowOf(db: Db, f: DashboardFilter, recs: seq<PelanggaranSiswa>, p: PelanggaranSiswa, kelasId: int)
    requires SerialKeys(db) && kelasId in db.kelas
    requires p in recs && InGroup(db, f, PerKelas, KelasKey(kelasId), p)
    ensures exists row :: row in ClassRows(db, f, recs) && row.kelas_id == kelasId
  {
    var i :| 0 <= i < |recs| && recs[i] == p;
    RecordMakesGroup(db, f, PerKelas, KelasKey(kelasId), recs, i);
    ClassRowsComplete(db, f, recs);
  }

  /** A group holding one of the records counts at least 1. */
  lemma RecordMakesGroup(db: Db, f: DashboardFilter, g: Grouping, key: GroupKey,
                         recs: seq<PelanggaranSiswa>, i: int)
    requires 0 <= i < |recs| && InGroup(db, f, g, key, recs[i])
    ensures GroupSum(db, f, g, RecordCount, key, recs) > 0
  {
    GroupEmpty(db, f, g, key, recs);
  }

  /** Two filters that the handler treats alike: same days and category,
      and guru_id and kelas_id alike in truthiness and, when truthy, in
      value. */
  predicate AlikeFilters(f1: DashboardFilter, f2: DashboardFilter) {
    && f1.tanggal_awal == f2.tanggal_awal
    && f1.tanggal_akhir == f2.tanggal_akhir
    && f1.kategori == f2.kategori
    && Truthy(f1.guru_id) == Truthy(f2.guru_id)
    && (Truthy(f1.guru_id) ==> f1.guru_id == f2.guru_id)
    && Truthy(f1.kelas_id) == Truthy(f2.kelas_id)
    && (Truthy(f1.kelas_id) ==> f1.kelas_id == f2.kelas_id)
  }

  lemma {:induction false} GroupSumAlike(db: Db, f1: DashboardFilter, f2: DashboardFilter, g: Grouping,
                                         m: Measure, key: GroupKey, recs: seq<PelanggaranSiswa>)
    requires AlikeFilters(f1, f2)
    ensures GroupSum(db, f1, g, m, key, recs) == GroupSum(db, f2, g, m, key, recs)
  {
    if recs != [] {
      GroupSumAlike(db, f1, f2, g, m, key, recs[1..]);
      assert Selected(db, f1, g, recs[0]) == Selected(db, f2, g, recs[0]);
    }
  }

  lemma {:induction false} ActiveKeysAlike(db: Db, f1: DashboardFilter, f2: DashboardFilter, g: Grouping,
                                           keys: seq<GroupKey>, recs: seq<PelanggaranSiswa>)
    requires AlikeFilters(f1, f2)
    ensures ActiveKeys(db, f1, g, keys, recs) == ActiveKeys(db, f2, g, keys, recs)
  {
    if keys != [] {
      ActiveKeysAlike(db, f1, f2, g, keys[1..], recs);
      GroupSumAlike(db, f1, f2, g, RecordCount, keys[0], recs);
    }
  }

  lemma {:induction false} RowsAlike(db: Db, f1: DashboardFilter, f2: DashboardFilter,
                                     cats: seq<GroupKey>, classes: seq<GroupKey>, recs: seq<PelanggaranSiswa>)
    requires AlikeFilters(f1, f2)
    requires forall k :: k in cats ==> k.KategoriKey?
    requires forall k :: k in classes ==> k.KelasKey? && k.kelas_id in db.kelas
    ensures KategoriRows(db, f1, cats, recs) == KategoriRows(db, f2, cats, recs)
    ensures KelasRows(db, f1, classes, recs) == KelasRows(db, f2, classes, recs)
  {
    var n := if |cats| < |classes| then |classes| else |cats|;
    if cats != [] || classes != [] {
      RowsAlike(db, f1, f2, if cats == [] then [] else cats[1..], if classes == [] then [] else classes[1..], recs);
      forall m ensures (cats != [] ==> GroupSum(db, f1, PerKategori, m, cats[0], recs)
                                       == GroupSum(db, f2, PerKategori, m, cats[0], recs))
                    && (classes != [] ==> GroupSum(db, f1, PerKelas, m, classes[0], recs)
                                          == GroupSum(db, f2, PerKelas, m, classes[0], recs)) {
        if cats != [] { GroupSumAlike(db, f1, f2, PerKategori, m, cats[0], recs); }
        if classes != [] { GroupSumAlike(db, f1, f2, PerKelas, m, classes[0], recs); }
      }
    }
  }

  /** The summary depends on the filter only through what the handler
      makes of it. */
  lemma SummaryAlike(db: Db, f1: DashboardFilter, f2: DashboardFilter)
    requires AlikeFilters(f1, f2)
    ensures GetDashboardSummary(db, f1) == GetDashboardSummary(db, f2)
  {
    var recs := Records(db);
    KategoriKeysComplete();
    ActiveKeysAlike(db, f1, f2, PerKategori, KategoriKeys, recs);
    ActiveKeysAlike(db, f1, f2, PerKelas, ClassKeys(db), recs);
    RowsAlike(db, f1, f2, ActiveKeys(db, f1, PerKategori, KategoriKeys, recs),
              ActiveKeys(db, f1, PerKelas, ClassKeys(db), recs), recs);
  }

  /** A guru_id or kelas_id of 0 is falsy, so it filters exactly as if it
      were absent. */
  lemma ZeroIdIsNoFilter(db: Db, f: DashboardFilter)
    ensures f.guru_id == Some(0) ==>
      GetDashboardSummary(db, f) == GetDashboardSummary(db, f.(guru_id := None))
    ensures f.kelas_id == Some(0) ==>
      GetDashboardSummary(db, f) == GetDashboardSummary(db, f.(kelas_id := None))
  {
    if f.guru_id == Some(0) { SummaryAlike(db, f, f.(guru_id := None)); }
    if f.kelas_id == Some(0) { SummaryAlike(db, f, f.(kelas_id := None)); }
  }

  /** How many records of one violation type a group holds. */
  function TypeCount(db: Db, f: DashboardFilter, g: Grouping, key: GroupKey, typeId: int,
                     recs: seq<PelanggaranSiswa>): nat
  {
    if recs == [] then 0
    else (if InGroup(db, f, g, key, recs[0]) && recs[0].data_pelanggaran_id == typeId then 1 else 0)
         + TypeCount(db, f, g, key, typeId, recs[1..])
  }

  /** The summary reads poin when it runs: replacing a violation type by
      one of the same category but other poin leaves every count as it was
      and moves every point sum by the change times the number of that
      type's records in the group. */
  lemma {:induction false} PoinChangeShiftsSums(db: Db, f: DashboardFilter, g: Grouping, key: GroupKey,
                                                typeId: int, newType: DataPelanggaran,
                                                recs: seq<PelanggaranSiswa>)
    requires typeId in db.dataPelanggaran
    requires newType.kategori == db.dataPelanggaran[typeId].kategori
    ensures var db2 := db.(dataPelanggaran := db.dataPelanggaran[typeId := newType]);
      && GroupSum(db2, f, g, RecordCount, key, recs) == GroupSum(db, f, g, RecordCount, key, recs)
      && GroupSum(db2, f, g, PoinSum, key, recs)
         == GroupSum(db, f, g, PoinSum, key, recs)
            + (newType.poin - db.dataPelanggaran[typeId].poin) * TypeCount(db, f, g, key, typeId, recs)
  {
    var db2 := db.(dataPelanggaran := db.dataPelanggaran[typeId := newType]);
    if recs != [] {
      PoinChangeShiftsSums(db, f, g, key, typeId, newType, recs[1..]);
      var p := recs[0];
      assert InGroup(db2, f, g, key, p) == InGroup(db, f, g, key, p);
      var d := newType.poin - db.dataPelanggaran[typeId].poin;
      var t := TypeCount(db, f, g, key, typeId, recs[1..]);
      assert d * (1 + t) == d + d * t;
    }
  }

  /** With every violation type worth at least one point, no group has
      fewer points than records. */
  lemma {:induction false} PoinAtLeastCount(db: Db, f: DashboardFilter, g: Grouping, key: GroupKey,
                                            recs: seq<PelanggaranSiswa>)
    requires forall t :: t in db.dataPelanggaran ==> db.dataPelanggaran[t].poin >= 1
    ensures GroupSum(db, f, g, PoinSum, key, recs) >= GroupSum(db, f, g, RecordCount, key, recs)
  {
    if recs != [] {
      PoinAtLeastCount(db, f, g, key, recs[1..]);
    }
  }

  /** With every violation type worth at least one point, every row of
      the summary has at least as many points as violations. */
  lemma RowsPoinAtLeastCount(db: Db, f: DashboardFilter)
    requires forall t :: t in db.dataPelanggaran ==> db.dataPelanggaran[t].poin >= 1
    ensures forall row :: row in GetDashboardSummary(db, f).rangkumanPelanggaran ==>
      row.total_poin >= row.total_pelanggaran
    ensures forall row :: row in GetDashboardSummary(db, f).pelanggaranPerKelas ==>
      row.total_poin >= row.total_pelanggaran
  {
    forall key, g ensures GroupSum(db, f, g, PoinSum, key, Records(db)) >= GroupSum(db, f, g, RecordCount, key, Records(db)) {
      PoinAtLeastCount(db, f, g, key, Records(db));
    }
  }
}
