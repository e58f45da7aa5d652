/** The closed enumerations of the schema (user_role, rombel,
    kategori_pelanggaran) and their names on the wire. */
module Enums {
  import opened Wrappers

  datatype Role = Administrator | GuruRole
  datatype Rombel = Rombel7 | Rombel8 | Rombel9
  datatype Kategori = Kelakuan | KerajinanPembiasaan | Kerapian

  /** Every category, in declaration order. */
  const AllKategori: seq<Kategori> := [Kelakuan, KerajinanPembiasaan, Kerapian]

  function RoleName(r: Role): string {
    match r
    case Administrator => "administrator"
    case GuruRole => "guru"
  }

  function RombelName(r: Rombel): string {
    match r
    case Rombel7 => "7"
    case Rombel8 => "8"
    case Rombel9 => "9"
  }

  function KategoriName(k: Kategori): string {
    match k
    case Kelakuan => "Kelakuan"
    case KerajinanPembiasaan => "Kerajinan & Pembiasaan"
    case Kerapian => "Kerapian"
  }

  /** z.enum parsing: only the listed names are accepted. */
  function ParseRole(s: string): (r: Option<Role>)
    ensures r.Some? <==> s in {"administrator", "guru"}
    ensures r.Some? ==> RoleName(r.value) == s
  {
    if s == "administrator" then Some(Administrator)
    else if s == "guru" then Some(GuruRole)
    else None
  }

  function ParseRombel(s: string): (r: Option<Rombel>)
    ensures r.Some? <==> s in {"7", "8", "9"}
    ensures r.Some? ==> RombelName(r.value) == s
  {
    if s == "7" then Some(Rombel7)
    else if s == "8" then Some(Rombel8)
    else if s == "9" then Some(Rombel9)
    else None
  }

  function ParseKategori(s: string): (r: Option<Kategori>)
    ensures r.Some? <==> s in {"Kelakuan", "Kerajinan & Pembiasaan", "Kerapian"}
    ensures r.Some? ==> KategoriName(r.value) == s
  {
    if s == "Kelakuan" then Some(Kelakuan)
    else if s == "Kerajinan & Pembiasaan" then Some(KerajinanPembiasaan)
    else if s == "Kerapian" then Some(Kerapian)
    else None
  }

  /** Each enumeration is closed: every value has a distinct name and
      parses back from it, so there are exactly 2, 3 and 3 values. */
  lemma NamesRoundTrip(role: Role, rombel: Rombel, k: Kategori)
    ensures ParseRole(RoleName(role)) == Some(role)
    ensures ParseRombel(RombelName(rombel)) == Some(rombel)
    ensures ParseKategori(KategoriName(k)) == Some(k)
    ensures k in AllKategori
  {
  }
}
