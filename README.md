# Pelanggaran siswa: a verified model of the server core

The system is a school's student-violation register. Teachers record
violations (`pelanggaran_siswa`) against students (`siswa`), who sit in
classes (`kelas`). Each record names a violation type (`data_pelanggaran`,
with a category and a point weight) and the teacher (`guru`) who reported
it. A dashboard sums the records per category and per class. A student
search finds students by name or NISN. A single settings row holds the
school's details.

This project models the server side of that system:

- `schema.dfy` (module `Schema`): the seven tables as row datatypes and a
  database snapshot `Db`. Each table is a map from primary key to row, with
  its serial counter. `Consistent` is the schema's invariant: ids equal
  keys, keys come from the serial counters, usernames are unique, the
  varchar columns fit, and every foreign key resolves.
- `enums.dfy`, `wrappers.dfy`: the closed enumerations (role, rombel,
  kategori), and the Option, Result and three-state `Patch` wrappers.
- `inputs.dfy` (module `Inputs`): the validated input objects of the
  router and their validity rules.
- `listing.dfy`, `queries.dfy`: the list handlers as functions of a
  snapshot. Rows come back in ascending key order, which is insertion
  order.
- `cascade.dfy` (module `Cascade`): deletion with the schema's ON DELETE
  CASCADE rules, as functions on snapshots.
- `text.dfy`, `search.dfy`: trimming, ASCII case folding, substring
  matching and name order, and `searchSiswa`.
- `dashboard.dfy` (module `Dashboard`): `getDashboardSummary`, its filter,
  and the two groupings.
- `store.dfy` (module `Store`): the class `Store`, whose fields are the
  tables. Each mutating handler is a method on it. Every method keeps
  `Valid()`: its `Snapshot()` is `Consistent` (the schema's keys and
  constraints) and `ValidatedRows` (every stored nomor and poin positive). Each method
  states the whole new snapshot in terms of the old one. On every error
  path the snapshot is unchanged.

The clock is a parameter (`now`) of every method that writes a timestamp.
A `date` column is a `Day`, an integer standing for a calendar day.

## Model

| member | source | states |
|---|---|---|
| Enums.ParseRole | server/src/db/schema.ts:6 | a role string parses iff it is `administrator` or `guru`, and it parses to the role that prints as that string |
| Enums.ParseRombel | server/src/db/schema.ts:7 | rombel is exactly one of `7`, `8`, `9` |
| Enums.ParseKategori | server/src/db/schema.ts:8 | kategori is exactly one of the three category names |
| Enums.NamesRoundTrip | server/src/db/schema.ts:6-8 | every enum value prints to a name that parses back to it; every category is in the closed list of three |
| Schema.FitVarchar | server/src/db/schema.ts:37-47 | storing into varchar(n) succeeds iff every character beyond n is a space; a short string is stored unchanged and a longer one as exactly its first n characters |
| Schema.EmptyDbConsistent | server/src/db/schema.ts:11-86 | the empty database satisfies every schema constraint |
| Schema.SeveralSettingsRowsAllowed | server/src/db/schema.ts:76-86 | nothing makes the settings table a singleton: two settings rows are a consistent state |
| Inputs.Utf16Length | server/src/schema.ts:22-23 | the JavaScript length of a string lies between its number of characters and twice that, and equals it when no character lies beyond U+FFFF |
| Inputs.AstralCharCountsTwice | server/src/schema.ts:22 | an emoji followed by one letter is two characters but three UTF-16 units, so it meets the minimum username length |
| Inputs.ValidateCreateUser | server/src/schema.ts:21-27 | a create-user input is accepted iff username has at least 3 and password at least 6 UTF-16 units; fields are copied, and is_active is true unless false was given |
| Inputs.UpdatesNeedOnlyId | server/src/schema.ts:31-38 | every update input with only its id given is valid |
| Inputs.NonPositiveNomorRefused | server/src/schema.ts:57-61 | a nomor of 0 or less makes the kelas, guru and siswa inputs invalid |
| Inputs.NonPositivePoinRefused | server/src/schema.ts:150-163 | poin of 0 or less is refused on create, and on update when given; an update without poin is not refused for it |
| Listing.TableComplete | server/src/handlers/get_kelas.ts:8-10 | when every key came from the serial counter, the listing holds every row of the table once |
| Listing.TableAppend | server/src/handlers/create_kelas.ts:9-16 | a row stored under the counter's next key is appended at the end of the listing |
| Listing.TableReplace | server/src/handlers/update_kelas.ts:38-42 | overwriting a present row keeps the listing's length and order, with the new row at the old row's place |
| Queries.GetKelas | server/src/handlers/get_kelas.ts:8-12 | every row returned is a stored kelas; an empty table gives []; under the invariant every kelas is returned once, in ascending id order |
| Queries.GetGuru | server/src/handlers/get_guru.ts:8-12 | the same for guru |
| Queries.GetSiswa | server/src/handlers/get_siswa.ts:8-12 | the same for siswa |
| Queries.GetDataPelanggaran | server/src/handlers/get_data_pelanggaran.ts:9-14 | the same for violation types, whose poin come back as stored |
| Queries.GetPelanggaranSiswa | server/src/handlers/get_pelanggaran_siswa.ts:9-26 | a record is returned iff it is stored and its siswa, violation type, guru and the siswa's kelas all exist; an empty table gives [] |
| Queries.StoredRecordJoins | server/src/handlers/get_pelanggaran_siswa.ts:9-15 | under the foreign-key invariant every stored record finds its siswa, kelas, violation type and guru in the joins |
| Queries.GetPelanggaranSiswaAll | server/src/handlers/get_pelanggaran_siswa.ts:9-15 | under the foreign-key invariant every record is returned, once, in id order |
| Queries.GetPengaturanInstansi | server/src/handlers/get_pengaturan_instansi.ts:9-15 | null iff the table is empty (under the invariant); otherwise a stored row whose id is the least |
| Queries.CreatedRowListedLast | server/src/handlers/create_kelas.ts:9-16 | after a create of a kelas, guru, siswa or violation type, its list handler returns the old list followed by the new row |
| Queries.UpdatedKelasKeepsPlace | server/src/handlers/update_kelas.ts:38-42 | after an update, getKelas returns as many rows as before, with the updated row in the old row's place and the others unchanged |
| Queries.UpdatedGuruKeepsPlace | server/src/handlers/update_guru.ts:35-39 | the same for getGuru |
| Queries.UpdatedSiswaKeepsPlace | server/src/handlers/update_siswa.ts:38-42 | the same for getSiswa |
| Queries.UpdatedDataPelanggaranKeepsPlace | server/src/handlers/update_data_pelanggaran.ts:37-41 | the same for getDataPelanggaran |
| Cascade.DeleteUser | server/src/handlers/delete_user.ts:8-10 | the user is gone, the other users remain, no other table changes, and the invariant is kept |
| Cascade.DeletePelanggaranSiswa | server/src/handlers/delete_pelanggaran_siswa.ts:8-10 | the record is gone, the other records remain, no other table changes, and the invariant is kept |
| Cascade.DeleteSiswa | server/src/db/schema.ts:67 | the siswa is gone, the others remain, a record is kept iff it does not name that siswa, and the invariant is kept |
| Cascade.DeleteGuru | server/src/db/schema.ts:69 | the guru is gone, the others remain, a record is kept iff it does not name that guru, and the invariant is kept |
| Cascade.DeleteDataPelanggaran | server/src/db/schema.ts:68 | the type is gone, the others remain, a record is kept iff it is not of that type, and the invariant is kept |
| Cascade.DeleteKelas | server/src/db/schema.ts:48-67 | the kelas is gone, a siswa is kept iff it is not in it, a record is kept iff its student was not in it, and the invariant is kept |
| Cascade.DeleteKelasTransitive | server/src/db/schema.ts:48-67 | after deleting a kelas, no siswa is in it and no record belongs to a student of it |
| Cascade.DeleteUserAbsent | server/src/handlers/delete_user.ts:8-10 | deleting an absent user changes nothing |
| Cascade.DeletePelanggaranSiswaAbsent | server/src/handlers/delete_pelanggaran_siswa.ts:8-10 | deleting an absent record changes nothing |
| Cascade.DeleteSiswaAbsent | server/src/handlers/delete_siswa.ts:8-10 | on a consistent database, deleting an absent siswa changes nothing, not even through the cascade |
| Cascade.DeleteGuruAbsent | server/src/handlers/delete_guru.ts:8-10 | the same for guru |
| Cascade.DeleteDataPelanggaranAbsent | server/src/handlers/delete_data_pelanggaran.ts:9-11 | the same for violation types |
| Cascade.DeleteKelasAbsent | server/src/handlers/delete_kelas.ts:8-10 | the same for kelas |
| Cascade.DeleteIdempotent | server/src/handlers/delete_kelas.ts:8-10 | each of the six deletes, applied twice, gives what one application gives |
| Text.SkipStart | server/src/handlers/search_siswa.ts:13 | the leading whitespace skipped is whitespace, and it stops at the first other character |
| Text.SkipEnd | server/src/handlers/search_siswa.ts:13 | the same for trailing whitespace |
| Text.Trim | server/src/handlers/search_siswa.ts:13 | the result is the input with only whitespace cut from both ends, and neither end of it is whitespace |
| Text.TrimEmpty | server/src/handlers/search_siswa.ts:9 | trimming gives the empty string iff the query is all whitespace |
| Text.LowerChar | server/src/handlers/search_siswa.ts:29-30 | a capital ASCII letter maps to its own small letter, 32 code points above it, and every other character to itself |
| Text.LowerCharAlike | server/src/handlers/search_siswa.ts:29-30 | two characters fold alike iff they are equal or the same letter in the other case |
| Text.Lower | server/src/handlers/search_siswa.ts:29-30 | case folding keeps the length and leaves no capital letter |
| Text.LowerIdempotent | server/src/handlers/search_siswa.ts:29-30 | folding twice is folding once |
| Text.LowerAlike | server/src/handlers/search_siswa.ts:29-30 | two strings fold alike iff they have the same length and differ only in the case of their letters |
| Text.ContainsIffOccurs | server/src/handlers/search_siswa.ts:13-30 | `%q%` matches iff q occurs at some position of the field |
| Text.ContainsAnywhere | server/src/handlers/search_siswa.ts:13 | a needle is found wherever it sits, not only as a prefix |
| Text.NameLeTotal | server/src/handlers/search_siswa.ts:33 | the name order is total |
| Text.NameLeTransitive | server/src/handlers/search_siswa.ts:33 | the name order is transitive |
| Text.NameLeAntisymmetric | server/src/handlers/search_siswa.ts:33 | the name order is antisymmetric |
| Search.Candidates | server/src/handlers/search_siswa.ts:25-32 | a student is a candidate iff it is in the input, its kelas exists, and its name or NISN contains the query ignoring case |
| Search.InsertByName | server/src/handlers/search_siswa.ts:33 | inserting into a name-sorted list keeps it sorted and adds exactly that student |
| Search.SortByName | server/src/handlers/search_siswa.ts:33 | the result is sorted by name and is a permutation of the input |
| Search.SearchSiswa | server/src/handlers/search_siswa.ts:9-34 | an empty or all-whitespace query gives []; every result is a stored student with an existing kelas whose name or NISN contains the trimmed query ignoring case; results are sorted by name; they are exactly the matching students of getSiswa, counted with multiplicity |
| Search.SearchComplete | server/src/handlers/search_siswa.ts:26-32 | under the invariant, every student whose name or NISN contains the non-empty trimmed query is returned |
| Search.CandidatesIgnoreCase | server/src/handlers/search_siswa.ts:29-30 | queries that agree after case folding select the same candidates |
| Search.SearchIgnoresCase | server/src/handlers/search_siswa.ts:13-30 | queries whose trimmed, folded forms agree give the same result |
| Search.SearchFindsInfix | server/src/handlers/search_siswa.ts:13-30 | a student whose name holds the query in its middle is found |
| Dashboard.GroupSum | server/src/handlers/get_dashboard_summary.ts:43-44 | a group's record count lies between 0 and the number of records |
| Dashboard.GroupEmpty | server/src/handlers/get_dashboard_summary.ts:43-44 | a group sum is zero when no record falls in the group |
| Dashboard.KategoriKeysComplete | server/src/handlers/get_dashboard_summary.ts:50 | every record's category is one of the category keys |
| Dashboard.ClassKeys | server/src/handlers/get_dashboard_summary.ts:112 | the class keys name stored classes, in ascending id order |
| Dashboard.ClassKeysComplete | server/src/handlers/get_dashboard_summary.ts:112 | every stored class is one of the class keys |
| Dashboard.ActiveKeys | server/src/handlers/get_dashboard_summary.ts:50-112 | a key is kept iff its group has at least one record, with no key repeated |
| Dashboard.ActiveKeysAscending | server/src/handlers/get_dashboard_summary.ts:112 | dropping empty groups keeps the class keys ascending |
| Dashboard.ActiveKeysSum | server/src/handlers/get_dashboard_summary.ts:131-143 | dropping empty groups does not change the total |
| Dashboard.KategoriRows | server/src/handlers/get_dashboard_summary.ts:131-135 | each category row carries its key's count and poin sum, and the rows' total equals the keys' total |
| Dashboard.KelasRows | server/src/handlers/get_dashboard_summary.ts:137-143 | each class row carries the class's id, name and rombel and its count and poin sum, and the rows' total equals the keys' total |
| Dashboard.CategoryRowsSound | server/src/handlers/get_dashboard_summary.ts:67-76 | every category row has at least one record, and its totals are the count and poin sum of the filtered records of that category |
| Dashboard.CategoryRowsComplete | server/src/handlers/get_dashboard_summary.ts:67-76 | every category with a filtered record has a row |
| Dashboard.CategoryRowsDistinct | server/src/handlers/get_dashboard_summary.ts:75 | no category has two rows |
| Dashboard.ClassRowsSound | server/src/handlers/get_dashboard_summary.ts:100-113 | every class row names a stored class with its nama_kelas and rombel, has at least one record, and carries that class's count and poin sum |
| Dashboard.ClassRowsComplete | server/src/handlers/get_dashboard_summary.ts:100-113 | when keys come from the counters, every class with a filtered record has a row |
| Dashboard.ClassRowsAscending | server/src/handlers/get_dashboard_summary.ts:112 | class rows are in strictly ascending kelas id order |
| Dashboard.GetDashboardSummary | server/src/handlers/get_dashboard_summary.ts:11-147 | the filter and both groupings: sound rows, a category row iff it has records, distinct categories, class rows with the stored class data, completeness under the invariant, ascending class ids |
| Dashboard.KeysSumStep | server/src/handlers/get_dashboard_summary.ts:131-143 | adding one record adds its weight to exactly the group of its key |
| Dashboard.KeysSumCovers | server/src/handlers/get_dashboard_summary.ts:131-143 | when the keys cover every selected record once, their total is the total over the records |
| Dashboard.GroupingsSelectAlike | server/src/handlers/get_dashboard_summary.ts:36-128 | when every record's siswa and kelas exist, both groupings select the same records |
| Dashboard.ClassRowsTotal | server/src/handlers/get_dashboard_summary.ts:100-127 | the class rows' total is the total over the filtered records |
| Dashboard.CategoryRowsTotal | server/src/handlers/get_dashboard_summary.ts:41-86 | the category rows' total is the total over the filtered records |
| Dashboard.DashboardTotalsAgree | server/src/handlers/get_dashboard_summary.ts:36-128 | under the invariant, for every filter, the category rows and the class rows have the same total count and the same total poin |
| Dashboard.NothingSelectedEmpty | server/src/handlers/get_dashboard_summary.ts:36-128 | when no record passes the filter, both lists are empty |
| Dashboard.NoRecordsEmpty | server/src/handlers/get_dashboard_summary.ts:36-128 | with no records at all, both lists are empty |
| Dashboard.EmptyDateRangeEmpty | server/src/handlers/get_dashboard_summary.ts:15-23 | a start date after the end date gives two empty lists |
| Dashboard.CategoryRowHasRecord | server/src/handlers/get_dashboard_summary.ts:67-76 | each category row has a witness record of its category inside the date bounds and matching the teacher and class filters |
| Dashboard.MatchingRecordInCategoryRow | server/src/handlers/get_dashboard_summary.ts:15-76 | a record passing every filter is counted in the row of its category |
| Dashboard.MatchingRecordInClassRow | server/src/handlers/get_dashboard_summary.ts:15-113 | under the invariant, a record passing every filter is counted in the row of its student's class |
| Dashboard.RecordMakesGroup | server/src/handlers/get_dashboard_summary.ts:43-104 | a selected record makes its group's count positive |
| Dashboard.GroupSumAlike | server/src/handlers/get_dashboard_summary.ts:25-93 | filters that agree on truthiness and values give the same group sums |
| Dashboard.ActiveKeysAlike | server/src/handlers/get_dashboard_summary.ts:25-93 | such filters keep the same groups |
| Dashboard.RowsAlike | server/src/handlers/get_dashboard_summary.ts:25-93 | such filters give the same rows |
| Dashboard.SummaryAlike | server/src/handlers/get_dashboard_summary.ts:25-93 | such filters give the same summary |
| Dashboard.ZeroIdIsNoFilter | server/src/handlers/get_dashboard_summary.ts:25-93 | a guru_id or kelas_id of 0 gives the same summary as leaving it out |
| Dashboard.PoinChangeShiftsSums | server/src/handlers/get_dashboard_summary.ts:44-105 | changing a violation type's poin by a delta, same category, shifts every group's poin sum by delta times its records of that type, and no count changes |
| Dashboard.PoinAtLeastCount | server/src/handlers/get_dashboard_summary.ts:43-44 | with positive poin, a group's poin sum is at least its count |
| Dashboard.RowsPoinAtLeastCount | server/src/handlers/get_dashboard_summary.ts:131-143 | with positive poin, every row's total_poin is at least its total_pelanggaran |
| Store.OrNull | server/src/handlers/create_pelanggaran_siswa.ts:47 | `x \|\| null`: a value is stored iff it was given and is not empty, and then it is stored unchanged |
| Store.OrDefault | server/src/handlers/update_pengaturan_instansi.ts:19-21 | `x \|\| default`: absent or empty gives the default, anything else is kept |
| Store.ApplyPatch | server/src/handlers/update_pelanggaran_siswa.ts:70-72 | an absent field keeps the stored value, an explicit null clears it, a given value replaces it |
| Store.NewSettings | server/src/handlers/update_pengaturan_instansi.ts:17-27 | the inserted row has the given id, created_at now and updated_at null; each required text column is the input or its default when absent or empty, each nullable one the input or null when absent, null or empty; no text column is stored empty |
| Store.PatchSettings | server/src/handlers/update_pengaturan_instansi.ts:32-37 | the patched row keeps its id and created_at and has updated_at set; a given text field replaces the stored one and an absent one keeps it; a nullable field is replaced, cleared by null, or kept when absent |
| Store.FirstSettingsKey | server/src/handlers/update_pengaturan_instansi.ts:10-37 | the first settings row is stored under its own id |
| Store.FirstSettingsRow | server/src/handlers/get_pengaturan_instansi.ts:9-15 | the stored row with the least id is the one getPengaturanInstansi returns |
| Store.SettingsInserted | server/src/handlers/update_pengaturan_instansi.ts:15-29 | inserting into the empty settings table keeps the invariant and makes that row the one returned |
| Store.SettingsReplaced | server/src/handlers/update_pengaturan_instansi.ts:32-39 | rewriting the least-id settings row keeps the invariant and keeps it the one returned |
| Store.SiswaReplaced | server/src/handlers/update_siswa.ts:10-42 | rewriting a siswa whose kelas exists, whose nisn fits and whose nomor is positive keeps the invariant and the validated columns |
| Store.KelasDeleteValidated | server/src/handlers/delete_kelas.ts:8-10 | deleting a kelas keeps every stored nomor and poin positive |
| Store.GuruInserted | server/src/handlers/create_guru.ts:8-15 | a new guru under the next key, with a positive nomor and a fitting nip, keeps the invariant and the validated columns |
| Store.SummaryPoinAtLeastCount | server/src/handlers/get_dashboard_summary.ts:131-143 | for every state a store keeps, each summary row has at least as many points as violations |
| Store.RecordReplaced | server/src/handlers/update_pelanggaran_siswa.ts:20-79 | rewriting a record whose references exist keeps the invariant |
| Store.Store.constructor | server/src/db/schema.ts:11-86 | a new store is the empty database, which is consistent |
| Store.Store.CreateKelas | server/src/handlers/create_kelas.ts:9-16 | always succeeds; inserts exactly one row, under a fresh id, with the given fields, created_at now and updated_at null; nothing else changes |
| Store.Store.UpdateKelas | server/src/handlers/update_kelas.ts:10-42 | a missing id is an error naming it, with nothing changed; otherwise only the given fields change, created_at is kept, updated_at is set, and only that row changes |
| Store.Store.DeleteKelas | server/src/handlers/delete_kelas.ts:8-10 | the new state is `Cascade.DeleteKelas` of the old one |
| Store.Store.CreateGuru | server/src/handlers/create_guru.ts:9-16 | inserts one row under a fresh id with updated_at null; a nip that varchar(20) refuses is an error with nothing changed |
| Store.Store.UpdateGuru | server/src/handlers/update_guru.ts:10-39 | a missing id is an error naming it; a nip too long is an error; otherwise only the given fields change, updated_at is set, and only that row changes; errors change nothing |
| Store.Store.DeleteGuru | server/src/handlers/delete_guru.ts:8-10 | the new state is `Cascade.DeleteGuru` of the old one |
| Store.Store.CreateSiswa | server/src/handlers/create_siswa.ts:10-28 | a missing kelas is an error naming its id; then a nisn too long is an error; otherwise one row is inserted under a fresh id with updated_at null; errors change nothing |
| Store.Store.UpdateSiswa | server/src/handlers/update_siswa.ts:10-42 | a missing siswa is an error, then a given but missing kelas, then a nisn too long; otherwise only the given fields change, created_at is kept, updated_at is set; errors change nothing |
| Store.Store.DeleteSiswa | server/src/handlers/delete_siswa.ts:8-10 | the new state is `Cascade.DeleteSiswa` of the old one |
| Store.Store.CreateDataPelanggaran | server/src/handlers/create_data_pelanggaran.ts:9-16 | always succeeds, for every category; inserts one row under a fresh id with updated_at null; nothing else changes |
| Store.Store.UpdateDataPelanggaran | server/src/handlers/update_data_pelanggaran.ts:10-41 | a missing id is an error; otherwise only the given kategori, jenis_pelanggaran and poin change and updated_at is set; no record changes |
| Store.Store.DeleteDataPelanggaran | server/src/handlers/delete_data_pelanggaran.ts:9-11 | the new state is `Cascade.DeleteDataPelanggaran` of the old one |
| Store.Store.CreatePelanggaranSiswa | server/src/handlers/create_pelanggaran_siswa.ts:10-56 | a missing siswa, then a missing type, then a missing guru is an error naming its id; success iff all three exist; then one record under a fresh id with the given date and keys, bukti_file `x \|\| null`, updated_at null; errors change nothing |
| Store.Store.UpdatePelanggaranSiswa | server/src/handlers/update_pelanggaran_siswa.ts:10-79 | a missing record is an error first, then each given siswa, type and guru that is missing, in that order; success iff none of these; only given fields change, a null bukti_file clears it, an absent one keeps it, updated_at is set; errors change nothing |
| Store.Store.DeletePelanggaranSiswa | server/src/handlers/delete_pelanggaran_siswa.ts:8-10 | the new state is `Cascade.DeletePelanggaranSiswa` of the old one |
| Store.Store.UpdatePengaturanInstansi | server/src/handlers/update_pengaturan_instansi.ts:10-41 | with no row, inserts exactly one defaulted row; otherwise patches the least-id row and inserts nothing; afterwards the table is non-empty, grew by at most one, and getPengaturanInstansi returns the row written |
| Store.Store.DeleteUser | server/src/handlers/delete_user.ts:8-10 | the new state is `Cascade.DeleteUser` of the old one |

## Left out

- create_user.ts and update_user.ts are placeholders that touch no table. Password hashing and logins are not part of this model. Only `deleteUser` changes the users table here.
- The network layer (tRPC router, index.ts), logging, and the client under client/src are not part of this model.
- Concurrency is not modelled. Each handler runs alone, so its checks and its write see the same state.
- The clock is not modelled. Timestamps are the `now` parameter. A date is a `Day`, standing for the UTC date part of the input `Date`.
- SQL `ILIKE` is modelled as case-insensitive substring search with ASCII case folding. The `%` and `_` wildcards inside a query, the backslash, which LIKE reads as its escape character, and the database collation's ordering and Unicode case rules, are not modelled. `orderBy(nama_siswa)` is modelled as lexicographic order on characters.
- Search.SearchComplete: the query is matched as a literal substring. The source puts the trimmed query into the pattern unescaped, so a query holding `%`, `_` or `\` matches differently there. The completeness it states is that of the literal reading.
- Search.SearchSiswa: its promise that every result contains the query describes the source only for queries free of `%`, `_` and `\`.
- The list queries and the dashboard groupings have no ORDER BY in the source. The model returns list rows in ascending key order and category rows in the declared enum order, and orders class rows by ascending kelas id.
- The serial sequences are modelled as one counter per table. A counter moves only on a successful insert, so gaps left by failed inserts are not modelled.
- Integers are unbounded. The int4 range of `integer` and `serial` columns is not modelled, and neither is the zod `.int()` check.
- The email format check of the settings input is the parameter `isEmail`. No handler reads the checked email, so no store method requires it.
- The store methods that write a nomor or a poin require the router's validity predicate for their input. The store invariant `Valid()` records the consequence: every stored nomor and poin is positive.
- The `total_poin ? ... : 0` fallback of the dashboard is not modelled separately: every group in the model has at least one record, so its sum is never null.
- Dashboard.ClassRowsComplete: holds only when the table keys come from the counters. `GetDashboardSummary` states it under the full invariant.
- Dashboard.GroupSum: its own contract bounds only the count. The meaning of the sums is stated by the `*RowsSound` and `*RowsTotal` lemmas.
- Store.Store.DeleteKelas: like DeleteGuru, DeleteSiswa and DeleteDataPelanggaran, it takes its new tables from the matching `Cascade` function, because the database performs the cascade. The order in which PostgreSQL visits the child rows is not modelled.
- The settings table has no singleton constraint in the schema, though the handlers treat it as one. Several settings rows are a consistent state. Both handlers take one row with `limit(1)` and no ORDER BY, so which row SQL returns is unspecified. The model's choice for that row is the one with the least id, as it chooses ascending key order for the lists.
