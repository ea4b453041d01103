# A Dafny model of the dispatch platform's data tools

This project models, in Dafny 4.11, the parts of the repository whose correctness rests on more than one
function, and proves what their documentation promises of them. `dafny verify dfyconfig.toml` checks all of it.

| file | models |
|---|---|
| `Words.dfy`, `Crc32.dfy` | 32-bit words by their binary digits; the checksum loop and its algebra |
| `Zip.dfy` | the ZIP writer on byte buffers, a reader, round trip and damage detection |
| `Csv.dfy` | both CSV printers, a reader, and the exact condition of the round trip |
| `Decimals.dfy`, `SynthIds.dfy`, `Bundle.dfy`, `BundleArchive.dfy` | the bundle generator, from its rows to the archive and back |
| `BundleImport.dfy` | the importer's file names, column mapping and value maps, and that a generated bundle arrives whole |
| `Luhn.dfy`, `Patterns.dfy`, `PanScanner.dfy` | the check digit; backtracking patterns; the card scanner |
| `PoolProtocol.dfy`, `PoolSafety.dfy`, `PoolTheorems.dfy` | requests sharing pooled connections, as interleaved steps, with the invariant of every run |
| `TransactionHelpers.dfy` | the transaction helpers as methods, under arbitrary interference, shown to be runs of the protocol |
| `Migrations.dfy` | the migration runner with faults and crashes |
| `Allocator.dfy`, `Ledger.dfy`, `Seeding.dfy`, `TenantReset.dfy` | the demo seeder: numbers, cents, idempotence, and the tenant delete order |

Conventions. Code that changes things step by step is a method or a class whose contract equates the new state
with a specification function; what the source promises is then proved of that function. `Option`, `Result` and
`Outcome` stand for missing values and exceptions. `hide` statements keep proofs small and state nothing.

## What is assumed

- Row security filters on the tenant setting and shows nothing when it is unset or empty; a local setting ends
  with its transaction; ROLLBACK fails only on a dead connection; the pool never hands out a dead connection;
  work issues no transaction control and no settings of its own, and tenant ids are compared in normal form.
- `Buffer.from(text, 'utf8')` is a function with an inverse. A sum of cents is exact. Deterministic ids do not
  collide. The seeder's database has its foreign keys intact before a run.
- The bundle reads a missing optional count as zero and prints coordinates by a function given as a parameter.
- One migration runner at a time; no migration file contains a COMMIT; the passwords it sets are part of what a
  file's text does.
- For the tenant reset: a tenant's rows lie in the tables of the list and in users, and refer only to rows of the
  same tenant. The set of audited tables is a parameter.

## Where code and documentation disagree

The model follows the code in each case.

- `apps/api/scripts/synth-towbook-bundle.ts:149-153` calls phone numbers unique per row; they repeat at distance
  9000 (`SynthIds.PhonesRepeat`), and the signed shift at line 159 can make them malformed (`SynthIds.PhoneShape`,
  `SynthIds.MalformedPhone`). Line 164 calls VINs 17 characters long; that holds up to index 998
  (`SynthIds.VinsDistinct`).
- `apps/api/src/database/tenant-aware-db.service.ts:173` says the lag probe never throws; connecting stands outside
  its try block (`PoolTheorems.LagProbeThrows`, `PoolTheorems.LagProbeRefused`). Lines 5 and 10 promise COMMIT or
  ROLLBACK; a COMMIT of a transaction in which a query failed is a silent ROLLBACK, so a call can return with its
  changes lost when its work swallows the failure (`PoolTheorems.ReturnedMeansCommitted`).
- `scripts/compliance/verify-no-pan-logs.ts:5-7` promises that no card number literal appears unnoticed. The pattern
  takes a number in groups of four together with groups before it (`PanScanner.OverlappedCardMissed`), and turns away
  a number with a dot beside it. A number without separators is considered exactly when no dot is beside it
  (`PanScanner.RunConsidered`); one in groups exactly when no digit or dot is beside it, it does not continue, and
  the whole groups before it come in fives (`PanScanner.GroupedCardReported`).
- `packages/db/scripts/seed-demo.ts:872` announces a delete of users that no statement performs, and the audit
  trigger of `packages/db/sql/0004_audit_trigger.sql:108-112` writes an entry for the deleted tenant, which its own
  foreign key forbids. `TenantReset.ClosingDelete` gives the exact condition; with that trigger in place the closing
  delete of an existing tenant always fails.
- `packages/db/src/schema/` does not declare the foreign keys that `packages/db/drizzle/0005_drivers_trucks_shifts.sql:195-203`
  and `packages/db/sql/0008_jobs_rate_sheets.sql:55-67` add; the model of the reset includes them.

## Model

| member | source | states |
|---|---|---|
| Crc32.Compute | apps/api/scripts/synth-towbook-bundle.ts:138-147 | The two nested loops compute `Crc` of the buffer, a value that fits the unsigned 32-bit field it is written to. |
| Crc32.UpdateAppend | apps/api/scripts/synth-towbook-bundle.ts:140-145 | Absorbing a message is absorbing its first part and then the rest. |
| Crc32.UpdateOnBits | apps/api/scripts/synth-towbook-bundle.ts:141-144 | The word operations of the loop are polynomial division steps on the binary digits of state and message. |
| Crc32.CrcIsRemainder | apps/api/scripts/synth-towbook-bundle.ts:138-147 | For every message the result is the remainder over GF(2) of section 8 of RFC 1952, by long division of the padded, complemented message. |
| Crc32.GeneratorIs | apps/api/scripts/synth-towbook-bundle.ts:143 | The divisor has exactly the powers 26, 23, 22, 16, 12, 11, 10, 8, 7, 5, 4, 2, 1 and 0 below its leading one. |
| Crc32.KnownValues | apps/api/scripts/synth-towbook-bundle.ts:138-147 | The checksum of no byte is 0, that of the byte 0xFF is 0xFF000000, and that of 0x7F is 0x12B88320. |
| Crc32.CrcIsAffine | apps/api/scripts/synth-towbook-bundle.ts:138-147 | At equal length, crc(a xor b) = crc(a) xor crc(b) xor crc(zeros). |
| Crc32.TableDriven | apps/api/scripts/synth-towbook-bundle.ts:140-145 | The form driven by a table of 256 entries gives the same state from every state, for every message. |
| Crc32.StepInjective | apps/api/scripts/synth-towbook-bundle.ts:143 | One shift step loses nothing: two states that step to the same state on the same bit are equal. |
| Crc32.BurstDetected | apps/api/scripts/synth-towbook-bundle.ts:138-147 | Two different messages of equal length that differ only inside a window of 32 bits, at any bit position, have different checksums. |
| Crc32.FourByteWindowDetected | apps/api/scripts/synth-towbook-bundle.ts:138-147 | The same for a window of four consecutive bytes. |
| Zip.WriteUInt16LE | apps/api/scripts/synth-towbook-bundle.ts:90-94 | Writes two bytes in place, lowest first, and nothing else in the buffer changes. |
| Zip.WriteUInt32LE | apps/api/scripts/synth-towbook-bundle.ts:89-97 | Writes four bytes in place, lowest first, and nothing else in the buffer changes. |
| Zip.ValueOf | apps/api/scripts/synth-towbook-bundle.ts:89-98 | Reading a little-endian field gives back the number written, for every field width. |
| Zip.FieldBytes | apps/api/scripts/synth-towbook-bundle.ts:89-98 | The bytes of a 16-bit and of a 32-bit field, lowest first. |
| Zip.BuildLocalHeader | apps/api/scripts/synth-towbook-bundle.ts:88-99 | Yields 30 bytes in which every field is as the format asks: version 20, no flags, stored, no time or date, checksum, both sizes, name length; or throws exactly when the size has 33 bits or the name length 17. |
| Zip.LocalHeaderFields | apps/api/scripts/synth-towbook-bundle.ts:88-99 | What a reader finds at all eleven field positions of APPNOTE section 4.3.7 is what was meant to be there, the constants as numbers. |
| Zip.BuildCentralHeader | apps/api/scripts/synth-towbook-bundle.ts:102-119 | Yields 46 bytes in which every field is as the format asks, all 17 of them; or throws exactly when size or offset have 33 bits or the name length 17. |
| Zip.CentralHeaderFields | apps/api/scripts/synth-towbook-bundle.ts:102-119 | The same for all field positions of APPNOTE section 4.3.12: both versions 20, no flags, stored, no time, date, comment, disk or attributes. |
| Zip.BuildEndRecord | apps/api/scripts/synth-towbook-bundle.ts:126-134 | Yields 22 bytes in which every field is as the format asks, or throws exactly when the count has 17 bits, or size or start 33. |
| Zip.EndRecordFields | apps/api/scripts/synth-towbook-bundle.ts:126-134 | The same for the field positions of APPNOTE section 4.3.16. |
| Zip.BuildRecords | apps/api/scripts/synth-towbook-bundle.ts:85-120 | One turn of the loop: both records of an entry, or a throw exactly when one of its fields overflows. |
| Zip.BuildZipBytes | apps/api/scripts/synth-towbook-bundle.ts:77-136 | The writer succeeds exactly when every number fits its field, and then returns the archive. |
| Zip.FitsWhen | apps/api/scripts/synth-towbook-bundle.ts:85-134 | Every number fits exactly when there are fewer than 2^16 entries, every name has fewer than 2^16 bytes, and local records and directory have fewer than 2^32 bytes each. |
| Zip.EntryRead | apps/api/scripts/synth-towbook-bundle.ts:100-122 | The central offset of every entry lands on the local record of the same entry, and both are read back. |
| Zip.UnzipArchive | apps/api/scripts/synth-towbook-bundle.ts:77-136 | A reader that starts from the 22-byte end record, refuses flags and methods, and checks every checksum recovers exactly the names, data and checksums, in order. |
| Zip.ArchiveIsTight | apps/api/scripts/synth-towbook-bundle.ts:77-136 | An archive has no spare byte: 76 bytes and twice its name for every entry, its data, and 22. |
| Zip.ArchiveInjective | apps/api/scripts/synth-towbook-bundle.ts:77-136 | Two entry lists never give the same archive. |
| Zip.DamageDetected | apps/api/scripts/synth-towbook-bundle.ts:86-96 | Changing stored data of any entry within four consecutive bytes makes the reader reject the archive. |
| Csv.PrintRecords | apps/api/scripts/synth-towbook-bundle.ts:53-70 | The loop that pushes lines prints what the pure printer prints for the property names of the first record. |
| Csv.QuotedWhen | apps/api/scripts/synth-towbook-bundle.ts:63-64 | A cell is printed as it stands if and only if it has no quote, comma or newline, and otherwise between quotes with one more for every quote in it. |
| Csv.ReadFieldBack | scripts/compliance/list-users-roles.ts:50-54 | A cell with quotes, commas or newlines, or none of them, reads back as itself. |
| Csv.ReadTableBack | scripts/compliance/list-users-roles.ts:56-60 | A table whose cells are all quoted where needed reads back whole, record by record. |
| Csv.HeaderMustBePlain | apps/api/scripts/synth-towbook-bundle.ts:55-56 | A header that reads back contains no character that would need quoting, since it is never quoted. |
| Csv.RoundTrip | scripts/compliance/list-users-roles.ts:50-60 | A reader of the LF-separated form of section 2 of RFC 4180 recovers every cell if and only if there is a column and every column name is plain. |
| Csv.CellReadsBack | scripts/compliance/list-users-roles.ts:50-60 | Every cell reads back as its text, and null or undefined as the empty text. |
| Csv.RecordsRoundTrip | apps/api/scripts/synth-towbook-bundle.ts:53-70 | The same round trip for records, whatever the order of their properties. |
| Csv.PropertyReadsBack | apps/api/scripts/synth-towbook-bundle.ts:53-70 | In the column of a property every record shows its own value of it, wherever it stands, and the empty text if it has none. |
| SynthIds.ComputeHash | apps/api/scripts/synth-towbook-bundle.ts:155-157 | The loop computes the rolling hash modulo 2^32 of the stem. |
| SynthIds.CodeUnitIs | apps/api/scripts/synth-towbook-bundle.ts:157 | A character counts with its first code unit: its high surrogate outside the basic plane. |
| SynthIds.ShiftAndRemainder | apps/api/scripts/synth-towbook-bundle.ts:159 | The shift rounds down on the signed reading of the hash; the remainder has the sign of its left operand. |
| SynthIds.SynthPhone | apps/api/scripts/synth-towbook-bundle.ts:154-161 | Returns the phone number with the signed shift and the sign-keeping remainder of the language. |
| SynthIds.SynthVin | apps/api/scripts/synth-towbook-bundle.ts:169-178 | Returns the VIN of the prefix, the hash stem and the padded index. |
| SynthIds.PhonesRepeat | apps/api/scripts/synth-towbook-bundle.ts:157-160 | Two rows of a kind share a number if and only if their indices differ by a multiple of 9000. |
| SynthIds.PhoneDigits | apps/api/scripts/synth-towbook-bundle.ts:158-160 | The last four digits of a phone number are 1000 and the remainder modulo 9000 of hash and index; the middle group is 100 and the remainder of the shifted hash. |
| SynthIds.VinsDistinct | apps/api/scripts/synth-towbook-bundle.ts:170-177 | VINs of a kind never repeat, and have 17 characters if and only if the index is at most 998. |
| SynthIds.VinsAgree | apps/api/scripts/synth-towbook-bundle.ts:169-178 | VINs of any two kinds or prefixes are equal if and only if the indices and the hashes modulo 1000 are. |
| SynthIds.FirstNumbers | apps/api/scripts/synth-towbook-bundle.ts:154-178 | The first phone numbers and VINs of a bundle with the default prefix, as texts. |
| SynthIds.PhoneShape | apps/api/scripts/synth-towbook-bundle.ts:159-160 | A number has the ten-digit shape if and only if the remainder of the shifted hash is at least -100. |
| SynthIds.MalformedPhone | apps/api/scripts/synth-towbook-bundle.ts:159-160 | With the prefix `a`, no customer gets a number of that shape. |
| Decimals.ParsePadStart | apps/api/scripts/synth-towbook-bundle.ts:158-176 | Padding keeps the number that a text denotes, at and beyond the padded width. |
| Decimals.Canonical | apps/api/scripts/synth-towbook-bundle.ts:158-176 | A printed number has digits only, no leading zero, and denotes the number. |
| Decimals.Padded | apps/api/scripts/synth-towbook-bundle.ts:158 | Padding puts zeros in front up to the width and leaves longer texts alone. |
| Bundle.ReferentialClosure | apps/api/scripts/synth-towbook-bundle.ts:182-313 | For all counts, the foreign ids in vehicles, calls, impounds, invoices, payments, history and attachments go round the ids of the table they name, row i to row i modulo their number, and are empty exactly when that table is. |
| Bundle.IdsUnique | apps/api/scripts/synth-towbook-bundle.ts:182-299 | Ids are unique within every table that has its own ids. |
| Bundle.IdsNumbered | apps/api/scripts/synth-towbook-bundle.ts:182-299 | Row j of a table has its kind, the prefix and j + 1 for its id. |
| Bundle.NaturalKeysDiffer | apps/api/scripts/synth-towbook-bundle.ts:182-282 | E-mail addresses, plates, licences, unit and invoice numbers never repeat in their tables. |
| Bundle.SameByPhoneOrVin | apps/api/scripts/synth-towbook-bundle.ts:182-244 | In the tables, customers and drivers share a phone number exactly when they are a multiple of 9000 rows apart; vehicles and trucks never share a VIN. |
| Bundle.AmountsDiffer | apps/api/scripts/synth-towbook-bundle.ts:286 | A printed amount determines its cents. |
| Bundle.MoneyIs | apps/api/scripts/synth-towbook-bundle.ts:263 | A printed amount has its units, a point and two digits of cents. |
| Bundle.AmountsAgree | apps/api/scripts/synth-towbook-bundle.ts:263-299 | Row i of calls, invoices and payments tells of the same amount, from 125.00 up to 350.00; the commission is 30 percent to the cent; an invoice is paid exactly when its balance is 0.00, and otherwise all of it is open. |
| Bundle.RowsAreConsistent | apps/api/scripts/synth-towbook-bundle.ts:45-50 | In every row cities stand with their states and models with their makes; accounts have a credit limit, cash customers none; checks have a reference, other payments none. |
| Bundle.ChoicesRepeat | apps/api/scripts/synth-towbook-bundle.ts:52 | Names repeat exactly every six rows, cities, makes and networks every five. |
| Bundle.NumbersAre | apps/api/scripts/synth-towbook-bundle.ts:182-244 | Model years, weights and postal codes by row. |
| Bundle.CallsGoForward | apps/api/scripts/synth-towbook-bundle.ts:246-266 | The times of a call are in the order of its stages. |
| Bundle.PapersGoForward | apps/api/scripts/synth-towbook-bundle.ts:268-299 | A vehicle is released after it was impounded, every third one; a payment comes after its invoice was issued and before it is due. |
| BundleArchive.PushAttachments | apps/api/scripts/synth-towbook-bundle.ts:337-349 | Pushes the manifest and one photo an attachment, in order, or nothing when there are none. |
| BundleArchive.BuildSyntheticBundle | apps/api/scripts/synth-towbook-bundle.ts:180-351 | Pushes the files in order, leaving out empty optional tables, and returns their archive, or throws exactly when a number overflows its field. |
| BundleArchive.AllSheetsGood | apps/api/scripts/synth-towbook-bundle.ts:182-349 | Every table in the archive is rectangular and its column names are distinct and need no quoting. |
| BundleArchive.NamesDistinct | apps/api/scripts/synth-towbook-bundle.ts:315-348 | Entry names are pairwise distinct, so a lookup by name is well defined. |
| BundleArchive.TablesInArchive | apps/api/scripts/synth-towbook-bundle.ts:315-344 | Five tables are always in the archive, each of the other five exactly when its rows are asked for. |
| BundleArchive.SheetsInOrder | apps/api/scripts/synth-towbook-bundle.ts:315-344 | They stand in the order of this list of file names. |
| BundleArchive.RowCounts | apps/api/scripts/synth-towbook-bundle.ts:181-309 | Every table has as many rows as are asked for, none by default; the default prefix is `synth`. |
| BundleArchive.ManifestMatchesMedia | apps/api/scripts/synth-towbook-bundle.ts:309-348 | The media entries are the file names of the manifest, photo 1 to photo n, one for one and in order. |
| BundleArchive.SheetReadsBack | apps/api/scripts/synth-towbook-bundle.ts:53-70 | Parsing the text of a table gives back its column names and all its rows. |
| BundleArchive.EndToEnd | apps/api/scripts/synth-towbook-bundle.ts:180-351 | Unzipping the bundle, looking any file up by name, decoding and parsing it gives back exactly the generated table or photo. |
| BundleImport.FieldsArrive | apps/api/src/modules/import/bundle.service.ts:108-154 | For every table, row and field: the importer finds the file by its name, resolves the field by the names of the mapping file, and gets exactly the value that was generated, through zip, encoding and CSV. |
| BundleImport.SheetsKnown | apps/api/src/modules/import/column-mappings/towbook.json:5-128 | Every table of a bundle has a name the importer looks for, and for every column a field with that column as its first name, in order. |
| BundleImport.FirstNameResolves | apps/api/src/modules/import/bundle.service.ts:117-133 | For any header, a field resolves to the last column of its first name that occurs, and to none exactly when none occurs. |
| BundleImport.CallsTranslated | apps/api/src/modules/import/column-mappings/towbook.json:129-191 | Every service, status and network of a generated call is one the importer translates: a tow, completed, by one of its networks or none. |
| BundleImport.OthersTranslated | apps/api/src/modules/import/column-mappings/towbook.json:166-199 | So is every account type, payment method and kind of truck, in the rhythm of the rows. |
| Luhn.LuhnValid | scripts/compliance/verify-no-pan-logs.ts:40-54 | The right-to-left loop decides validity by the position-parity definition of ISO/IEC 7812-1, Annex B, and rejects any other character. |
| Luhn.OneDigitChanged | scripts/compliance/verify-no-pan-logs.ts:40-54 | Changing one digit of a valid number always makes it invalid. |
| Luhn.NeighboursSwapped | scripts/compliance/verify-no-pan-logs.ts:40-54 | Swapping two neighbours keeps a number valid if and only if they are equal, or a 0 and a 9. |
| Luhn.UniqueCheckDigit | scripts/compliance/verify-no-pan-logs.ts:40-54 | Every prefix of digits has exactly one valid check digit. |
| Patterns.EndsForward | scripts/compliance/verify-no-pan-logs.ts:68 | No match of any pattern ends before it starts. |
| Patterns.ReportedUnlessOverlapped | scripts/compliance/verify-no-pan-logs.ts:68 | Where the pattern matches, `matchAll` reports that match if and only if no reported match starts before it and ends after its start. |
| Patterns.EveryMatch | scripts/compliance/verify-no-pan-logs.ts:68 | What `matchAll` reports is the preferred match at its start. |
| PanScanner.ScannerMatchesPattern | scripts/compliance/verify-no-pan-logs.ts:67 | At every position of every text the scanner finds exactly the match that backtracking prefers for the pattern, with its lookarounds. |
| PanScanner.FindPanCandidates | scripts/compliance/verify-no-pan-logs.ts:62-81 | The detector, scanning by hand, returns exactly the cards among all matches of the pattern, in order. |
| PanScanner.RunsNeverCut | scripts/compliance/verify-no-pan-logs.ts:64-67 | A match never cuts a run of digits: the run is the whole match or lies inside it with at most four digits. |
| PanScanner.RunConsidered | scripts/compliance/verify-no-pan-logs.ts:64-67 | A maximal run of digits is considered if and only if it has 13 to 19 digits and no dot on either side. |
| PanScanner.ReportedValues | scripts/compliance/verify-no-pan-logs.ts:69-78 | Every reported value has 13 to 19 digits, leads with 3 to 6, is not one digit over and over, is none of the ten listed cards, and has a Luhn sum divisible by ten; its mask is eleven characters: the first six digits, an ellipsis, the last four. |
| PanScanner.CardIs | scripts/compliance/verify-no-pan-logs.ts:69-77 | The same as an equivalence, for any text of a match. |
| PanScanner.StripIs | scripts/compliance/verify-no-pan-logs.ts:69 | Taking out separators leaves digits alone, drops blanks and dashes, and works on every part by itself. |
| PanScanner.CharactersAre | scripts/compliance/verify-no-pan-logs.ts:67 | The characters the pattern means: ten digits, blank and dash, digits and dot. |
| PanScanner.TestCardsAreValid | scripts/compliance/verify-no-pan-logs.ts:27-54 | Two listed cards, of sixteen and fifteen digits, pass the check, so only the list keeps them from being reported. |
| PanScanner.ContiguousCardReported | scripts/compliance/verify-no-pan-logs.ts:62-81 | No card number written without separators goes unreported, wherever it stands, unless a dot is beside it. |
| PanScanner.IsolatedNotOverlapped | scripts/compliance/verify-no-pan-logs.ts:67-68 | No match runs past a place that has neither a digit nor a separator before it. |
| PanScanner.MatchShape | scripts/compliance/verify-no-pan-logs.ts:64-67 | A match at a place is a run of 13 to 19 digits or a number in groups, with no digit or dot beside it and no further group to take in; and every such number is a match. |
| PanScanner.OverlappedByCount | scripts/compliance/verify-no-pan-logs.ts:68 | A considered match runs past the start of a grouped match if and only if the count of whole groups in a row before it is no multiple of five. |
| PanScanner.MatchConsidered | scripts/compliance/verify-no-pan-logs.ts:67-68 | For every text: the considered stretches are exactly the runs of 13 to 19 digits with no digit or dot beside them, and the grouped numbers with a multiple of five whole groups before them. |
| PanScanner.GroupedMatches | scripts/compliance/verify-no-pan-logs.ts:64-67 | A number in three or four groups of four, with or without one to four more digits, and no digit or dot around it, is matched whole where it stands if and only if no further group follows for which the pattern has room. |
| PanScanner.GroupedCardReported | scripts/compliance/verify-no-pan-logs.ts:64-78 | A number in three or four groups of four, with or without one to four more digits, is considered if and only if no digit or dot is beside it, no further group follows for which the pattern has room, and the count of whole groups in a row before it is a multiple of five; then it is reported if it is a card. |
| PanScanner.CandidatesAre | scripts/compliance/verify-no-pan-logs.ts:62-81 | For every text: a value is reported if and only if it is the digits, with their mask, of a card in a stretch that is considered. |
| PanScanner.CandidatesInOrder | scripts/compliance/verify-no-pan-logs.ts:62-81 | There is exactly one report for every considered card, and they come in the order in which the cards stand in the text. |
| PanScanner.OverlappedCardMissed | scripts/compliance/verify-no-pan-logs.ts:62-81 | A text with a valid card that is not reported: a group of four before it makes the match twenty digits long. |
| PoolSafety.ScriptSetsExpected | apps/api/src/database/tenant-aware-db.service.ts:68-80 | The statements before the work leave a transaction of the right mode with exactly the settings of the request's own context. |
| PoolSafety.NextKeeps | apps/api/src/database/tenant-aware-db.service.ts:67-95 | Every step of a request, successful, failed or lost, keeps what must hold of it and its connection. |
| PoolSafety.EveryStepKeepsSafe | apps/api/src/database/tenant-aware-db.service.ts:62-189 | Every action of the system keeps the invariant: no connection is shared, idle ones are clean, the log holds whole requests, the replica is a prefix, pools stay within bounds. |
| PoolSafety.ReachableIsSafe | apps/api/src/database/tenant-aware-db.service.ts:62-189 | So it holds in every state that any interleaving of any requests leads to. |
| PoolTheorems.Isolation | apps/api/src/database/tenant-aware-db.service.ts:62-156 | Whatever ran before on the connection, a query of the work ran under exactly its own settings and saw rows of its own tenant only; anonymous work, and work with an empty tenant id, saw none. |
| PoolTheorems.SettingsAreOnesOwn | apps/api/src/database/tenant-aware-db.service.ts:72-80 | Every query that any tenant, read-only or admin request made ran with each setting as its own context provides it, and unset where it provides none. |
| PoolTheorems.SettingsByName | apps/api/src/database/tenant-aware-db.service.ts:68-80 | The same setting by setting: tenant and user id always, request id, address and agent exactly when given and not empty; read-only work has neither address nor agent, the admin no tenant, anonymous work nothing. |
| PoolTheorems.WorkSeesExactlyItsOwn | apps/api/src/database/tenant-aware-db.service.ts:4-20 | A query of the work sees all rows of its tenant, with its own changes, and no other row. |
| PoolTheorems.OwnIs | apps/api/src/database/tenant-aware-db.service.ts:4-20 | The rows of a tenant are those with its id, none for an empty id, and all of them for the admin. |
| PoolTheorems.LastChangeDecides | apps/api/src/database/tenant-aware-db.service.ts:4-20 | A row is there after some changes if and only if the last of them that concerns it put it there, or none did and it was. |
| PoolTheorems.RowsOfLog | apps/api/src/database/tenant-aware-db.service.ts:4-20 | The rows of a server are what all changes of its log, one after the other, make of nothing. |
| PoolTheorems.IdleIsClean | apps/api/src/database/tenant-aware-db.service.ts:13-15 | A connection in a pool is alive, in no transaction, without settings, and held by nobody. |
| PoolTheorems.AllOrNothing | apps/api/src/database/tenant-aware-db.service.ts:82-95 | The changes of a request are in the log once and complete, or not at all, and never before COMMIT is sent. |
| PoolTheorems.ReturnedMeansCommitted | apps/api/src/database/tenant-aware-db.service.ts:82-84 | A call that returned has its changes in the log if and only if it made some and no query of its work failed. |
| PoolTheorems.SwallowedFailure | apps/api/src/database/transaction-runner.service.ts:50-52 | A run in which work swallows a failed query: the call returns and its change is lost. |
| PoolTheorems.OnlyOwnRowsChange | apps/api/src/database/tenant-aware-db.service.ts:62-156 | Committed changes are a tenant request's on its own rows, or the admin's; anonymous and read-only work commits none. |
| PoolTheorems.LaterKeepsPast | apps/api/src/database/tenant-aware-db.service.ts:62-189 | Along every run the logs only grow, committed changes stay committed, and requests that are over never change. |
| PoolTheorems.ConnectionsConserved | apps/api/src/database/tenant-aware-db.service.ts:66-94 | Every connection ever opened is idle, held by exactly one request, or dead; the three counts add up. |
| PoolTheorems.ReleasedOnce | apps/api/src/database/tenant-aware-db.service.ts:92-94 | A finished request has released what it acquired, once; any other holds at most one connection. |
| PoolTheorems.CanAlwaysRelease | apps/api/src/database/tenant-aware-db.service.ts:85-94 | From every reachable state, whatever failed before, a request that holds a connection has a bounded list of steps of its own, possible from that very state, that ends it with what it acquired released. |
| PoolTheorems.PoolsStaySmall | apps/api/src/database/database.module.ts:48-84 | The pools never exceed 20, 10 and 4 connections. |
| PoolTheorems.ReplicaIsPrefix | apps/api/src/database/tenant-aware-db.service.ts:130-156 | No write reaches the replica: its log is always a prefix of the primary's; without a replica no connection leads to one. |
| PoolTheorems.ReplicaCanCatchUp | apps/api/src/database/tenant-aware-db.service.ts:169-189 | The replica can always catch up, in as many steps as it is behind, without touching anything else. |
| PoolTheorems.OnlyReadersReachTheReplica | apps/api/src/database/connection.ts:31-37 | The replica is used only by the lag probe and by read-only work in READ ONLY transactions, and only when one is configured. |
| PoolTheorems.WhichPool | apps/api/src/database/tenant-aware-db.service.ts:130-189 | Every held connection comes from the pool of its kind: the lag probe from the replica, read-only work from the replica when there is one, the admin from its own, all else from the primary. |
| PoolTheorems.LagProbeThrows | apps/api/src/database/tenant-aware-db.service.ts:175-189 | The lag probe throws if and only if a replica is configured and no connection is obtained. |
| PoolTheorems.LagProbeRefused | apps/api/src/database/tenant-aware-db.service.ts:177 | A run in which it does throw, against its own comment. |
| TransactionHelpers.CallKeepsPast | apps/api/src/database/tenant-aware-db.service.ts:62-189 | A call undoes nothing that was committed or over before it, nor does what others do meanwhile. |
| TransactionHelpers.TenantAwareDb.Elapse | apps/api/src/database/tenant-aware-db.service.ts:62-95 | While a statement is awaited others act, the request itself does not change, and neither does its connection unless one dies. |
| TransactionHelpers.TenantAwareDb.Connect | apps/api/src/database/tenant-aware-db.service.ts:66 | Connecting succeeds if and only if an idle connection is on offer or one can be opened. |
| TransactionHelpers.CanConnectWhen | apps/api/src/database/database.module.ts:48-84 | When that is, for every kind of call: an idle connection of its own pool on offer, or room below the 20, 10 or 4 connections of that pool. |
| TransactionHelpers.TenantAwareDb.Statement | apps/api/src/database/tenant-aware-db.service.ts:68-80 | One statement before the work succeeds if and only if it is answered on a live connection; otherwise the request is in its failure phase. |
| TransactionHelpers.TenantAwareDb.WorkQuery | apps/api/src/database/tenant-aware-db.service.ts:82 | One query of the work; on a live connection, answered, it succeeds if and only if no earlier one failed and row security permits it. |
| TransactionHelpers.TenantAwareDb.Perform | apps/api/src/database/tenant-aware-db.service.ts:82 | The callback makes its queries in order until one it does not catch fails; undisturbed it gets through if and only if it does not throw and catches every failure from the first query on that is not permitted. |
| TransactionHelpers.TenantAwareDb.SendCommit | apps/api/src/database/tenant-aware-db.service.ts:83 | COMMIT, answered, refused or lost; on a live connection, answered, it succeeds. |
| TransactionHelpers.TenantAwareDb.SendRollback | apps/api/src/database/tenant-aware-db.service.ts:86-90 | ROLLBACK, whose own failure is ignored. |
| TransactionHelpers.TenantAwareDb.GiveBack | apps/api/src/database/tenant-aware-db.service.ts:93 | Releases the connection on the way out; the request is over. |
| TransactionHelpers.TenantAwareDb.Conclude | apps/api/src/database/tenant-aware-db.service.ts:82-95 | Work, COMMIT or ROLLBACK, and release: how the call must end for what happened meanwhile. |
| TransactionHelpers.TenantAwareDb.RunInTenantContext | apps/api/src/database/tenant-aware-db.service.ts:62-95 | Under any interference the call is a run from the state it was made in, of its own actions and those of others; it gets a connection exactly when there is one to be had and gives it back; if it returns and its work catches nothing, all its changes are committed; undisturbed it returns if and only if its work does not throw and catches every failure from the first query on that is not permitted, and then its changes are committed if and only if every query is permitted, and nothing is otherwise. |
| TransactionHelpers.TenantAwareDb.RunAnonymous | apps/api/src/database/tenant-aware-db.service.ts:102-120 | The same, without settings. |
| TransactionHelpers.TenantAwareDb.RunReadOnly | apps/api/src/database/tenant-aware-db.service.ts:130-156 | The same in a READ ONLY transaction on the pool that is picked, with only the request id as optional setting. |
| TransactionHelpers.TenantAwareDb.RunAsAdmin | apps/api/src/database/transaction-runner.service.ts:30-63 | The same on the admin pool, with every setting optional. |
| TransactionHelpers.TenantAwareDb.Ping | apps/api/src/database/tenant-aware-db.service.ts:159-166 | A run from the state the call was made in; it returns only with a connection and an answer, and does return with both unless a connection dies meanwhile. |
| TransactionHelpers.TenantAwareDb.ReplicaLagSeconds | apps/api/src/database/tenant-aware-db.service.ts:175-189 | A run from the state the call was made in, which throws if and only if there is a replica and no connection to it is to be had, however its query goes; without a replica nothing else happens at all. |
| Migrations.SortedSqlIsSorted | packages/db/src/migrate.ts:96-98 | Whatever the order of the listing, the files are exactly the `.sql` names, in increasing order. |
| Migrations.BeforeIs | packages/db/src/migrate.ts:96-98 | One name comes before another if and only if it is a proper beginning of it, or has the smaller code unit at the first place where they differ. |
| Migrations.FilesInOrder | packages/db/src/migrate.ts:96-98 | In those terms the files are in increasing order, and a file is one whose name ends in `.sql`. |
| Migrations.MigrationDatabase.Begin | packages/db/src/migrate.ts:113 | Opens the transaction on the committed state. |
| Migrations.MigrationDatabase.Execute | packages/db/src/migrate.ts:120 | Runs a file's text in the transaction, or fails. |
| Migrations.MigrationDatabase.Record | packages/db/src/migrate.ts:68-73 | Records the name in the same transaction; a name already there stays. |
| Migrations.MigrationDatabase.Commit | packages/db/src/migrate.ts:122 | Makes both changes permanent together, or neither; the answer may be lost either way. |
| Migrations.MigrationDatabase.ApplyFile | packages/db/src/migrate.ts:111-129 | One file under any fault: the database stays the fold of exactly the recorded files; a failed file leaves the last commit; it is applied if and only if its text runs and all seven requests are answered. |
| Migrations.MigrationDatabase.GetApplied | packages/db/src/migrate.ts:48-63 | The names recorded so far, if and only if all three requests are answered, or a failure before anything is changed. |
| Migrations.MigrationDatabase.Run | packages/db/src/migrate.ts:94-135 | A run applies the first n pending files, all if it completes, with right counts; without faults it completes if and only if all pending texts run. |
| Migrations.RunsAppend | packages/db/src/migrate.ts:103-130 | What is recorded stays; a run appends in increasing order; no file is applied twice. |
| Migrations.NoGaps | packages/db/src/migrate.ts:103-130 | What a run did not come to sorts after everything it applied. |
| Migrations.CompletedRunIsFinal | packages/db/src/migrate.ts:104-107 | After a completed run every file is recorded and the next run changes nothing, even if a text was edited. |
| Migrations.GlobalOrder | packages/db/src/migrate.ts:96-103 | Across runs the order stays lexicographic if and only if the first new name sorts after the last applied one. |
| Migrations.OverAllRuns | packages/db/src/migrate.ts:94-135 | Over any sequence of completed, failed and crashed runs nothing recorded is lost or applied again. |
| Migrations.ResumedRun | packages/db/src/migrate.ts:103-130 | After a run that stopped anywhere, an uninterrupted run over the same folder ends where one from the start would have ended. |
| Migrations.InterruptionsLeaveNoTrace | packages/db/src/migrate.ts:94-135 | For one folder, any failed, crashed and completed runs with a completed one last leave the history, and so the database, of one uninterrupted run. |
| Allocator.Sequences.Upsert | packages/db/scripts/seed-demo.ts:1664-1669 | One atomic step: the next number of the key, and no other key changes. |
| Allocator.Sequences.NextInvoiceNumber | packages/db/scripts/seed-demo.ts:1662-1673 | Takes the next number of the year and prints it. |
| Allocator.Sequences.NextJobNumber | packages/db/scripts/seed-demo.ts:1676-1691 | Takes the next number of the day and prints it. |
| Allocator.Sequences.Serve | packages/db/scripts/seed-demo.ts:1662-1691 | Any interleaving of callers is served one atomic step at a time. |
| Allocator.AnswerIs | packages/db/scripts/seed-demo.ts:1664-1671 | A call gets the next number of its own key, whatever others do in between. |
| Allocator.ExactlyOneToN | packages/db/scripts/seed-demo.ts:1660-1671 | The callers of a key receive exactly the numbers 1 to n, each once. |
| Allocator.InvoiceNumbersDiffer | packages/db/scripts/seed-demo.ts:1672 | Printed invoice numbers differ for different numbers, also beyond 99999. |
| Allocator.InvoiceNumberIs | packages/db/scripts/seed-demo.ts:1672 | An invoice number is `INV`, the year, and the number, in five digits as long as it has no more. |
| Allocator.JobNumbersDiffer | packages/db/scripts/seed-demo.ts:1677-1690 | Printed job numbers differ unless day and number agree, also beyond 9999. |
| Allocator.DayKeyIs | packages/db/scripts/seed-demo.ts:1677-1680 | A day key is the number 10000 year + 100 month + day. |
| Allocator.JobNumberIs | packages/db/scripts/seed-demo.ts:1690 | A job number is its day key and the number, in four digits as long as it has no more. |
| Ledger.Reduce | packages/db/scripts/seed-demo.ts:2343-2354 | The reductions compute subtotal, tax and paid amount, line by line and rounded separately. |
| Ledger.RoundIsNearest | packages/db/scripts/seed-demo.ts:2344 | `Math.round` is the one integer within half, halves going up. |
| Ledger.LineTotalIs | packages/db/scripts/seed-demo.ts:2344 | The cents of a line are the integer nearest to quantity times unit price, halves going up. |
| Ledger.TaxNearExact | packages/db/scripts/seed-demo.ts:2348-2352 | The tax is within half a cent a taxable line of 7.25 percent of their exact amount. |
| Ledger.SubtotalNearExact | packages/db/scripts/seed-demo.ts:2343-2346 | The subtotal is within half a cent a line of the exact sum. |
| Ledger.HalfCentLines | packages/db/scripts/seed-demo.ts:2343-2346 | The bound is reached. |
| Seeding.SeedDatabase.FindOrCreateJob | packages/db/scripts/seed-demo.ts:1912-1947 | Looks first, takes a number and inserts only if the job is missing. |
| Seeding.SeedDatabase.InsertLines | packages/db/scripts/seed-demo.ts:2393-2412 | Inserts the rows of the lines, numbered from 1, each with its rounded total. |
| Seeding.SeedDatabase.InsertPayments | packages/db/scripts/seed-demo.ts:2414-2430 | Inserts the rows of the payments, numbered from 1. |
| Seeding.SeedDatabase.FindOrCreateInvoice | packages/db/scripts/seed-demo.ts:2336-2431 | Looks first, takes a number, books subtotal, tax, total, paid and balance, and keeps every line and payment under an existing invoice. |
| Seeding.SeedDatabase.Run | packages/db/scripts/seed-demo.ts:1911-2431 | Both loops do what the specification function says. |
| Seeding.SecondRunChangesNothing | packages/db/scripts/seed-demo.ts:2336-2341 | A second complete run changes no job, invoice, line, payment or counter, even if rows were added meanwhile. |
| Seeding.RunKeepsBalance | packages/db/scripts/seed-demo.ts:2343-2431 | Every run keeps all invoices in the books balanced: subtotal is the sum of all stored line totals, paid the sum of all stored payments, balance plus paid is subtotal plus tax. |
| Seeding.RunBooks | packages/db/scripts/seed-demo.ts:2343-2372 | Every invoice a run creates has the tax of its own lines, nothing if none is taxable and otherwise within half a cent a taxable line of 7.25 percent, and a subtotal that is their exact sum for whole quantities and otherwise within half a cent a line of it. |
| Seeding.RunBooksRows | packages/db/scripts/seed-demo.ts:2393-2431 | It has exactly the lines and payments of its specification, numbered from 1, each line with the nearest cents and its taxable flag, each payment with its amount. |
| Seeding.RunKeepsNumbers | packages/db/scripts/seed-demo.ts:1662-1691 | Job and invoice numbers stay unique through any run and the counters are never behind them. |
| Seeding.InvoicesNumberedInOrder | packages/db/scripts/seed-demo.ts:2336-2360 | New invoices are numbered in their order, on from the last number of 2026. |
| Seeding.JobsNumberedInOrder | packages/db/scripts/seed-demo.ts:1911-1917 | New jobs are numbered in their order within their day, on from the last number of that day. |
| Seeding.KeysAgree | packages/db/scripts/seed-demo.ts:2337 | Two specifications share an invoice if and only if they have the same job, or both none and the same customer, or the job of one is named like the write-off of the other. |
| TenantReset.CascadesEnd | packages/db/src/schema/invoices.ts:200-203 | No table deleted by cascade is itself referred to, so one level of cascading is all. |
| TenantReset.WhatForbids | packages/db/src/schema/invoices.ts:284-342 | The seven keys that forbid a delete, from the side of the table they point to. |
| TenantReset.WhatGoesAlong | packages/db/src/schema/invoices.ts:200-245 | The seven keys along which a delete spreads. |
| TenantReset.WhatForgetsUsers | packages/db/src/schema/invoices.ts:126-402 | The sixteen columns that only forget a deleted user. |
| TenantReset.WhatForgetsPayers | packages/db/src/schema/invoices.ts:94-97 | The eleven that only forget a deleted customer, account or rate sheet. |
| TenantReset.WhatForgetsOthers | packages/db/drizzle/0005_drivers_trucks_shifts.sql:195-203 | The seven that only forget any other deleted row. |
| TenantReset.RestrictingComesFirst | packages/db/scripts/seed-demo.ts:836-864 | The list respects the graph: a table that restricts deletion stands before the one it points to. |
| TenantReset.DeleteWorks | packages/db/scripts/seed-demo.ts:835 | A delete that nothing obstructs succeeds under restrict, cascade and set-null, empties its table of the tenant, keeps integrity, and leaves other tenants and this tenant's users alone. |
| TenantReset.DeleteEffect | packages/db/scripts/seed-demo.ts:835 | A delete of a listed table fails exactly when a row holds a restricting key to one that would go. Otherwise exactly the tenant's rows of the table and those with a cascading key to them go, a row that stays keeps exactly the keys whose rows are still there, and every audited row that went or lost a key is noted. |
| TenantReset.StepClears | packages/db/scripts/seed-demo.ts:835-881 | Each delete of the list succeeds when the ones before it have. |
| TenantReset.ClosingDelete | packages/db/scripts/seed-demo.ts:882 | The closing delete succeeds if and only if there is no tenant row, or it has no users and the tenants table carries no audit trigger. |
| TenantReset.DemoDatabase.DeleteWhereTenant | packages/db/scripts/seed-demo.ts:835 | One statement on the stored rows: its whole effect, or an error and no change. |
| TenantReset.DemoDatabase.ResetTenant | packages/db/scripts/seed-demo.ts:829-884 | Every delete up to the audit log succeeds on any intact database; the closing one exactly when it can. No audit entry of the tenant stays either way. If it fails, exactly the tenant's row and its users are left of it, as they were; other tenants' rows and audit entries are untouched. |

## Left out

- Files, processes and the network: directory listings, file texts, answers and failures are parameters.
- Drizzle's own migrations, concurrent migration runners, and files with their own COMMIT: the loop takes no lock.
- Crash recovery inside a seed run: rows are inserted one by one without a transaction, so only complete runs are idempotent.
- The columns of jobs and invoices that are copied from constants (names, addresses, dates, terms): they would add only easy members.
- `findCardFieldLogging` and the directory walk of the card scanner: two patterns tested on each line, easy facts.
- `pool.end()`, idle timeouts and connect queues of the pools: a connect may take any idle connection, open one while there is room, or fail, which covers them.
- Characters outside the basic plane in scanned texts: a character is one element of a text, as digits, separators and dots are.
- Sorting by code units of names outside the basic plane: names are compared character by character.
- IEEE rounding in the ledger: quantities, prices and the tax rate are exact rationals.
- Serialization failures and isolation levels beyond read committed: a failing COMMIT is one of the answers of the protocol.
- Savepoints and nested transactions of the query builder: the helpers shown open none.
- Case folding, trimming and byte order marks in the importer: generated names are lower-case and without blanks.
- Services, user interface, configuration, compliance collectors that only count and format: no hard property.
