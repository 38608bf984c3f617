# Verified model of the Artifact Keeper cores

Artifact Keeper is an artifact registry: a Rust backend, a web client, and plugins
that serve package formats. This project models the parts of it that carry a protocol
or an algorithm of their own and proves what they keep.

| file | what it models |
|---|---|
| `Bits.dfy`, `Text.dfy` | machine words as bit lists; byte, option and string operations |
| `Crc32.dfy`, `Gf2.dfy`, `Residue.dfy`, `Gzip.dfy`, `GzipCrc.dfy` | the RPM plugin's CRC-32, polynomial division over GF(2), the self-check constant, the gzip framing with an independent reader, and the checksum on octets and their binary digits |
| `XmlEscape.dfy`, `RpmName.dfy`, `RpmPrimary.dfy` | XML escaping, RPM file names, and the package list built from both |
| `PypiName.dfy`, `PypiIndex.dfy`, `PypiPages.dfy` | the PyPI plugin's name normalisation, index pages and downloads, and what each request is answered |
| `UploadServer.dfy`, `UploadClient.dfy`, `UploadLoop.dfy` | resumable chunked uploads: the server's session, the client hook over any number of runs, and the hook's loop |
| `UploadSession.dfy`, `UploadEnds.dfy` | what the session row adds up to and when a completion can succeed; how often a chunk is sent and when an upload can be resumed |
| `UploadPause.dfy`, `UploadCancel.dfy`, `UploadResize.dfy`, `UploadOtherFile.dfy`, `UploadTraces.dfy` | uploads that are paused, cancelled, resumed with another chunk size, or resumed with another file, and the pieces of such runs |
| `Migration.dfy` | the two checksum repairs before the database migrator, with a crash after any statement |
| `Admin.dfy`, `AdminRuns.dfy` | provisioning of the first administrator by any number of replicas, and the exact conditions for what it promises |
| `TokenRefresh.dfy` | the single-flight refresh of the session token after 401 answers |
| `EventStream.dfy` | the server-sent-events hook |
| `Metrics.dfy`, `HexDump.dfy` | vulnerability counts per day; the hex dump of the artifact preview |

Code that computes a value is a function; code with a loop or with state is a method
or a class, proved equal to a function of the inputs or of the old state. What is
concurrent is a state machine: a step is what runs between two awaits, statements or
file operations, and `Possible` and `Run` say which sequences of steps there are and
where they lead. Theorems about runs hold for every possible sequence.

## What the proofs brought out

The code does not do everything its comments promise. It is modelled as written; each
of these is stated by the lemma named.

- The comment at migration_repair.rs:157-159 calls a retried boot safe. The divergence
  repair alone is, as long as no checksum is rewritten (`Migration.RetriedAlone`). The
  whole boot is not: once the lockout columns exist, the legacy repair rewrites row 73
  and the three-way match never holds again (`Migration.RecoverableIff`,
  `Migration.StrandedStays`).
- The comment at main.rs:1387-1391 has the file written before the hash so that the
  stored hash stays usable. A crash between the two, or a torn write, leaves a file
  that never works (`Admin.RegenerateWindow`, `Admin.AgreementIff`). So does a
  leftover file met by an insecure ADMIN_PASSWORD (`Admin.RelockWindow`).
- A password change during a regeneration is overwritten (`Admin.LostChange`). Two
  undisturbed starts with an insecure ADMIN_PASSWORD overwrite the password of a settled
  administrator whose file is gone, as it is after a change: the first asks for a change
  again, the second finds no file and regenerates (`AdminRuns.TwoStartsOverwrite`). Over
  all further starts and crashes a chosen password of `admin` survives exactly when an
  administrator exists, none must change, no regeneration with another password is under
  way, and `admin` is itself no administrator (`AdminRuns.ChosenPasswordSurvivesIff`).
  Where no start brings an insecure ADMIN_PASSWORD, the last condition falls away
  (`AdminRuns.SurvivesWithoutRelockIff`). That a password fails to survive otherwise
  may take the removal of the file, which is one of the steps.
- The query of main.rs:1338 takes any administrator. With a second one the server may
  open while `admin` must change its password (`AdminRuns.OtherAdministratorAnswers`,
  `AdminRuns.AnswerIsTrueIff`). An `admin` row that is no administrator is reset by
  every start if nobody else is one (`Admin.CreatesAgain`,
  `AdminRuns.CreatedOnceIff`).
- The upload hook resumes with its own chunk size, not the session's
  (`UploadClient.TilesIff`), and at a counter, not at the first missing chunk. On a
  server with no chunk at work it can request completion with chunks missing exactly
  when the last slice of the run still begins inside the file and some pending chunk is
  the target of none of its slices (`UploadResize.RequestsEarlyIff`). Where the
  completed chunks are the first ones that is so for smaller sizes only
  (`UploadResize.PrefixedEarlyIff`, `UploadResize.FinalizeTooEarly`), and a larger size
  leaves bytes out that the session counts as complete
  (`UploadResize.LongerSlicesSkip`). After a run with another size it happens with the
  session's own size as well (`UploadResize.ResumedTwice`).
- The hook matches a session by path and size only. Any file of that size can be
  reported as uploaded while the first one is stored, if everything had been sent
  (`UploadOtherFile.OtherFileReported`), and in general those that agree with the first
  from the chunk the run goes on with (`UploadOtherFile.ReportableIff`).
- The hook completes an upload cancelled while its last chunk is on its way
  (`UploadCancel.FinalizeAfterCancel`, `UploadCancel.LateCompletionIff`). On the server,
  a request that dies at work blocks its chunk for good (`UploadServer.WedgedIff`,
  `UploadServer.WedgedForever`), and a completion that has found a wrong digest opens a
  session again that was cancelled or completed meanwhile (`UploadSession.ReopensIff`).
- Requests that wait for a token refresh that fails never settle
  (`TokenRefresh.PendingIff`, `TokenRefresh.DroppedForever`).
- `normalize_package_name` is said to follow PEP 503; on the names PEP 503 is about it
  does exactly when the name is empty or starts and ends with a letter or digit
  (`PypiName.AgreesWithPep503`). An upload whose extension is not in lower case passes
  but is not listed (`PypiIndex.ValidatedIsListedIff`), and a package whose name has no
  letter or digit is listed under a link that answers 404 (`PypiIndex.NamelessIff`,
  `PypiIndex.RootLinkResolves`). File names go into links as they are, so one with a #
  is on its page and cannot be followed to (`PypiIndex.FileLinkResolvesIff`).

## Model

| member | source | states |
|---|---|---|
| `Crc32.Turn` | artifact-keeper-example-plugin/plugins/rpm-format/src/lib.rs:424-430 | the inner loop is n shift-and-reduce steps of the register, for any n |
| `Crc32.Compute` | artifact-keeper-example-plugin/plugins/rpm-format/src/lib.rs:420-433 | the two nested loops compute `Checksum`, the function all CRC lemmas are about |
| `Crc32.StepsInjective` | artifact-keeper-example-plugin/plugins/rpm-format/src/lib.rs:424-430 | no two register values meet after any number of turns: the byte step is a bijection on the state |
| `Crc32.BurstDetected` | artifact-keeper-example-plugin/plugins/rpm-format/src/lib.rs:420-433 | two messages that differ only inside at most four consecutive bytes never have the same checksum |
| `Crc32.RegisterWord` | artifact-keeper-example-plugin/plugins/rpm-format/src/lib.rs:421-431 | up to four byte rounds equal one xor with the little-endian word of those bytes followed by all their turns |
| `Residue.SelfCheckIs` | artifact-keeper-example-plugin/plugins/rpm-format/src/lib.rs:411-433 | a message followed by its own little-endian checksum has the checksum 0x2144_DF1C, whatever the message is |
| `GzipCrc.SelfCheckedCrc` | artifact-keeper-example-plugin/plugins/rpm-format/src/lib.rs:411-433 | the same on octets: data followed by the four trailer bytes of its checksum has the checksum 0x2144_DF1C, for every byte string |
| `Crc32.TableDriven` | artifact-keeper-example-plugin/plugins/rpm-format/src/lib.rs:420-433 | the bitwise loop equals the table-driven update of section 8 of RFC 1952, for every register and message |
| `Gf2.DivisionUnique` | artifact-keeper-example-plugin/plugins/rpm-format/src/lib.rs:426-427 | division by the generator 0x1_04C1_1DB7 has one quotient and one remainder |
| `Gf2.ChecksumIsRemainder` | artifact-keeper-example-plugin/plugins/rpm-format/src/lib.rs:420-433 | a word is the complement of the checksum if and only if it is the remainder of the message polynomial, shifted by 32 and with its first 32 bits inverted, modulo the generator |
| `GzipCrc.ToBitsDigits` | artifact-keeper-example-plugin/plugins/rpm-format/src/lib.rs:421-427 | the bits the checksum sees of a byte are its binary digits, the lowest first |
| `GzipCrc.CrcIsRemainder` | artifact-keeper-example-plugin/plugins/rpm-format/src/lib.rs:411-433 | for every byte string: a word is the complement of its checksum if and only if it is the remainder of the polynomial of the binary digits of its bytes, shifted by 32 and with its first 32 coefficients inverted, modulo the generator |
| `Gzip.PushBlock` | artifact-keeper-example-plugin/plugins/rpm-format/src/lib.rs:401-407 | one turn of the loop appends one stored block: final flag, LEN, its complement, the bytes |
| `Gzip.Compress` | artifact-keeper-example-plugin/plugins/rpm-format/src/lib.rs:378-417 | the writer produces header, blocks, checksum and length: the stream the reader lemmas are about |
| `Gzip.ConcatChunks` | artifact-keeper-example-plugin/plugins/rpm-format/src/lib.rs:394-398 | the chunks put together are the data; there are max(1, ceil(n / 65535)) of them and the blocks take n bytes and five more each |
| `Gzip.InflateBack` | artifact-keeper-example-plugin/plugins/rpm-format/src/lib.rs:399-408 | an independent reader of stored blocks gets the chunks back and stops behind the last of them: exactly that one is marked final, and no LEN is truncated |
| `Gzip.GunzipStream` | artifact-keeper-example-plugin/plugins/rpm-format/src/lib.rs:378-417 | the reader accepts a stream of the data if and only if its trailer holds the checksum of the data |
| `Gzip.RoundTrip` | artifact-keeper-example-plugin/plugins/rpm-format/src/lib.rs:378-417 | for every byte string the reader accepts the output and returns the data, from max(1, ceil(n / 65535)) blocks and 18 + n + 5 * blocks bytes |
| `Gzip.HeaderBytes` | artifact-keeper-example-plugin/plugins/rpm-format/src/lib.rs:381-391 | a stream begins with the ten bytes of a gzip header without flags, time or file name |
| `Gzip.BlockBytes` | artifact-keeper-example-plugin/plugins/rpm-format/src/lib.rs:399-407 | a stored block is the byte 0 or 1, the length and its complement, low byte first, and the bytes of the chunk |
| `Gzip.DamageRejected` | artifact-keeper-example-plugin/plugins/rpm-format/src/lib.rs:410-414 | data damaged inside at most four consecutive bytes is refused by the reader |
| `XmlEscape.EscapeIsOnePass` | artifact-keeper-example-plugin/plugins/rpm-format/src/lib.rs:436-442 | five whole-string replacements in this order equal one pass that replaces each character |
| `XmlEscape.UnescapeOfEscape` | artifact-keeper-example-plugin/plugins/rpm-format/src/lib.rs:436-442 | reading the five predefined entities of section 4.6 of XML 1.0 gives every string back |
| `XmlEscape.EscapeInjective` | artifact-keeper-example-plugin/plugins/rpm-format/src/lib.rs:436-442 | no two strings are escaped to the same text |
| `XmlEscape.EscapedIsClean` | artifact-keeper-example-plugin/plugins/rpm-format/src/lib.rs:436-442 | the output has no bare <, >, quote or apostrophe, and every & in it starts an entity |
| `RpmName.PrintOfParse` | artifact-keeper-example-plugin/plugins/rpm-format/src/lib.rs:459-496 | joining the parts of any .rpm file name gives the name back, and the parts are free of the separators they were cut at |
| `RpmName.ParseOfPrint` | artifact-keeper-example-plugin/plugins/rpm-format/src/lib.rs:459-496 | parsing a printed name gives back every combination of parts that a parse can return |
| `RpmName.ParseIff` | artifact-keeper-example-plugin/plugins/rpm-format/src/lib.rs:459-496 | the parse is the one canonical reading of the name: both directions |
| `RpmName.ConventionalName` | artifact-keeper-example-plugin/plugins/rpm-format/src/lib.rs:450-458 | name-version-release.arch.rpm parses into its parts for any name, hyphen-free version and release, and dot-free arch |
| `RpmName.ConventionalVersion` | artifact-keeper-example-plugin/plugins/rpm-format/src/lib.rs:499-508 | for every such name the extracted version is version-release |
| `RpmName.ExtractVersionIff` | artifact-keeper-example-plugin/plugins/rpm-format/src/lib.rs:499-508 | a version is extracted if and only if the file name is printed from canonical parts that have version and release, and it is these two joined |
| `Text.FileNameIff` | artifact-keeper-example-plugin/plugins/rpm-format/src/lib.rs:258 | the file name of a path is the one text without a slash that is all of the path or stands behind a directory and a slash |
| `RpmName.ExtractVersionShape` | artifact-keeper-example-plugin/plugins/rpm-format/src/lib.rs:499-508 | a version always comes with a release, so the version-only arm is never taken, and a result is what the file name holds between name and arch |
| `RpmPrimary.PrimaryXml` | artifact-keeper-example-plugin/plugins/rpm-format/src/lib.rs:247-300 | the loop over the artifacts builds head, one package entry each, and tail |
| `RpmPrimary.DocumentReadsIff` | artifact-keeper-example-plugin/plugins/rpm-format/src/lib.rs:243-310 | whatever the file names are, a reader of the layout gets back the count and one entry for each artifact, in order, with the unescaped parts of its name, if and only if no checksum, which the code writes unescaped, has a character that needs escaping |
| `RpmPrimary.LocationIsPrinted` | artifact-keeper-example-plugin/plugins/rpm-format/src/lib.rs:257-287 | the location of an entry is its own name, version, release and arch printed as a file name |
| `RpmPrimary.EntryIs` | artifact-keeper-example-plugin/plugins/rpm-format/src/lib.rs:257-297 | each slot of an entry: the parts of the file name or the default for a missing one, the checksum, the size in decimal, the file name, and name, version and release again as what the package provides |
| `RpmPrimary.DecimalIs` | artifact-keeper-example-plugin/plugins/rpm-format/src/lib.rs:281-284 | a size is written in decimal digits that give it back, without leading zeros |
| `RpmPrimary.NameElements` | artifact-keeper-example-plugin/plugins/rpm-format/src/lib.rs:265-272 | the name, arch, version and release stand in the elements and attributes of that name |
| `RpmPrimary.FileElements` | artifact-keeper-example-plugin/plugins/rpm-format/src/lib.rs:273-289 | so do the checksum, the size and the location |
| `RpmPrimary.ProvidesElements` | artifact-keeper-example-plugin/plugins/rpm-format/src/lib.rs:290-295 | and the name, version and release of the provided entry |
| `PypiName.Normalize` | artifact-keeper-example-plugin/plugins/pypi-format/src/lib.rs:355-372 | the loop with its separator flag, and the trim, give the lower-cased alphanumeric runs joined by single hyphens |
| `PypiName.AlphabetIs` | artifact-keeper-example-plugin/plugins/pypi-format/src/lib.rs:355-366 | the characters that are kept are the 26 letters in both cases and the ten digits, and a capital becomes the letter at its place in the alphabet |
| `PypiName.SamePackage` | artifact-keeper-example-plugin/plugins/pypi-format/src/lib.rs:355-372 | two names are the same package if and only if their runs agree ignoring case |
| `PypiName.NormalizeIdempotent` | artifact-keeper-example-plugin/plugins/pypi-format/src/lib.rs:355-372 | normalising again changes nothing |
| `PypiName.NormalizedSettled` | artifact-keeper-example-plugin/plugins/pypi-format/src/lib.rs:355-372 | the result holds lower-case letters, digits and hyphens only |
| `PypiName.AgreesWithPep503` | artifact-keeper-example-plugin/plugins/pypi-format/src/lib.rs:351-372 | on names of letters, digits, dots, underscores and hyphens it equals the rule of PEP 503, "Normalized Names", if and only if the name is empty or starts and ends with a letter or digit |
| `PypiName.LeadingSeparator` | artifact-keeper-example-plugin/plugins/pypi-format/src/lib.rs:370-371 | the name -a, where the trim removes the hyphen that PEP 503 keeps |
| `PypiIndex.SortDedupIs` | artifact-keeper-example-plugin/plugins/pypi-format/src/lib.rs:245-246 | sorting and removing duplicates gives a strictly increasing list of the same names |
| `PypiIndex.RootIndexIs` | artifact-keeper-example-plugin/plugins/pypi-format/src/lib.rs:234-263 | the root index is strictly sorted and holds a name if and only if some artifact is listed under it |
| `PypiIndex.PageHolds` | artifact-keeper-example-plugin/plugins/pypi-format/src/lib.rs:271-282 | a project page holds each artifact of that normalised name as often as the list does, and no other: each listed artifact is on one page |
| `PypiPages.HeadIsGet` | artifact-keeper-example-plugin/plugins/pypi-format/src/lib.rs:189-196 | HEAD is answered like GET, for every path |
| `PypiPages.OtherVerbs` | artifact-keeper-example-plugin/plugins/pypi-format/src/lib.rs:189-196 | the answer is 405 if and only if the method is neither GET nor HEAD |
| `PypiPages.RootAnswer` | artifact-keeper-example-plugin/plugins/pypi-format/src/lib.rs:198-201 | for GET and HEAD, /simple/, /simple and / answer a strictly sorted list of names, and a name is in it if and only if some artifact is listed under it |
| `PypiPages.PageIffInRoot` | artifact-keeper-example-plugin/plugins/pypi-format/src/lib.rs:203-209 | with or without a slash at its end, the path of a project answers a page if and only if its normalised name is on the list that the root request answers |
| `PypiPages.RootLinkIff` | artifact-keeper-example-plugin/plugins/pypi-format/src/lib.rs:198-209 | a name on that list leads to a page if and only if it is not empty |
| `PypiPages.PageAnswer` | artifact-keeper-example-plugin/plugins/pypi-format/src/lib.rs:266-317 | the request of a project answers a page with exactly the links of its artifacts, each as often as the list has it, or 404 if there are none |
| `PypiPages.LinkShows` | artifact-keeper-example-plugin/plugins/pypi-format/src/lib.rs:296-309 | the link to a file without #, ? or quote in its name is its path under /packages/, followed by #sha256= and the digest where there is one that is not empty |
| `PypiPages.UnknownPath` | artifact-keeper-example-plugin/plugins/pypi-format/src/lib.rs:217-222 | a path that is none of the three forms answers 404 |
| `PypiPages.ValidIff` | artifact-keeper-example-plugin/plugins/pypi-format/src/lib.rs:66-110 | an upload is accepted if and only if it has a path and data and the lower-cased file name is a stem of at least five dash-separated parts with .whl, or of at least two with .tar.gz or .zip |
| `PypiIndex.PageExistsIff` | artifact-keeper-example-plugin/plugins/pypi-format/src/lib.rs:284-290 | a project answers 200 if and only if its normalised name is in the root index |
| `PypiIndex.RootLinkResolves` | artifact-keeper-example-plugin/plugins/pypi-format/src/lib.rs:198-209 | a link of the root index leads to a project page if and only if the name on it is not empty |
| `PypiIndex.NamelessIff` | artifact-keeper-example-plugin/plugins/pypi-format/src/lib.rs:234-243 | an artifact is listed under the empty name if and only if its extracted name has no letter or digit |
| `PypiIndex.EmptyNameListed` | artifact-keeper-example-plugin/plugins/pypi-format/src/lib.rs:66-110 | an upload named -1.zip passes validation and is listed under the empty name |
| `PypiIndex.FileLinkResolvesIff` | artifact-keeper-example-plugin/plugins/pypi-format/src/lib.rs:303-306 | following the file link of a listed artifact answers 302 for an artifact with that file name if and only if the name has no #, ? or quote, at which the href ends as a path; then it is the first of that name |
| `PypiIndex.LinkIsOwnIff` | artifact-keeper-example-plugin/plugins/pypi-format/src/lib.rs:326-337 | the link of such an artifact leads to its own path if and only if no other path with that file name comes before it |
| `PypiIndex.HashedLinkFails` | artifact-keeper-example-plugin/plugins/pypi-format/src/lib.rs:303-306 | the upload a#b-1.zip passes validation, is listed, and its link answers 404 |
| `PypiIndex.ValidatedIsListedIff` | artifact-keeper-example-plugin/plugins/pypi-format/src/lib.rs:66-110 | an upload that passed validation is listed if and only if its extension is written in lower case |
| `PypiIndex.UpperCaseUnlisted` | artifact-keeper-example-plugin/plugins/pypi-format/src/lib.rs:375-387 | the upload a-1.ZIP passes validation and is on no page |
| `PypiIndex.NameAndVersionIff` | artifact-keeper-example-plugin/plugins/pypi-format/src/lib.rs:375-407 | name and version extraction together return a pair if and only if the file name says it: the first two dash-separated parts of a wheel, the two sides of the last hyphen of a source archive |
| `UploadServer.StepInv` | artifact-keeper/backend/src/services/upload_service.rs:282-419 | every database statement and file operation keeps: one request at work on a chunk at most, its row telling how far it is; each completed chunk counted at most once; a verified file is complete and is the declared one |
| `UploadServer.StoredIsDeclared` | artifact-keeper/backend/src/services/upload_service.rs:456-525 | in every run of any requests from any clients, a stored file is the declared file, and the completed-chunk counter is the size of a set of completed chunks |
| `UploadServer.WedgedIff` | artifact-keeper/backend/src/services/upload_service.rs:300-390 | a chunk becomes wedged, uploading with nobody at work on it, if and only if the request at work on it is dropped, its write stops half-way, or the temporary file is gone when it writes |
| `UploadServer.WedgedRunIff` | artifact-keeper/backend/src/services/upload_service.rs:300-390 | at the end of any run a chunk is wedged if and only if it was before or a step of the run did it |
| `UploadServer.WedgedFromStart` | artifact-keeper/backend/src/services/upload_service.rs:300-390 | a new session reaches it with one claimed and dropped request |
| `UploadServer.WedgedForever` | artifact-keeper/backend/src/services/upload_service.rs:327-348 | such a chunk stays so in every later run, and nothing is ever stored for the session |
| `UploadSession.CreatedIff` | artifact-keeper/backend/src/services/upload_service.rs:183-276 | a session is created if and only if the file is not empty and the chunk size is from 1 MB to 256 MB; it has one pending row for each chunk and nothing received |
| `UploadSession.CountersAddUp` | artifact-keeper/backend/src/services/upload_service.rs:376-411 | in every run the two counters grow by the number and by the bytes of the requests it counts |
| `UploadSession.ReceivedInFullIff` | artifact-keeper/backend/src/services/upload_service.rs:392-411 | in every run whose requests carry whole chunks, in any order, repeated, raced, dropped or retried, no byte is counted twice, and the bytes received are the size of the file if and only if all chunks are counted |
| `UploadSession.InProgressHasChunks` | artifact-keeper/backend/src/services/upload_service.rs:400 | in every run a session in progress has a counted chunk to resume behind, and a new one has none |
| `UploadSession.OverStaysOver` | artifact-keeper/backend/src/services/upload_service.rs:290-294 | once completed or cancelled, and with no wrong digest to be recorded, a session stays so in every run, and no request that comes later is taken |
| `UploadSession.ReopensIff` | artifact-keeper/backend/src/services/upload_service.rs:463-508 | a completed or cancelled session can become open again if and only if a completion that has found a wrong digest has yet to record it |
| `UploadSession.StorableIff` | artifact-keeper/backend/src/services/upload_service.rs:470-525 | with all chunks in and nothing stored, some run stores the file if and only if the temporary file is the declared one now: nothing repairs a wrong one |
| `UploadSession.WrongDigestFails` | artifact-keeper/backend/src/services/upload_service.rs:485-514 | completing a file of the declared size and another content ends with the session failed; one of another size, or one that is gone, changes nothing; neither is stored |
| `UploadSession.CancelledStoresNothing` | artifact-keeper/backend/src/services/upload_service.rs:529-559 | after a cancellation no run has a temporary file or stores anything |
| `UploadClient.UploadsTile` | artifact-keeper-web/src/hooks/use-chunked-upload.ts:178-265 | over any number of failed, closed, paused and resumed runs with the session's chunk size, the ranges written are the chunks of the file in order without gap or overlap; when completion is requested they reach the end, every chunk is complete, and the temporary file, unless cancelled away, is the file |
| `UploadClient.StepKeeps` | artifact-keeper-web/src/hooks/use-chunked-upload.ts:165-438 | what each step of page or server keeps: completed chunks are a prefix, at most the next one is at work, all requests on the way carry their own slice, the counter a run resumes at is not ahead |
| `UploadClient.FedKept` | artifact-keeper/backend/src/api/handlers/upload.rs:218-269 | the server half of it, for one statement of one request |
| `UploadClient.CounterBehind` | artifact-keeper-web/src/hooks/use-chunked-upload.ts:323-326 | the chunk a run resumes at is never beyond the completed ones |
| `UploadClient.TilesIff` | artifact-keeper-web/src/hooks/use-chunked-upload.ts:308-326 | the slices of a run resumed at chunk k, with something done and something to do, hold exactly the remaining bytes if and only if its chunk size is the session's |
| `UploadResize.RequestsCompletionIff` | artifact-keeper-web/src/hooks/use-chunked-upload.ts:178-265 | a run at chunk k of a session with no chunk at work can get as far as the completion request if and only if its chunk size is above zero and the last of its slices begins inside the file |
| `UploadResize.RequestsEarlyIff` | artifact-keeper-web/src/hooks/use-chunked-upload.ts:310-326 | whatever runs came before, such a run can request completion with a chunk incomplete if and only if it can request it at all and some pending chunk is the one no slice from k on is taken for |
| `UploadResize.PrefixedEarlyIff` | artifact-keeper-web/src/hooks/use-chunked-upload.ts:310-326 | where the first k chunks are complete and the last is pending, that is so if and only if the chunk size is above zero and below the session's |
| `UploadResize.LongerSlicesSkip` | artifact-keeper-web/src/hooks/use-chunked-upload.ts:310-326 | with a larger chunk size no slice of a run that requests completion holds a byte from k times the session's to k times its own chunk size; where the first k chunks were complete and the last pending, all chunks are marked complete nevertheless |
| `UploadResize.ResumedTwice` | artifact-keeper-web/src/hooks/use-chunked-upload.ts:323-326 | four chunks, the first sent, then a run with twice the size, then one with the session's own size, which starts at the counter: it requests completion with the second chunk never sent |
| `UploadResize.FinalizeTooEarly` | artifact-keeper-web/src/hooks/use-chunked-upload.ts:310-326 | for every file of two chunks or more, every chunk to resume at and every smaller chunk size, a run from the start requests completion with the last chunk never sent |
| `UploadOtherFile.OtherFileReported` | artifact-keeper-web/src/hooks/use-chunked-upload.ts:318-326 | for every file and every other one of its size, a run from the start reports the other as uploaded while the first is stored |
| `UploadOtherFile.ReportableIff` | artifact-keeper-web/src/hooks/use-chunked-upload.ts:315-326 | a run at chunk k of a session that holds the first k chunks and nothing else, with the session's chunk size and no request on its way, can report its file if and only if the file agrees with the session's from that chunk on |
| `UploadClient.ReportedIsStored` | artifact-keeper-web/src/hooks/use-chunked-upload.ts:263-280 | success is reported only when the file that created the session is stored, in every run with any files and chunk sizes |
| `UploadEnds.ThreeAttempts` | artifact-keeper-web/src/hooks/use-chunked-upload.ts:200-260 | no run of one upload sends a chunk more than three times |
| `UploadEnds.FailsThrice` | artifact-keeper-web/src/hooks/use-chunked-upload.ts:243-260 | a chunk that fails is sent again after the first failure and after the second, and the upload ends after the third |
| `UploadEnds.NeverResumed` | artifact-keeper-web/src/hooks/use-chunked-upload.ts:244-267 | once an upload is complete, its session is expired, or the user has cancelled it, no run resumes the session |
| `UploadEnds.ClosedCancelsNothing` | artifact-keeper-web/src/hooks/use-chunked-upload.ts:454-468 | once the page is closed, cancelling there forgets nothing: the saved session stays whatever the server does, until another upload |
| `UploadEnds.ResumesIff` | artifact-keeper-web/src/hooks/use-chunked-upload.ts:313-338 | after every run, an upload that is closed is resumed by the next one if and only if nothing has made the page forget it, the server has it in progress, and the file has its size; it goes on at the counter, neither paused nor cancelled |
| `UploadPause.PauseHolds` | artifact-keeper-web/src/hooks/use-chunked-upload.ts:178-194 | from chunk i at the loop head, on its way or to be retried, in every run that begins with a pause and has no resumption or cancellation, no request for a chunk beyond the one in flight reaches the server; at the loop head, none at all |
| `UploadPause.UnpauseSends` | artifact-keeper-web/src/hooks/use-chunked-upload.ts:440-452 | after such a run the next loop head sends nothing, and lifting the pause then sends exactly the next chunk |
| `UploadCancel.CancelStops` | artifact-keeper-web/src/hooks/use-chunked-upload.ts:179-194 | after a cancellation at chunk i no later chunk is sent in any run until another upload starts |
| `UploadCancel.LastChunkIff` | artifact-keeper-web/src/hooks/use-chunked-upload.ts:179-265 | a cancelled upload is bound for completion if and only if its last chunk was being sent or retried, or none was left, when it was cancelled, and it has not given up since |
| `UploadCancel.LateCompletionIff` | artifact-keeper-web/src/hooks/use-chunked-upload.ts:261-265 | on a server that answers its chunk, a cancelled upload can still request completion if and only if its last chunk is being sent or retried, or none is left; one that waits for a pause to be lifted cannot |
| `UploadCancel.FinalizeAfterCancel` | artifact-keeper-web/src/hooks/use-chunked-upload.ts:261-265 | for every file, an upload cancelled while its last chunk is on its way requests completion of a session the server has cancelled |
| `UploadLoop.Handle` | artifact-keeper/backend/src/services/upload_service.rs:282-419 | a request handled without interruption is a run of its statements that ends answered; it is answered with success when nothing was in its way |
| `UploadLoop.Hook.UploadChunk` | artifact-keeper-web/src/hooks/use-chunked-upload.ts:196-205 | one attempt at one chunk: a run that sends the slice of this chunk and ends with the answer, or without one |
| `UploadLoop.Hook.TryChunk` | artifact-keeper-web/src/hooks/use-chunked-upload.ts:200-260 | the retry loop is a run of the steps: it goes on to the next chunk after an answer of success, and ends after three failures or an expired session |
| `UploadLoop.Hook.UploadChunks` | artifact-keeper-web/src/hooks/use-chunked-upload.ts:178-265 | the chunk loop is a run of the steps, to which the theorems about runs apply; when it reaches completion the server holds the whole file, and it always does when nothing fails, pauses or cancels |
| `UploadLoop.Hook.Complete` | artifact-keeper-web/src/hooks/use-chunked-upload.ts:263-280 | an undisturbed completion stores the declared file, clears the saved session and reports it |
| `Migration.Connection.RepairLegacy073Checksum` | artifact-keeper/backend/src/migration_repair.rs:47-106 | the legacy repair, stopped after any number of statements, is the program `LegacyRepair` run that far |
| `Migration.Connection.RepairRelease119Divergence` | artifact-keeper/backend/src/migration_repair.rs:180-314 | the divergence repair, stopped after any number of statements, is the program `DivergenceRepair` run that far; it reports success if and only if the statements sufficed |
| `Migration.Connection.RunServer` | artifact-keeper/backend/src/main.rs:177-197 | a boot is legacy repair, divergence repair and migrator check in this order; it goes on if and only if the statements sufficed and the check passes |
| `Migration.UninterruptedRepair` | artifact-keeper/backend/src/migration_repair.rs:180-314 | the divergence repair leaves every other database alone; on a v1.1.9 one it installs all of the schema and the three current checksums, and then has nothing left to do |
| `Migration.RetriedAlone` | artifact-keeper/backend/src/migration_repair.rs:150-161 | interrupted after n of ten statements and retried alone, it reaches the uninterrupted result if and only if n is at most 7 or at least 10 |
| `Migration.BootAcceptedIff` | artifact-keeper/backend/src/main.rs:177-197 | exactly the databases that a whole boot brings through the migrator check |
| `Migration.RecoverableIff` | artifact-keeper/backend/src/migration_repair.rs:215-220 | after any sequence of crashed boots from v1.1.9 the next whole boot is accepted if and only if the first crash behind the first statement was behind the last one too |
| `Migration.SettledStays` | artifact-keeper/backend/src/migration_repair.rs:188-220 | a repaired database stays repaired through any further boots and crashes |
| `Migration.StrandedStays` | artifact-keeper/backend/src/migration_repair.rs:69-105 | lockout columns beside a stale row 75 are refused by every later boot, however many follow |
| `Admin.StepSerialised` | artifact-keeper/backend/src/main.rs:1321-1333 | the advisory lock: in every step exactly the holder is between lock and commit |
| `Admin.AgreementIff` | artifact-keeper/backend/src/main.rs:1377-1414 | a step keeps "the password file of a pending change holds the password that works" if and only if it is none of: a crash between writing a different password and committing it, a torn write, and asking for a change again while another file is there |
| `Admin.CalmRunsAgree` | artifact-keeper/backend/src/main.rs:1321-1414 | in every run without such a step, for any number of replicas, the file agrees whenever the lock is free |
| `Admin.CarefulRunsAgree` | artifact-keeper/backend/src/main.rs:1355-1414 | the same from what an operator can promise: no insecure ADMIN_PASSWORD outside demo mode, no crash or torn write while the password is regenerated, no administrative reset of the user |
| `AdminRuns.FreshAgrees` | artifact-keeper/backend/src/main.rs:1321-1414 | both from a deployment no replica has touched yet whose file, if any, agrees |
| `AdminRuns.CreatedOnceIff` | artifact-keeper/backend/src/main.rs:1336-1341 | from a fresh deployment every run commits one create at most, if and only if the table has no row named admin or has an administrator of any name |
| `AdminRuns.AnswerIsRowRead` | artifact-keeper/backend/src/main.rs:1336-1424 | whatever other replicas and API calls do in between, the answer is the flag of the row that was read or created |
| `AdminRuns.AnswerIsTrueIff` | artifact-keeper/backend/src/main.rs:1336-1501 | with no user change while it holds the lock, a start answers with the committed flag of the row named admin if and only if it created that row, relocked an existing one, or read a row with the same flag |
| `AdminRuns.OtherAdministratorAnswers` | artifact-keeper/backend/src/main.rs:1338-1340 | two administrators, and a start that reads the settled one: the answer is false while admin must change its password |
| `AdminRuns.FreshAnswers` | artifact-keeper/backend/src/main.rs:1376-1424 | with admin as the only administrator and no user change during provisioning, every answer from a fresh deployment on is true exactly when the committed row must change |
| `AdminRuns.PasswordChangesIff` | artifact-keeper/backend/src/main.rs:1405-1412 | a step that is no API call changes the stored password if and only if it commits a regenerated or created one that differs |
| `AdminRuns.UndisturbedKeepsPassword` | artifact-keeper/backend/src/main.rs:1376-1424 | where no user is changed while a replica provisions, a settled password stays through every step but API calls, at any point of any run |
| `AdminRuns.ChosenPasswordSurvivesIff` | artifact-keeper/backend/src/main.rs:1336-1424 | a settled password of admin survives every run without API calls, whatever the replicas' environments, if and only if some administrator exists, none of them must change, no regeneration with another password is under way, and admin is no administrator |
| `AdminRuns.SurvivesWithoutRelockIff` | artifact-keeper/backend/src/main.rs:1376-1424 | the same for runs without an insecure ADMIN_PASSWORD outside demo mode: there the last condition falls away |
| `AdminRuns.TwoStartsOverwrite` | artifact-keeper/backend/src/main.rs:1357-1412 | a settled administrator without a file and two undisturbed starts with ADMIN_PASSWORD=admin: the second one overwrites the password |
| `AdminRuns.FreshCreateAlone` | artifact-keeper/backend/src/main.rs:1321-1341 | in every run from a fresh deployment a create under way has found no administrator, and none appears beside it; the condition for survival decides in all these states |
| `AdminRuns.CreatedIsConfigured` | artifact-keeper/backend/src/main.rs:1426-1501 | whatever other replicas do between the read and the commit of a create, it commits ADMIN_PASSWORD where it is set and not empty and the generated password otherwise; it must be changed if and only if it was generated, or is insecure outside demo mode |
| `Admin.InsecureIff` | artifact-keeper/backend/src/main.rs:1604-1620 | the passwords that count as insecure, spelled out |
| `Admin.RegenerateWindow` | artifact-keeper/backend/src/main.rs:1387-1412 | a crash between file and commit leaves a file that does not work |
| `Admin.RelockIff` | artifact-keeper/backend/src/main.rs:1357-1375 | an insecure ADMIN_PASSWORD makes a settled administrator change again; the file agrees then if and only if there is none or it holds the stored password |
| `Admin.RelockWindow` | artifact-keeper/backend/src/main.rs:1357-1375 | the file of a crashed create outlives a create with a chosen password and is promised again later |
| `Admin.LostChange` | artifact-keeper/backend/src/main.rs:1392-1414 | a password change during a regeneration is overwritten, and the server is told to stay locked |
| `Admin.CreatesAgain` | artifact-keeper/backend/src/main.rs:1470-1488 | with an admin row that is no administrator, every start creates again and resets its password |
| `Admin.Deployment.ProvisionAdminUser` | artifact-keeper/backend/src/main.rs:1290-1502 | the whole call, uninterrupted, is one of the runs of the steps, ends with the lock free, and returns what that run returns; spelled out without those steps: with no administrator the row, the file and the answer follow from ADMIN_PASSWORD and demo mode, with one from its flag, the file and ADMIN_PASSWORD, and skipping changes nothing |
| `TokenRefresh.StepKeepsInv` | artifact-keeper-web/src/lib/sdk-client.ts:124-173 | what each handler segment keeps: one refresh in flight and the flag saying so, the queue holding exactly the waiters of that round, one leader a round, and how far each request is |
| `TokenRefresh.SingleFlight` | artifact-keeper-web/src/lib/sdk-client.ts:77-173 | in every run there is at most one refresh in flight, a queue only while it runs, and a request is sent again at most once, exactly when it can be rebuilt and its own round succeeded |
| `TokenRefresh.JoinsOrLeads` | artifact-keeper-web/src/lib/sdk-client.ts:124-140 | in every run a 401 joins the round in flight and starts no other, or leads a new round when none is in flight, and touches no other request |
| `TokenRefresh.WaitersRetriedAtSuccess` | artifact-keeper-web/src/lib/sdk-client.ts:80-83 | every waiter of a round is sent again in the step that ends the round well, not before |
| `TokenRefresh.DroppedForever` | artifact-keeper-web/src/lib/sdk-client.ts:166-172 | a waiter of a failed round never settles and is never sent again, whatever follows |
| `TokenRefresh.PendingIff` | artifact-keeper-web/src/lib/sdk-client.ts:124-173 | in every run, a request of an ended round still waits if and only if it is a waiter and the round failed; lost callbacks are waiters of successful rounds, all those that cannot be rebuilt among them |
| `TokenRefresh.LostIff` | artifact-keeper-web/src/lib/sdk-client.ts:127-135 | a step loses a callback if and only if it ends the round well and the request cannot be rebuilt, or it is the failure of a waiter sent again |
| `TokenRefresh.RetrySettles` | artifact-keeper-web/src/lib/sdk-client.ts:127-135 | the answer to a request sent again settles its caller; a failure settles the leader with the error and loses the callback of a waiter |
| `TokenRefresh.DroppedWaiter` | artifact-keeper-web/src/lib/sdk-client.ts:166-172 | two requests and one refresh that fails: the leader gets its 401 back and the waiter stays pending |
| `TokenRefresh.Client.OnTokenRefreshed` | artifact-keeper-web/src/lib/sdk-client.ts:80-83 | the loop over the callbacks resends every subscriber once, in order, and empties the queue |
| `TokenRefresh.Client.OnUnauthorized` | artifact-keeper-web/src/lib/sdk-client.ts:124-150 | a 401 joins the queue or starts the refresh |
| `TokenRefresh.Client.OnRefreshAnswered` | artifact-keeper-web/src/lib/sdk-client.ts:152-173 | the end of a refresh: the flag falls, waiters are resent or dropped, the leader retries or gets its 401 back |
| `EventStream.StepKeepsOne` | artifact-keeper-web/src/hooks/use-event-stream.ts:22-74 | each step keeps one open source or one pending timer, the one the hook holds, while mounted, and neither otherwise |
| `EventStream.EveryRun` | artifact-keeper-web/src/hooks/use-event-stream.ts:22-74 | in every run of mounts, errors, timers and cleanups, sources and timers together are one while mounted and none otherwise |
| `EventStream.QuietAfterCleanup` | artifact-keeper-web/src/hooks/use-event-stream.ts:66-73 | after a cleanup nothing can happen but another mount |
| `EventStream.StepsTakeTurns` | artifact-keeper-web/src/hooks/use-event-stream.ts:22-74 | in every run a mount and a timer that fires leave one open source and no timer, an error of the source leaves one timer and no source, and a cleanup leaves neither |
| `EventStream.Hook.OnError` | artifact-keeper-web/src/hooks/use-event-stream.ts:53-61 | the error handler closes its source and starts a timer unless cancelled |
| `EventStream.Hook.Cleanup` | artifact-keeper-web/src/hooks/use-event-stream.ts:66-73 | the cleanup clears the timer, closes the source and forgets it |
| `Metrics.AggregateHistories` | artifact-keeper-web/src/lib/dt-utils.ts:16-73 | the nested loops, the sort and the mapping give `Points` of all entries put together |
| `Metrics.PointsAre` | artifact-keeper-web/src/lib/dt-utils.ts:26-72 | the days are strictly increasing whole UTC days, exactly those that occur, each with the sums of its own entries in all four severities |
| `Metrics.Conserved` | artifact-keeper-web/src/lib/dt-utils.ts:32-54 | the points together hold the sum of all entries that carry a time: nothing lost, nothing counted twice |
| `Metrics.PointsShowSums` | artifact-keeper-web/src/lib/dt-utils.ts:32-72 | in each severity a point is the integer sum of that count over the entries of its day |
| `Metrics.SumsConserved` | artifact-keeper-web/src/lib/dt-utils.ts:32-54 | in each severity the integer sum over the points is the one over all entries that carry a time |
| `Metrics.OrderDoesNotMatter` | artifact-keeper-web/src/lib/dt-utils.ts:32-54 | the result depends only on the multiset of entries, not on the order of projects or within a history |
| `HexDump.HexDump` | artifact-keeper-web/src/lib/content-type.ts:130-146 | the loop over offsets builds the dump the reading lemma is about |
| `HexDump.DumpReadsBack` | artifact-keeper-web/src/lib/content-type.ts:130-146 | splitting a dump at its newlines gives its lines, line k shows offset 16k and a hex column of 48 characters, and the columns hold exactly the first min(length, maxBytes) bytes |
| `HexDump.TextShows` | artifact-keeper-web/src/lib/content-type.ts:138-143 | the text column of a line has one character for each of its bytes: printable ASCII as itself, anything else as a dot |
| `HexDump.LineShows` | artifact-keeper-web/src/lib/content-type.ts:133-143 | every character of a line below offset 2^32: eight digits of the offset, two blanks, the two digits of byte i at 10 + 3i, blanks where there is none, two blanks, the text |
| `Metrics.DayOf` | artifact-keeper-web/src/lib/dt-utils.ts:36-37 | the start of the UTC day that holds a time stamp, negative ones included |

## Left out

- RpmPrimary.DocumentReadsIff: the reader knows this layout and is not an XML parser, and refuses bare special characters everywhere; the step from characters to UTF-8 bytes is left out, and the bytes go through `Gzip.RoundTrip`.
- Gzip.RoundTrip: the reader takes stored blocks byte by byte, with BFINAL and BTYPE as the low bits of the first, since such blocks start and end on byte boundaries; other block types and optional header fields are refused.
- UploadClient.UploadsTile: requires fewer than 2^31 chunks, where the server's 32-bit chunk count wraps, and the same file from the resumed chunk on. One session is followed at a time, and one upload of it at a time; hashing, creation and the cancellation checks before the first chunk, and whether the saved entry could be written, are not steps of the model.
- UploadResize.RequestsEarlyIff: requires that no chunk is at work and that the counter is below the number of chunks; with all chunks counted nothing is missing (`UploadResize.AllCounted`).
- UploadCancel.LateCompletionIff: a progress callback that cancels between an answer and the next loop head is covered as a step, though only such a callback can run there; the condition speaks of a server that has answered the chunk, can, or would answer a retry. Left aside are chunks at work in another request, which may or may not finish in time.
- UploadServer.StoredIsDeclared: SHA-256 is the content itself, so two files with one digest are one file; the expiry of a session is its clean-up, and ownership checks are left out.
- UploadSession.ReceivedInFullIff: requires fewer than 2^31 chunks and requests of whole chunks. The server counts a chunk whatever its length, so those of other requests need not add up (`UploadSession.CountersAddUp` holds for all).
- UploadEnds.ResumesIff: where the session is not taken up the hook creates another one, which is another session to follow.
- UploadLoop.Hook.UploadChunks: ends where the page waits for a pause to be lifted; the steps after it are those of `UploadClient.Step`.
- Upload progress, speed, remaining time and the status labels of the hook.
- Migration.RecoverableIff: rows 73 to 75 are present whenever the migrations table is, the same table is seen by both repairs, and the two sets of checksums differ slot by slot. The migrations themselves are not modelled, only the check of these three rows.
- Admin.StepSerialised: a replica whose database session is lost, so that another one takes the lock while it still writes the file, is outside the model; a lost session is a crash here.
- Admin.AgreementIff: a stored hash is the one password it verifies. The authentication provider column, the banner, and directory creation are left out; users are neither created nor deleted by other calls, and the answer under SKIP_ADMIN_PROVISIONING is false whatever the row says.
- TokenRefresh.SingleFlight: covers the 401 path of a local instance; the 403 redirect, the authentication endpoints and remote instances never touch the mutex. Building the refresh address is taken not to fail.
- Metrics.PointsAre: time stamps are integers inside the range of JavaScript dates, and years 0 to 99, which Date.UTC moves to the twentieth century, are not treated apart; the date label is left out.
- HexDump.LineShows: offsets of more than eight digits, from 2^32 on, move the columns; `HexDump.DumpReadsBack` covers them.
- HexDump.DumpReadsBack: `maxBytes` is a natural number.
- PypiIndex.FileLinkResolvesIff: of what a client makes of an href, character references, percent signs and white space are left out; the page escapes none of them.
- PypiName.Normalize: lower-casing is ASCII only, here and in PypiIndex; characters whose lower case is ASCII, such as the Kelvin sign, are not covered.
- The HTML text of the PyPI pages, the JSON index of both plugins, repomd.xml and the empty filelists and other documents: fixed text around the data modelled here.
- What the event stream does with an event: it invalidates cached queries and touches neither the connection nor the timer.
- HTTP, SQL text, row locking inside one statement, React rendering, and everything else of the backend and the web client.
