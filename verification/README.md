# Verified model of a proxy configuration service

The program keeps each user's proxy nodes and rules as a draft, validates and publishes it as a Clash/Mihomo configuration, and
serves it under a subscription token with a QR code. This project models its five hardest parts in Dafny and proves what they are
for. `dafny verify dfyconfig.toml` checks everything.

1. **QR encoder** (`Gf256`, `Gf256Powers`, `ReedSolomon`, `ReedSolomonDistance`, `QrTables`, `Message`, `Blocks`, `Zigzag`,
   `Patterns`, `Symbol`, `Create`, `Placement`, `Encoder`, `FormatCode`, `SymbolStandard`). The field and its generator, Reed-Solomon blocks with their minimum
   distance, interleaving, drawing in place, masking and the choice of the mask. `Encoder.Encode` is proved end to end: a reader of
   the symbol gets the input back. `FormatCode` and `SymbolStandard` tie words, places, tables and pictures to the standard's own.
2. **Private rulesets** (`RulesetState`, `RulesetProtocol`, `RulesetStore`, `RulesetGap`, `RulesetRecovery`). A step relation over database and
   file tree with a crash between any two durable writes and any interleaving of users; the routines of the source are methods
   whose every write is recorded as a step of that relation; recovery and account deletion work on the whole tree.
3. **Browser draft protocol** (`DraftPage`, `DraftProtocol`, `DraftSafety`, `DraftFlows`, `DraftKept`, `DraftOvertaken`,
   `DraftUnvalidated`, `DraftStamps`, `DraftWaits`, `DraftStored`, `DraftRules`, `DraftFields`), with the canonical serializer, the merge by content and the reordering of the cards (`StableText`, `Reconcile`, `ChildOrder`).
4. **Config compiler** (`RuleText`, `RuleList`, `RuleTables`, `ProxyGroups`, `BuildConfig`, `RuleDecision`, `RuleOrder`, `Normalizer`,
   `NormalWords`). Rules as text, the ordered rule list
   with its meaning for a packet, the graph of groups, and node normalization.
5. **Caches, limiters, guards** (`SubscriptionCache`, `SubscriptionRuns`, `RegisterLimiter`, `LoginLimiter`, `DeadlineGuard`).

## Where the code does not do all that is promised

- The registration limiter reads the clock before it takes the lock. A call that overtakes another can prune an entry that still
  counts, so the limit is exact only for calls in clock order or a limit of one (`RegisterLimiter.LimitKeptExactly`).
- The login limiter counts in an audit log that is cut after 90 days, so it is exact only for windows up to that
  (`LoginLimiter.LimitHoldsExactly`). A configured window below 60 seconds counts as 60.
- A load replaces edits made while it was under way (`DraftOvertaken.LoadLosesEdit`). One that lands while a save is queued or a
  check of an edited draft is under way starts the generations again at 0 beneath it: the answer to the save or to the check then
  replaces later edits of the same number. Exactly then (`DraftOvertaken.GuardExact`).
- After such a landing a draft can be published that was never validated: the answer to an old check stamps new edits, or an old save
  puts its draft back while a validation waits for it, so that the validation is sent while a newer save is still queued behind it.
  `DraftStamps.PublishGuardExact` says exactly when.
- "Saved" means stored under the seven rules of `DraftStored`, and without any one of them it can fail (`DraftRules.RuleNeeded`): a
  login, logout or change of account abandons saves that go on, under the next account's session if need be; a load can be older than a
  save; a check can reach the server after a newer save. By its waits a publication never overtakes an older save, unless the session
  is lost meanwhile: `flushDraftSave` then waits for what happens to be queued, and a save queued once the session is back escapes it.
- While a published YAML cannot be read, a cleanup takes every file for referenced and releases every reservation; a later readable
  publication then removes fresh uploads (`RulesetGap.UnreadableLosesUpload`).
- Without a users/ directory, a foreign instance marker does not protect reservations
  (`RulesetRecovery.ReservationsOfMissing`).
- One normalization pass is not always enough (`Normalizer.NormalOnce`, `Normalizer.TwiceQuotedChanges`), a priority name listed twice
  repeats a provider (`RuleList.OrderedIsPermutation`; the program's own names do not, `BuildConfig.TablePermuted`), and the page trims a
  target that the server does not (`RuleText.TrimmedModifier`).
- A close that comes between the timer's snapshot and its call on a socket leaves that connection without a shutdown
  (`DeadlineGuard.DeadlineCuts`, `DeadlineGuard.CloseOvertakesTimer`).

## Reading the model

- The text to encode is given by its UTF-8 bytes. Bytes are integers below 256 and bit operations are defined on integers; a grid is a sequence of rows in a class that draws in place.
- The user lock is mutual exclusion: one job per user at a time. Registration and its undoing take no lock, as in the source. The clock
  of the ruleset model never goes back.
- Hashes are opaque: a file name carries its digest, and the cache digest is injective.
- A validation outcome, what a YAML text refers to, the penalty of a matrix, str() and list literals of Python, and the database's
  answers to other users' actions are arbitrary values or functions.
- The server of the browser protocol answers a draft in a normal form that is its own normal form; validation and publication go
  through the waits of `flushDraftSave`, and what they wait for lets them go on before anything else happens. Other flushes (the
  save button, imports, uploads) may queue the present draft at any time, and edits may come from an import that is answered while the
  login layer is open; buttons behind that layer cannot be clicked, and the publish button only under a stamp.
- Answers to loads, saves, validations and publications carry no user field (src/api.py:999-1046), so they do not change the session;
  a load signs the page in itself.
- Text trimming, digits and letter case are those of ASCII.
- The login log keeps seconds and time runs in microseconds; every clock read and every query is a step.

## Model

| member | source | states |
|---|---|---|
| `Gf256.GfMultiply` | design/assets/qrcode.js:25-32 | the shift-and-reduce loop computes the carry-less product modulo 0x11d that the field laws below are about |
| `Gf256.MulComm` | design/assets/qrcode.js:25-32 | multiplication is commutative, for all bytes |
| `Gf256.MulAssoc` | design/assets/qrcode.js:25-32 | multiplication is associative, for all bytes |
| `Gf256.MulAddLeft` | design/assets/qrcode.js:25-32 | multiplication distributes over XOR |
| `SymbolStandard.FieldProduct` | design/assets/qrcode.js:25-32 | the product differs from the carry-less product of binary polynomials by a multiple of x^8 + x^4 + x^3 + x^2 + 1 |
| `Gf256Powers.OrderOfTwo` | design/assets/qrcode.js:25-46 | the powers of 2 return to 1 for the first time after 255 steps, so 2 generates every non-zero byte |
| `Gf256Powers.LogExists` | design/assets/qrcode.js:25-46 | every non-zero byte is a power of 2 below 255 |
| `Gf256Powers.NoZeroDivisors` | design/assets/qrcode.js:25-32 | a product of non-zero bytes is non-zero |
| `ReedSolomon.GeneratorRoots` | design/assets/qrcode.js:34-46 | the product of the linear factors vanishes at 2^0 to 2^(degree-1) |
| `ReedSolomon.GeneratorMonic` | design/assets/qrcode.js:34-46 | the coefficient that the in-place build drops is 1 |
| `ReedSolomon.ReedSolomonDivisor` | design/assets/qrcode.js:34-46 | the in-place build ends with the product of the linear factors without its leading coefficient |
| `ReedSolomon.ReedSolomonRemainder` | design/assets/qrcode.js:48-58 | the shift register computes the remainder |
| `ReedSolomon.RemainderRoots` | design/assets/qrcode.js:34-58 | for every data row and degree, data followed by its remainder evaluates to zero at every root (section 7.5 of ISO/IEC 18004) |
| `ReedSolomonDistance.Vandermonde` | design/assets/qrcode.js:48-58 | distinct powers with vanishing sums have only zero coefficients |
| `ReedSolomonDistance.CodewordWeight` | design/assets/qrcode.js:48-58 | a codeword of at most 255 symbols is zero or has more than eccLength non-zero symbols |
| `ReedSolomonDistance.RemainderUnique` | design/assets/qrcode.js:48-58 | the remainder is the only row of its length that completes the data to a codeword |
| `ReedSolomonDistance.UniqueDecoding` | design/assets/qrcode.js:48-58 | a block with at most eccLength / 2 damaged symbols is nearer to the drawn block than to any other codeword |
| `QrTables.LayoutFacts` | design/assets/qrcode.js:80-84 | for all 15 versions short and long blocks add up to the data and the raw codewords, and a block has at most 255 symbols |
| `SymbolStandard.BlockTable` | design/assets/qrcode.js:7-9 | blocks, short blocks, their data and error-correction symbols of all 15 versions, written out from table 9 |
| `SymbolStandard.DataTable` | design/assets/qrcode.js:11-23 | the data codewords of all 15 versions, written out from table 7 |
| `Message.MessageRoundTrip` | design/assets/qrcode.js:60-77 | header, bytes, terminator and filler read back as the bytes |
| `SymbolStandard.MessageStart` | design/assets/qrcode.js:60-77 | the stream starts 0100, then the number of bytes, then the bytes |
| `SymbolStandard.MessageEnd` | design/assets/qrcode.js:60-71 | after the bytes come 0000 and then 11101100 and 00010001 by turns up to the capacity |
| `Message.BuildBits` | design/assets/qrcode.js:60-71 | the pushes produce exactly header, bytes, terminator, alignment and alternating filler |
| `Message.Pack` | design/assets/qrcode.js:72-77 | eight bits to a data codeword |
| `Message.UnpackPacked` | design/assets/qrcode.js:72-77 | packing whole bytes loses nothing |
| `Blocks.SplitBlocks` | design/assets/qrcode.js:85-95 | the blocks are the consecutive pieces of the data, each with the remainder of its own data |
| `Blocks.Interleave` | design/assets/qrcode.js:85-106 | the column-wise output holds every block of the layout, data then error correction |
| `Blocks.Deinterleave` | design/assets/qrcode.js:85-106 | reading the blocks back gives the data, and each block is a codeword |
| `SymbolStandard.SentInColumns` | design/assets/qrcode.js:97-106 | symbols are sent column by column, within a column block by block, all data before the error correction |
| `Zigzag.WalkFacts` | design/assets/qrcode.js:199-215 | the zigzag visits every cell outside column 6 exactly once and no other |
| `SymbolStandard.WalkOrder` | design/assets/qrcode.js:199-215 | the place of every cell in the walk in closed form: pairs of columns from the right without column 6, upwards first and then in turns, right cell first |
| `Zigzag.CollectPlaced` | design/assets/qrcode.js:199-215 | for any reserved grid, reading along a walk gives back the bits that found room |
| `Zigzag.PlacedFrame` | design/assets/qrcode.js:199-215 | placing changes no reserved cell and no cell off the walk |
| `Patterns.Capacity` | design/assets/qrcode.js:11-23 | every version leaves room for all its raw codeword bits outside the function patterns |
| `Create.ComputeAlignment` | design/assets/qrcode.js:108-117 | the inserting loop yields the alignment centres in ascending order |
| `SymbolStandard.AlignmentCentres` | design/assets/qrcode.js:108-117 | the centres of all 15 versions, written out from annex E |
| `Create.CreateMatrix` | design/assets/qrcode.js:119-176 | exactly the function cells are reserved, each showing its own pattern, everything else light |
| `SymbolStandard.FinderPicture` | design/assets/qrcode.js:135-147 | in each of the three corners the outer ring and the inner square are dark, the ring between them and the separator light |
| `SymbolStandard.AlignmentPicture` | design/assets/qrcode.js:148-161 | around every pair of centres but the three at the finders: dark ring, light ring, dark middle |
| `SymbolStandard.TimingAlternates` | design/assets/qrcode.js:131-134 | the timing lines alternate all the way between the finders, through the alignment patterns on them |
| `Symbol.Matrix.SetFunction` | design/assets/qrcode.js:127-130 | one cell is shaded and reserved, no other changes |
| `Symbol.Matrix.DrawFinder` | design/assets/qrcode.js:135-144 | a finder with its light border, clipped to the symbol; nothing else changes |
| `Symbol.Matrix.DrawFormatBits` | design/assets/qrcode.js:178-197 | both copies of the format word of the mask and the dark module are drawn; nothing else changes; FormatCodeword below says which words these are |
| `FormatCode.FormatCodeword` | design/assets/qrcode.js:178-184 | each of the eight format words, without 0x5412, carries its mask number on top and is a multiple of x^10 + x^8 + x^5 + x^4 + x^2 + x + 1 |
| `FormatCode.FormatDistance` | design/assets/qrcode.js:178-184 | any two of the eight words differ in at least seven bits |
| `FormatCode.FormatNearest` | design/assets/qrcode.js:178-184 | a word with up to three wrong bits is nearer to the one drawn than to any other |
| `SymbolStandard.FormatCopies` | design/assets/qrcode.js:178-197 | read at the coordinates of figure 25, both copies of a drawn symbol are the format word of its mask, and the dark module is dark |
| `SymbolStandard.FormatSurvives` | design/assets/qrcode.js:178-197 | a copy seen with up to three wrong modules is still nearest to the word of the symbol's own mask |
| `Symbol.Matrix.DrawVersion` | design/assets/qrcode.js:163-174 | both copies of the version bits; nothing else changes |
| `FormatCode.VersionCodeword` | design/assets/qrcode.js:163-168 | each version word carries the version on top and is a multiple of x^12 + x^11 + x^10 + x^9 + x^8 + x^5 + x^2 + 1 |
| `SymbolStandard.VersionCopies` | design/assets/qrcode.js:163-174 | read at the coordinates of figure 27, both version copies are the version word |
| `Placement.DrawCodewords` | design/assets/qrcode.js:199-215 | the three nested loops place the bit stream along the zigzag into the free cells |
| `Placement.StreamBit` | design/assets/qrcode.js:199-215 | the bit that the loop extracts is the bit of the stream |
| `Placement.ApplyMask` | design/assets/qrcode.js:217-236 | exactly the free cells that the mask applies to are flipped |
| `SymbolStandard.MaskMeaning` | design/assets/qrcode.js:217-228 | where each of the eight masks flips a module, by residues: sixths of the product, thirds against halves |
| `Placement.MaskTwice` | design/assets/qrcode.js:230-236 | masking twice with one mask restores the grid |
| `Encoder.FormatTop` | design/assets/qrcode.js:178-184 | the five upper format bits are the mask number under the mask pattern |
| `Encoder.ReadMask` | design/assets/qrcode.js:178-197 | a reader finds the mask number in the drawn format cells |
| `Encoder.BuildCodewords` | design/assets/qrcode.js:60-106 | the codewords carry the bytes: de-interleaved and parsed they give them back, block by block as codewords |
| `Encoder.CandidateCodewords` | design/assets/qrcode.js:230-236 | unmasking a masked symbol leaves the same codewords along the walk |
| `Encoder.ReadCandidate` | design/assets/qrcode.js:277-299 | each of the eight masked symbols reads back as the input bytes |
| `Encoder.ChooseMask` | design/assets/qrcode.js:281-299 | the trial loop undoes every mask and keeps the first one of least penalty, for any penalty function |
| `Encoder.Longest` | design/assets/qrcode.js:277-281 | exactly the inputs of up to 412 bytes fit |
| `Encoder.Encode` | design/assets/qrcode.js:277-299 | fails exactly above 412 bytes; otherwise the least version, a symbol that reads back as the input, every function cell of that version and mask (the words, places and pictures of FormatCode and SymbolStandard), and no mask with a smaller penalty |
| `RulesetProtocol.StepKeepsInv` | src/ruleset_store.py:122-155 | every durable write and every crash keeps what the lock holder relies on, immutable version names and the quotas |
| `RulesetProtocol.ProtectedKept` | src/ruleset_store.py:771-814 | while the account exists no step removes or changes a file that the saved draft or the published YAML refers to |
| `RulesetProtocol.VersionUnchanged` | src/ruleset_store.py:817-861 | no step changes the content of a version file that stays |
| `RulesetProtocol.ReservedKept` | src/ruleset_store.py:299-396 | while its marker runs and the account is there, a reserved upload stays reserved through a step if and only if no commit refers to it and no cleanup starts that finds it referenced or finds an unreadable YAML; its owner's deletion aside |
| `RulesetProtocol.ReservationStarts` | src/api.py:1341 | the last write of an upload starts that protection |
| `RulesetProtocol.QuotaAlways` | src/ruleset_store.py:697-710 | in every state of every run, crashes in the middle of a write included, each user stays within 32 MiB and 100 files |
| `RulesetProtocol.ReferencedSurvives` | src/ruleset_store.py:763-814 | over whole runs with other users and crashes between, a file is there unchanged as long as the draft or the readable YAML names it or the YAML cannot be read |
| `RulesetProtocol.ReservedSurvives` | src/ruleset_store.py:299-396 | over whole runs, unreadable YAML included, a fresh upload is there unchanged until its reservation expires, a commit refers to it, its owner deletes it, a cleanup overlooks it or the account goes |
| `RulesetGap.CleanupReleases` | src/ruleset_store.py:739-757 | a cleanup releases a running reservation if and only if the draft or the readable YAML names the file or the YAML cannot be read |
| `RulesetGap.UnreadableLosesUpload` | src/ruleset_store.py:771-814 | with an unreadable YAML a second upload and a readable publication lose the first upload, step by step |
| `RulesetStore.UserStore.PendingFilenames` | src/ruleset_store.py:299-330 | returns a name if and only if it is a version name whose marker reads as an expiry later than now; every other marker goes |
| `RulesetStore.UserStore.Promote` | src/ruleset_store.py:389-396 | releases exactly the reservations that the saved draft now refers to and those without a file |
| `RulesetStore.UserStore.Cleanup` | src/ruleset_store.py:771-814 | removes a file if and only if it is not referenced, not stuck and not a version file whose marker expires later than now; an abandoned or unreadable marker goes with its file; every write is a protocol step |
| `RulesetStore.UserStore.Write` | src/ruleset_store.py:817-861 | quota, existing file, conflict and success: the outcome, accepted within 32 MiB and 100 files, the files afterwards and the protocol steps taken |
| `RulesetStore.UserStore.ReserveUpload` | src/ruleset_store.py:333-366 | the file is reserved until now plus the time to live |
| `RulesetStore.UserStore.Upload` | src/api.py:1326-1341 | the locked upload: its cleanup leaves the stuck, the referenced and the files still reserved, the write is accepted exactly when the rest has room, and the whole state afterwards |
| `RulesetGap.QuotaHolders` | src/ruleset_store.py:790-861 | an upload is refused for the number of files only when 100 are stuck, referenced or under a marker that has not expired, so abandoned uploads do not hold the quota |
| `RulesetStore.UserStore.SaveUserDraft` | src/api.py:1083-1102 | the locked draft save: the new row, then the promotion |
| `RulesetStore.UserStore.PublishDraft` | src/api.py:1474-1530 | the locked publication: the new row, the promotion and the cleanup against the new references; nothing when validation fails |
| `RulesetStore.UserStore.DropUserFile` | src/api.py:1398-1410 | a referenced file is refused, any other is removed |
| `RulesetStore.Usage` | src/ruleset_store.py:697-710 | the bytes and the number of the files |
| `RulesetRecovery.Service.InstanceMatches` | src/ruleset_store.py:471-513 | true only for a marker written before; a missing marker is written and counts as foreign this time |
| `RulesetRecovery.Service.RetryTombstones` | src/ruleset_store.py:545-576 | tombstones of missing users go, one tombstone of an existing user without a directory is restored, the others stay |
| `RulesetRecovery.Service.Recover` | src/ruleset_store.py:527-637 | the whole failure-free pass, stage by stage; with an empty user table it changes nothing |
| `RulesetRecovery.Service.DeleteUser` | src/ruleset_store.py:655-694 | the row goes first; every tree that a crash can leave is a deletion stage, and at the end nothing of the user is left |
| `RulesetRecovery.PassCleans` | src/ruleset_store.py:527-637 | with a matching marker, or without users/, a pass leaves no directory, reservation or tombstone of any missing user |
| `RulesetRecovery.TwoPassesClean` | src/ruleset_store.py:471-637 | a pass that finds no marker writes its own, so two passes leave nothing of any missing user unless the marker was another database's |
| `RulesetRecovery.PassSpares` | src/ruleset_store.py:527-637 | in every other case it leaves every directory and reservation as it was |
| `RulesetRecovery.PassKeeps` | src/ruleset_store.py:527-637 | a pass never loses or overwrites anything of an existing user |
| `RulesetRecovery.ForeignKeepsDirectories` | src/ruleset_store.py:471-513 | with a foreign or missing marker a pass removes no user directory |
| `RulesetRecovery.ReservationsOfMissing` | src/ruleset_store.py:578-637 | by the state before the pass: a missing user's reservations survive if and only if the table is empty, or users/ is there or comes back with a tombstone and the marker does not match |
| `RulesetRecovery.ForeignReservationsLost` | src/ruleset_store.py:578-637 | without users/ a foreign marker does not protect reservations |
| `RulesetRecovery.DeletionCompletes` | src/ruleset_store.py:640-694 | from every crash point of a deletion one pass removes the rest of that user and nothing of the others |
| `DraftPage.Client.MarkDirty` | design/assets/app.js:657-677 | an accepted edit raises the dirty generation by one and voids the stamp; a refused one puts the server's copy back |
| `DraftPage.Client.ApplyResponse` | design/assets/app.js:546-559 | an answer lands only while its generation is the dirty one |
| `DraftPage.Client.CompleteAuthentication` | design/assets/app.js:975-1003 | what a login keeps of the page and whether the draft is loaded again |
| `DraftFields.FieldsMove` | design/assets/app.js:515-704 | for every event: what draft, generations, stamp, error, corruption flag, timer, queue, session and the failed-save flag become, field by field |
| `DraftFields.CorruptedStays` | design/assets/app.js:657-677 | over whole runs a corrupted draft takes no edit and no new generation until the user agrees, an answer comes in or the session changes |
| `DraftFields.SentAfterAnswer` | design/assets/app.js:684-704 | in every run a signed-in user's check or publication is sent only when the last save settled before it was answered, not failed |
| `DraftFlows.RunWired` | design/assets/app.js:684-702 | in every run a validation or publication waits for saves that are queued, and has at most one request under way in its login epoch |
| `DraftSafety.RunFine` | design/assets/app.js:586-704 | the invariant of generations, queue, epochs and session holds in every state of every run |
| `DraftSafety.NoEditForgotten` | design/assets/app.js:586-704 | in every run saved <= dirty, and a signed-in user's unsaved edit has an armed timer, a queued save, a shown error or a reload under way |
| `DraftSafety.DraftUntouched` | design/assets/app.js:67-80 | over whole runs draft, generations and stamp change only through edits, answers of the present login epoch and the resets, so no older answer, failure or refusal changes them but for the switch to another account |
| `DraftSafety.AnsweredInEpoch` | design/assets/app.js:595-644 | a save whose answer the page awaits was issued in the present epoch |
| `DraftKept.NoEditLost` | design/assets/app.js:515-559 | when no load lands over a queued save or a check of an edited draft, no event but edits, loads, logout and a change of account changes an edited draft beyond normalization |
| `DraftKept.PublishesValidated` | design/assets/app.js:3607-3711 | under the same guard every publication carries exactly the draft that the server last answered ok for, with no edit in between |
| `DraftOvertaken.LoadLosesEdit` | design/assets/app.js:515-540 | from every opened page: an edit made during the first load is discarded by it, although the guard is kept |
| `DraftOvertaken.GuardExact` | design/assets/app.js:515-559 | when a load lands, every continuation without another load keeps its edits if and only if no save was queued and no check of an edited draft was under way |
| `DraftStamps.PublishGuardExact` | design/assets/app.js:3623-3711 | when a load lands, every continuation without another load publishes only what was last answered ok if and only if no check under way can still stamp an edited draft and no save is queued but before the one that a validation in its loop waits for |
| `DraftUnvalidated.StaleStampPublished` | design/assets/app.js:3623-3711 | from every opened page, a run that publishes a draft that was never validated |
| `DraftWaits.PublishesAlone` | design/assets/app.js:684-702 | in every guarded run whose loads land on a page at rest and in which the session is not lost while a check waits, a publication goes out only when every queued save and every check under way is of its own generation |
| `DraftStored.SavedIsStored` | design/assets/app.js:546-559 | in every run that obeys seven rules on the page's own events, a loaded draft shown as saved is exactly the normal form of what the server holds |
| `DraftRules.RuleNeeded` | design/assets/app.js:586-704 | for each of the seven rules, from every opened page, a run that obeys the other six and ends with a draft shown as saved that the server does not hold |
| `DraftStored.WriteKeepsStored` | design/assets/app.js:595-644 | a write stored while the draft is shown as saved keeps it so if and only if it carries the same draft, whatever its generation and epoch |
| `StableText.StableIffSame` | design/assets/app.js:2610-2618 | on JSON trees the text is the same if and only if the trees are the same up to key order |
| `StableText.ReadableAll` | design/assets/app.js:2610-2618 | two texts can be told apart wherever they stand, whatever follows them |
| `Reconcile.MergeNodes` | design/assets/app.js:481-513 | each place takes the local node chosen by content or else the incoming one; the list itself is kept exactly when the contents agree place by place |
| `Reconcile.UsedOnce` | design/assets/app.js:481-513 | each local node is used at most once |
| `Reconcile.NewOnlyWhenUsedUp` | design/assets/app.js:481-513 | a new node is taken only when all local nodes of its content are used |
| `Reconcile.OwnPlaces` | design/assets/app.js:481-513 | when the contents agree place by place, duplicates included, every node keeps its place |
| `Reconcile.Editor.ReconcileDraft` | design/assets/app.js:481-513 | the local draft ends with the incoming content, and what did not change keeps its objects |
| `ChildOrder.Grid.Reorder` | design/assets/app.js:3132-3146 | the children end up exactly in the desired order; no insertion happens if and only if the desired list is already at the front |
| `RuleText.ParsePrinted` | design/assets/app.js:1317-1323 | a printed rule parses back, for any value, if and only if the modifier is printed or the trimmed target is not the modifier |
| `RuleText.TrimmedModifier` | design/assets/app.js:1317-1323 | a target that only reads as the modifier once trimmed is lost by the page |
| `RuleText.CatalogPrinted` | src/config_builder.py:802-816 | the catalog splits a printed rule into its parts if and only if the modifier is printed or the target is not the modifier |
| `RuleText.TargetsAgree` | src/config_builder.py:656-665 | page, catalog and validator name the same target |
| `RuleText.ParseMatch` | design/assets/app.js:1317-1323 | all behind the first comma of a MATCH rule is its target, but for a modifier at the end |
| `RuleText.ParseShort` | design/assets/app.js:1317-1323 | a rule of two fields has a target and no value, a rule of one field neither; the validator agrees |
| `RuleOrder.MatchSpelled` | src/config_builder.py:679-680 | a MATCH rule is one whose first field is that word in any case between blanks, and no other |
| `RuleList.PriorityOrdered` | src/config_builder.py:218-236 | the loops compute the order that OrderedEarlier and OrderedIsPermutation are about |
| `RuleOrder.OrderedEarlier` | src/config_builder.py:218-236 | of any two items the earlier is a priority name listed before the other, or a priority name before any other, or a plain name before a deferred one, or earlier in the mapping or in the deferred list |
| `RuleOrder.ItemsOrdered` | src/config_builder.py:693-697 | the entries of a source's table come out all, in that order for the program's own priority and deferred names |
| `RuleList.OrderedIsPermutation` | src/config_builder.py:218-236 | the result is a permutation of the mapping if and only if no priority name it holds is listed twice |
| `RuleList.BuildRules` | src/config_builder.py:763-799 | the custom part of build_rules computes the list that the lemmas below are about |
| `RuleList.BuildBase` | src/config_builder.py:693-761 | the base list of each source from its table, targets overridden by the draft |
| `RuleOrder.BaseText` | src/config_builder.py:683-761 | the base list of every source, rule text by rule text: fixed rules, table entries with the chosen target, endings |
| `RuleList.DecisionOrder` | src/config_builder.py:683-799 | every packet is decided part by part: custom rules, priority providers, base rules, appended providers, then the fallback; DecidedBy says by which index |
| `RuleDecision.DecidedBy` | src/config_builder.py:763-799 | every packet's decision by the indices of the given lists: the hit custom rule of least index, else priority provider, base rule, appended provider, else the custom MATCH of least index, the base MATCH of least index, MATCH,Proxy or none |
| `RuleList.MatchRulesLast` | src/config_builder.py:789-799 | no ordinary rule follows a MATCH rule |
| `RuleList.EndsInFallback` | src/config_builder.py:789-799 | every base source ends in a MATCH rule, one of which the validator also finds |
| `ProxyGroups.GenerateProxyGroups` | src/clash_meta_gen.py:125-203 | the appended groups, in order, for any node list |
| `ProxyGroups.AppDefaults` | src/clash_meta_gen.py:125-203 | each of the 24 application groups lists its default first, then the other ways, then every node in order |
| `ProxyGroups.OtherDefaults` | src/clash_meta_gen.py:125-203 | the ten other groups, member by member |
| `ProxyGroups.FullClosed` | src/clash_meta_gen.py:125-203 | every member of every group is a node, a group or a built-in target |
| `ProxyGroups.MinimalClosed` | src/config_builder.py:532-549 | the same for the minimal groups |
| `ProxyGroups.Terminates` | src/clash_meta_gen.py:125-203 | following any choice of members ends, after at most four groups, if and only if no node is named like a group |
| `ProxyGroups.MinimalTerminates` | src/config_builder.py:532-549 | the same for the minimal groups, after at most two groups |
| `ProxyGroups.ReferenceErrors` | src/config_builder.py:639-665 | the validator reports no reference error if and only if every member and every target exists |
| `ProxyGroups.KnownTargets` | src/config_builder.py:642-642 | besides nodes and groups exactly four targets are accepted |
| `ProxyGroups.BuiltClean` | src/config_builder.py:683-799 | a full configuration whose chosen targets exist draws no reference error |
| `ProxyGroups.DustinWinTargets` | src/config_builder.py:165-196 | every entry of the DustinWin table names a group or a built-in target |
| `ProxyGroups.Lhie1Targets` | src/config_builder.py:101-163 | every entry of the lhie1 table names a group or a built-in target |
| `ProxyGroups.TablesUsable` | src/config_builder.py:693-746 | so the tables meet the condition of a clean build on their own |
| `BuildConfig.TablePermuted` | src/config_builder.py:218-236 | with the priority and deferred names the program uses, the entries of any table with distinct names come out as a permutation |
| `BuildConfig.BuildGroupsAndRules` | src/config_builder.py:302-308 | the profile chooses the group builder; minimal with a base source has one rule, every other combination goes through the ordered table and build_rules |
| `BuildConfig.BuiltDecision` | src/config_builder.py:469-488 | in the configuration built from the table, every packet gets MATCH,Proxy or the stated order of decisions |
| `RuleDecision.BuiltDecidedBy` | src/config_builder.py:469-488 | the same by indices for every profile and source of a built configuration |
| `BuildConfig.FinalKnown` | src/config_builder.py:763-799 | the finished list names only existing targets if and only if the kept custom rules, all providers and the ordinary base rules do |
| `BuildConfig.MinimalBaseClean` | src/config_builder.py:469-470 | minimal with a base source drops custom rules and providers and draws no reference error, for all nodes |
| `BuildConfig.MinimalNoBaseClean` | src/config_builder.py:471-478 | minimal without a base source draws no reference error if and only if every kept custom rule and every provider names a node, a minimal group or a built-in target |
| `BuildConfig.FullClean` | src/config_builder.py:479-488 | any other profile draws none if and only if, besides, every table entry names an existing target after the draft's choices |
| `BuildConfig.ProviderTargetKnown` | src/config_builder.py:656-665 | a provider is in order exactly when its target exists |
| `Normalizer.NormalizeProxy` | src/normalizer.py:63-156 | the field-by-field cleaning computes the node and the warnings that the lemmas of NormalWords and the fixed-point lemmas are about |
| `Normalizer.CleanEch` | src/normalizer.py:279-306 | the same for ech-opts |
| `NormalWords.HopRead` | src/normalizer.py:246-276 | a hop interval is kept as n exactly when it is a positive whole number n, its digits between blanks, or a range from n to a number not below it |
| `NormalWords.HopOfNode` | src/normalizer.py:92-98 | a Hysteria 2 node keeps its interval as those seconds and loses any other; other nodes keep what they have |
| `NormalWords.TruthWords` | src/normalizer.py:309-320 | the values that count as true and as false, words in any case between blanks |
| `NormalWords.PortRead` | src/normalizer.py:48-60 | a port from 1 to 65535 is read from its number or its digits, zeros before them allowed |
| `NormalWords.AddressFields` | src/normalizer.py:74-90 | what becomes of type, name and port |
| `NormalWords.ServerField` | src/normalizer.py:190-235 | the server is the address that its text, or the text of its one element, stands for; any other list is written out |
| `NormalWords.EchField` | src/normalizer.py:100-109 | what becomes of every key of ech-opts, and when the whole goes |
| `NormalWords.BrowserMoved` | src/normalizer.py:111-119 | a fingerprint that names a browser moves to the client fingerprint |
| `NormalWords.OwnClientKept` | src/normalizer.py:111-134 | a client fingerprint of its own is kept, whatever the fingerprint says |
| `NormalWords.FingerprintLeft` | src/normalizer.py:111-125 | a fingerprint that is left is null or a certificate pin |
| `NormalWords.ClientField` | src/normalizer.py:127-134 | otherwise the client fingerprint is trimmed, or gone when blank or none |
| `NormalWords.SmuxField` | src/normalizer.py:136-153 | multiplexing goes exactly when Vision is on, it is enabled and Brutal is not |
| `NormalWords.ExtensionsKept` | src/normalizer.py:63-156 | every field the cleaning does not know stays as it is |
| `NormalWords.WarningsTell` | src/normalizer.py:63-156 | a field is dropped if and only if its warning is given |
| `Normalizer.NormalOnce` | src/normalizer.py:63-156 | one pass reaches a fixed point without further warnings if and only if the node's server is not a one-element list, or its text, whose element is again such a text |
| `Normalizer.TwiceQuotedChanges` | src/normalizer.py:190-224 | such a server, for which the second pass changes the node again |
| `Normalizer.PassesSettle` | src/normalizer.py:190-224 | repeated passes reach a fixed point, at most one more per level of nesting |
| `Normalizer.NormalAllTwice` | src/storage.py:748-791 | normalizing a list again (save, build, serve, second migration) changes nothing if and only if no given server is nested twice |
| `Normalizer.ServerResult` | src/normalizer.py:190-235 | the server a pass leaves is trimmed and has no brackets to lose |
| `RegisterLimiter.Limiter.Limited` | src/auth_service.py:135-154 | refused exactly when the queue holds the limit; the key (unknown for an empty address) moves to the end, the queues of other addresses stay but for the evicted one, and the table stays within its cap |
| `RegisterLimiter.MovedKeeps` | src/auth_service.py:135-154 | a call for one address leaves every other queue as it was, but for the least recently used one when 10000 keys are there and a new one comes |
| `RegisterLimiter.PruneFront` | src/auth_service.py:147-148 | the popping loop drops exactly the expired front |
| `RegisterLimiter.WindowHolds` | src/auth_service.py:135-154 | when no clock read is more than `late` behind an earlier one, any window shorter by `late` holds at most `limit` accepted registrations |
| `RegisterLimiter.OrderedQueue` | src/auth_service.py:135-154 | when calls take the lock in clock order, the queue stays sorted and inside the window |
| `RegisterLimiter.LimitKeptExactly` | src/auth_service.py:135-154 | every full window holds at most the limit in every run if and only if one registration is allowed or the calls take the lock in clock order |
| `LoginLimiter.LoginService.TryLogin` | src/auth_service.py:85-121 | the locked attempt with anything else happening between its steps: blocked exactly when, in the log it read, the failed rows of the column in the window and not before any success of the column in the window number at least the limit, or the address is blocked; one more failed check on record exactly when denied |
| `LoginLimiter.TallyCounts` | src/storage.py:328-362 | the two queries count the rows of the log that are failures of the column, in the window and not before any success in it |
| `LoginLimiter.SuccessRestarts` | src/storage.py:339-347 | after a success in the window only failures of its second or later count |
| `LoginLimiter.Keep` | src/auth_service.py:85-121 | every step of every interleaving keeps the log, the attempts and the bound consistent |
| `LoginLimiter.LimitHoldsExactly` | src/storage.py:297-362 | in every interleaving every window without a success holds at most the limit of failed checks of an account, if and only if the configured window is at most 90 days |
| `LoginLimiter.ForgottenRun` | src/storage.py:304-311 | for a longer window, a run with one failed check too many |
| `SubscriptionCache.Server.Respond` | src/api.py:639-695 | every GET and HEAD answers for the first row of the token what ServeAnswers requires, which is what the server without a cache answers |
| `SubscriptionCache.ServeAnswers` | src/api.py:639-695 | 404 for no row or a disabled user, 409 for a blank text or an unusable document, 500 for an unreadable one; otherwise the counts, and as body nothing for HEAD, the dump of the document with the present token's URLs and the normal nodes, or the published text when there is nothing to update |
| `SubscriptionCache.Server.CacheGet` | src/api.py:607-612 | a hit moves to the end, a miss changes nothing |
| `SubscriptionCache.TouchExact` | src/api.py:607-612 | the entry of a key, wherever it stands, moves to the end with its value |
| `SubscriptionCache.Server.CachePut` | src/api.py:615-620 | the entry goes to the end and only the least recently used one is evicted |
| `SubscriptionCache.PutExact` | src/api.py:615-620 | the new entry goes last; its own old one, or with 32 others the first one, leaves |
| `SubscriptionCache.SameKeySameBuild` | src/api.py:598-604 | rows with one key build the same body and counts |
| `SubscriptionCache.NoBaseWords` | src/config_builder.py:41-48 | the four words, in any case between blanks, that excuse a missing MATCH rule |
| `SubscriptionRuns.CacheInvisible` | src/api.py:593-695 | over every interleaving of requests and writes, the cached server gives each request the answer of the plain one, and holds at most 32 entries |
| `SubscriptionRuns.DraftChangesAnswer` | src/storage.py:663-712 | a draft write changes what is served if and only if the published rules have no MATCH line, nothing else is wrong and the rule type moves between base rules and none |
| `DeadlineGuard.DeadlineCuts` | src/importers.py:45-117 | for every event sequence: once the timer has fired, a registered connection is left without a shutdown if and only if a close took it off the list before the timer's snapshot or closed its duplicate before the timer came to it |
| `DeadlineGuard.CloseOvertakesTimer` | src/importers.py:90-117 | that exception is real |
| `DeadlineGuard.ClosedOnce` | src/importers.py:70-117 | each duplicate is closed at most once, and none is left when a close and the registrations are done |
| `DeadlineGuard.FetchGuard.Register` | src/importers.py:74-88 | a connection joins the list, or is cut and closed at once when the guard has expired or closed |
| `DeadlineGuard.FetchGuard.FireTimer` | src/importers.py:90-102 | the timer shuts down everything on the list and leaves it there |
| `DeadlineGuard.FetchGuard.Close` | src/importers.py:104-117 | the list is emptied and each duplicate on it is closed once |

## Left out

- RuleText.ParsePrinted: trimming and upper case are those of ASCII, so Unicode white space around a target is not covered.
- StableText.StableIffSame: trees hold no undefined value, no NaN or infinity and no lone surrogate; keys sort by code point.
- DraftKept.NoEditLost: speaks of edited drafts and of runs in which no load overtakes a write; `DraftOvertaken` shows what happens in the others.
- DraftStored.SavedIsStored: the server is taken to act on a request before its failure is reported, or not at all.
- RulesetRecovery.Service.DeleteUser: a failing move or removal, which the source retries later from the tombstone, is a crash here.
- RulesetStore.UserStore.Cleanup: files that cannot be unlinked are an input; markers are always removable.
- RulesetRecovery.Service.Recover: symbolic links and unreadable names in the trees are not modelled.
- LoginLimiter.LimitHoldsExactly: the wall clock never goes back, and a failed check whose audit row cannot be written is not modelled; the limit per address is an arbitrary refusal.
- Normalizer.NormalOnce: Python's str(), list literals, IPv6 parsing and the certificate pattern are functions with the few laws stated in `Sound`.
- SubscriptionRuns.CacheInvisible: the public base URL is fixed while the process runs.
- QR penalty score: any function of the matrix.
- Share-link parsers, pasted node lists, `validate_proxies`, remote fetching, TLS and DNS pinning: thin mappings over libraries.
- Provider options, DNS and other blocks of `build_config`, profile generation beyond groups and rules: field copies.
- `validate_proxy_fields` and the other checks of `validate_config`: they enter the cache model as an arbitrary verdict.
- HTTP routing, headers, cookies, CSRF, sessions, password hashing, SQLite, YAML, JSON and regular-expression libraries: calls into code outside the model.
- DOM rendering, toasts, focus handling and the Streamlit pages: user interface.
- Lock files, path and symbolic-link checks: the lock is mutual exclusion and a path is a user and a file name.
