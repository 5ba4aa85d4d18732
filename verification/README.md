# Newsletter retention, delivery and event paging: a verified model

The program sends newsletters in batches, records what came of them, answers queries about it page
by page, and finally retires old batches: a dry run writes every row of a batch to an escrow file
with a public manifest and a private artifact, and a later apply run deletes exactly these rows.
This project models those parts in Dafny and proves what they promise. `dafny verify dfyconfig.toml`
checks all of it.

## What is modelled

**The escrow format** (`Utf16`, `Utf8`, `JsonGrammar`, `JsonScan*`, `JsonExact`,
`JsonDuplicateKeyScanner`, `JsonValue`, `Escrow*`). Text is a sequence of UTF-16 code units, so lone
surrogates are included. `JsonGrammar` is the grammar of RFC 8259, sections 2 to 7, as derivation
trees with their texts; the reference scan and the index-moving scanner class are both proved exact
against it. String escaping is QuoteJSONString, section 25.5.2 of ECMA-262. `EscrowGroups` and
`EscrowStages` say declaratively, over a whole file, what a correct escrow and a correct beginning of
one are; the accumulator is a class with the fields of the original, proved to accept exactly the
correct beginnings. Loader, writer, line splitter and batch reader are loops and classes of their
own, and theorems connect them: what the loader finishes the writer can write, what the writer wrote
the reader verifies and returns, in any chunks. `EscrowLayout` spells the lines out name by name, and
`EscrowDates` shows which texts are dates and that they compare as times.

**Retention apply** (`StableSort`, `CanonicalJson`, `Retention*`, `SnapshotKeys`). The database is a
value of five maps; a transaction is an object over a copy that is kept or dropped. Apply is a loop
over the bindings of the artifact with a source, a lock and a store. Proved are exact deletion,
partial progress, the repeat run, and that a dry run's output is accepted by apply because four
separate sorts agree. `RetentionEndToEnd` puts dry run and apply together: applying what a dry run
issued to the unchanged database completes and removes the whole escrow (`UndisturbedApply`;
`DryRunThenApply` runs the two one after the other). `RetentionCandidates` says when the candidate
queries answer from a database, and `RetentionComplete` what follows for it as a whole: output exists
if and only if there are due batches that can be retired (`Retires`), and after
`RetireDueBatches` the database has lost exactly the site's batches from before the cutoff with all
their rows. `RetentionLayout` spells out the texts that the two hashes are taken of.
`RetentionExample` applies these theorems to a small database and concrete queries, so their premises
can be met together.

**Scheduling and delivery** (`TaskQueue`, `NewsletterSend`, `SqsPool`, `EventIngestion`). Code runs
without interruption up to its next await, so each class method is one such step, and a run is any
sequence of steps; `Valid()` holds after each. In the queue and the pool ghost fields keep the
history of a run, and the properties are stated about them. Sending and ingestion have their steps as
values besides: each method's new state is that of the step, and the bound on sends and the fate of
an acknowledged event are theorems over all sequences of steps. Dry run and apply are two steps of
the ingestion model, with anything in between.

**Event paging** (`EventPagination`, `EventWalk`, `EventCursor`). The union of per-type streams, cut
short, against filter, sort and slice; and walks along cursors over fixed and over changing tables.

A thrown error is the value `None`, `false` or a failing outcome; messages are not modelled. Inputs
that decide what cannot be seen from here (answers of queries, faults, clocks, handler outcomes) are
parameters or arbitrary choices. Proofs by induction are written out; Dafny's automatic induction is
switched off.

## Findings

- A line handed over as bytes is also accepted behind a UTF-8 byte order mark, which the decoder
  drops. As text a line has one accepted spelling per value (`EscrowCodec.ReadLineExact`); as bytes
  it has exactly these two (`EscrowStages.ByteLineExact`). The hash is taken of the text, so the
  result is the same for both spellings.
- After a footer was accepted `finalize` returns the result even if a further line was fed and
  refused in between.
- A dry run that finds no batch writes an empty escrow and then fails if an artifact was asked for,
  since an artifact must have a binding (`RetentionExample.EmptyRun`). This is the only case: after a
  successful escrow run the artifact can be built if and only if there is a candidate
  (`RetentionDryRun.BuildableExactly`).
- If the lock cannot be released after a complete apply run, all batches are committed and yet an
  error is reported, with the full count and no failed index.
- A failed record write after a successful send leads to a second send in the next attempt
  (`NewsletterSend.SecondSend`); the bound in `NewsletterSend.SeriesAtMostOnce` counts exactly these.

## Assumptions

- SHA-256 is some function from text to 64 lowercase hex digits. Only
  `RetentionCommitment.OnlyTheIssuedOutput` needs more, and names the two texts that must not collide.
- The file does not change while it is read. Transactions are atomic and serializable, and a failed
  commit leaves the database as it was. Row ids and unique columns are compared exactly. A query
  answers from the database of its transaction or throws. `RetentionEndToEnd.EveryBatchApplies`,
  `UndisturbedApply` and `RunCompletes` take it besides that queries do not throw on the databases
  that the run meets (`DryRunThenApply` and `RetentionComplete.RetireDueBatches`: on any consistent
  one), and that the database sorts ids as texts are sorted.
- Dates are ISO texts with milliseconds in UTC, so years 0000 to 9999, where the order of the texts
  is that of the times (`EscrowDates.TextsInTime`); evidence times are numbers of milliseconds.
- In the task queue the delay is a whole number of milliseconds, timers are never early, the clock
  never reads exactly zero at the start of a cycle, and neither finish listeners nor the beginnings of
  tasks call back into the queue.

## Model

| member | source | states |
|---|---|---|
| `JsonExact.ScannerExact` | service/newsletter-retention-escrow.ts:607-815 | The strict scan ends without an error on exactly the texts that the grammar of sections 2 to 7 of RFC 8259 derives and in which no object, at any depth, repeats a name after its escapes are decoded. |
| `JsonExact.ParserExact` | service/newsletter-retention-escrow.ts:594-600 | The scan without the name check, which stands for `JSON.parse`, accepts exactly the texts that the grammar derives. |
| `JsonExact.Unambiguous` | service/newsletter-retention-escrow.ts:574-605 | A text has at most one derivation, so scanner and parser cannot read different values from it. |
| `JsonExact.ScannerAgreesWithParser` | service/newsletter-retention-escrow.ts:574-605 | Where the strict scan succeeds the parser reads the same value, and where the parser reads a value without repeated names the strict scan succeeds. |
| `JsonDuplicateKeyScanner.Scanner.Scan` | service/newsletter-retention-escrow.ts:612-619 | The recursive-descent scanner, which moves one index over the text, terminates on every text and succeeds exactly on the JSON texts without repeated names. |
| `JsonDuplicateKeyScanner.Scanner.ParseValue` | service/newsletter-retention-escrow.ts:621-653 | From any index, succeeds or fails as the reference scan of one value does, and stops at the same place. |
| `JsonDuplicateKeyScanner.Scanner.ParseObject` | service/newsletter-retention-escrow.ts:655-686 | An object is accepted, and left behind, exactly as the reference scan says, including the refusal of a repeated decoded name. |
| `JsonDuplicateKeyScanner.Scanner.ParseArray` | service/newsletter-retention-escrow.ts:688-710 | The same for an array. |
| `JsonDuplicateKeyScanner.Scanner.ParseString` | service/newsletter-retention-escrow.ts:712-755 | A string is accepted exactly when it is one by section 7 of RFC 8259, and the returned value is its decoded text. |
| `JsonDuplicateKeyScanner.Scanner.ParseNumber` | service/newsletter-retention-escrow.ts:757-777 | A number is accepted, and left behind, exactly by section 6 of RFC 8259. |
| `JsonDuplicateKeyScanner.Scanner.ParseDigits` | service/newsletter-retention-escrow.ts:779-786 | At least one digit, and then all digits that follow, are consumed. |
| `JsonDuplicateKeyScanner.Scanner.ParseLiteral` | service/newsletter-retention-escrow.ts:788-793 | Exactly the literal at the index is consumed, otherwise an error. |
| `JsonDuplicateKeyScanner.Scanner.SkipWhitespace` | service/newsletter-retention-escrow.ts:795-799 | Consumes the longest run of the four JSON white space characters. |
| `JsonValue.ParseStringify` | service/newsletter-retention-escrow.ts:1138-1148 | For every value whose numbers are integers, over all UTF-16 strings including quotes, control characters and lone surrogates, parsing the compact text gives the value back; with the name check it does so exactly when no name repeats. |
| `JsonValue.StringifyInjective` | service/newsletter-retention-escrow.ts:1138-1148 | Different values have different compact texts. |
| `JsonValue.StringifyClean` | service/newsletter-retention-escrow.ts:1142-1148 | A compact text holds no control character and no lone surrogate, hence no line feed, and encodes to UTF-8 without loss. |
| `EscrowLayout.Escapes` | service/newsletter-retention-escrow.ts:1142-1144 | How each code unit of a string is written, in numbers: itself, with a backslash, or as u with four lower-case hexadecimal digits. |
| `EscrowLayout.PairsStay` | service/newsletter-retention-escrow.ts:1142-1144 | A surrogate pair is written as it is. |
| `EscrowCodec.ParseOfText` | service/newsletter-retention-escrow.ts:165-199 | Serializing a valid header, record or footer and parsing the line gives the same value. |
| `EscrowCodec.ReadLineExact` | service/newsletter-retention-escrow.ts:298-324 | The codec is a bijection: a line of text is read as a value if and only if the value is valid and the text is its canonical text. |
| `EscrowCodec.LineTextInjective` | service/newsletter-retention-escrow.ts:165-199 | Two valid lines with one text are the same line. |
| `EscrowCodec.LineTextClean` | service/newsletter-retention-escrow.ts:956-1002 | A serialized line starts with a brace and holds no line feed or other control character. |
| `EscrowLayout.HeaderLayout` | service/newsletter-retention-escrow.ts:165-176 | The text of a header, parsed as JSON, is the object with these seven names, in this order, each with its field. |
| `EscrowLayout.FooterLayout` | service/newsletter-retention-escrow.ts:187-199 | The text of a footer, parsed: the kind, the four counts, each under its own name, and the content hash. |
| `EscrowLayout.BatchLayout` | service/newsletter-retention-escrow.ts:956-967 | The text of a parent row, parsed: kind, index, and the six columns under their names. |
| `EscrowLayout.MessageLayout` | service/newsletter-retention-escrow.ts:968-978 | The same for a message row with its seven columns, of which the recipient data may be null. |
| `EscrowLayout.ErrorLayout` | service/newsletter-retention-escrow.ts:980-991 | The same for an error row with its eight columns. |
| `EscrowLayout.NotificationLayout` | service/newsletter-retention-escrow.ts:993-1002 | The same for a notification row with its seven columns. |
| `EscrowLayout.CountsText` | service/newsletter-retention-escrow.ts:1138-1148 | The counts as they stand in the file: braces, names in quotation marks, colons, decimal numbers and commas, and no white space. |
| `EscrowRecords.LineRefused` | service/newsletter-retention-escrow.ts:833-955 | What is refused: another version, a policy version or count out of range, empty identifiers, hashes of the wrong length, texts that are no dates. |
| `EscrowDates.DatesExactly` | service/newsletter-retention-escrow.ts:1079-1094 | A text is taken as a date exactly if it is the ISO text, with milliseconds and Z, of a moment that exists in the calendar, of years 0 to 9999. |
| `EscrowDates.TextsInTime` | service/newsletter-retention-apply.ts:569-571 | Two such texts compare as their moments do, year first and millisecond last, so comparing texts is comparing times. |
| `Utf16.LessExactly` | service/newsletter-retention.ts:286-288 | One text is before another exactly if it is smaller at the first place where they differ, or ends there. |
| `Utf8.DecodeEncode` | service/newsletter-retention-escrow-writer.ts:103-113 | UTF-8 decoding undoes encoding for every text without lone surrogates. |
| `Utf8.EncodeDecode` | service/newsletter-retention-escrow.ts:817-831 | Bytes that decode are the encoding of what they decode to; no two byte sequences decode to one text, byte order mark aside. |
| `Utf8.DecodeLineExact` | service/newsletter-retention-escrow.ts:817-831 | Exactly which bytes the fatal decoder reads as a given text: its encoding, alone or behind a byte order mark. |
| `Utf8.AsciiOnlyWhereWritten` | service/newsletter-retention-escrow-writer.ts:103-113 | An ASCII byte, such as 0x0A, is in the encoding only if the text has that character. |
| `Utf8.BytesOfCharacter` | service/newsletter-retention-escrow-writer.ts:103-113 | The bytes of each character by the table of RFC 3629: their number, their ranges, and the character number in their low bits. |
| `EscrowGroups.GroupingExact` | service/newsletter-retention-escrow.ts:351-457 | The record order of a file determines its batch groups: folding records into groups succeeds exactly on the flattened groups, numbered from 0, each as parent, messages, errors, notifications. |
| `EscrowGroups.RecordOrder` | service/newsletter-retention-escrow.ts:351-457 | Records stand by batch index, and within a batch the parent comes first, then messages, then errors, then notifications. |
| `EscrowGroups.GroupsMean` | service/newsletter-retention-escrow.ts:399-457 | In a correct escrow the ids of each table ascend within a batch, messages and errors name their batch, every notification names a message of its batch, and every batch has the tenant of the header. |
| `EscrowGroups.RowsDiffer` | service/newsletter-retention-escrow.ts:536-564 | No two rows of a table share their id in the whole file; no message id, error message id or notification id comes twice. |
| `EscrowGroups.GroupsOkAdd` | service/newsletter-retention-escrow.ts:351-457 | One record more keeps the declarative definition of correct groups (ascending ids, whole-file uniqueness, references within the group, tenant) if and only if it meets the local condition for that record. |
| `EscrowStages.StageUnique` | service/newsletter-retention-escrow.ts:286-328 | The lines of a file determine how far it has come. |
| `EscrowStages.StageOkNext` | service/newsletter-retention-escrow.ts:342-492 | A line keeps the declarative definition of a correct beginning if and only if it may follow; this ties the definition over the whole file to checks on one line. |
| `EscrowStages.ByteLineExact` | service/newsletter-retention-escrow.ts:286-328 | As bytes a valid line has exactly two accepted spellings, its encoded canonical text alone or behind a byte order mark, and they differ. |
| `EscrowStages.AcceptsNext` | service/newsletter-retention-escrow.ts:286-328 | Exactly which further line keeps an accepted beginning accepted: byte limits, readability, order, uniqueness, references, counts and, for the footer, the hash. |
| `EscrowStages.OnlyNextStage` | service/newsletter-retention-escrow.ts:286-328 | No other reading of the extended file is a correct one. |
| `EscrowStages.AcceptsShorter` | service/newsletter-retention-escrow.ts:273-328 | A correct file minus its last line is a correct beginning, so rejecting at the first bad line loses nothing. |
| `EscrowStages.AcceptsPrefix` | service/newsletter-retention-escrow.ts:273-328 | Every beginning of a correct escrow is accepted. |
| `EscrowAccumulator.Accumulator.constructor` | service/newsletter-retention-escrow.ts:265-271 | A new verifier has accepted nothing and has not failed; its fields reflect the empty beginning. |
| `EscrowAccumulator.CreateAccumulator` | service/newsletter-retention-escrow.ts:237-271 | A verifier is made exactly when each given limit is positive and within its hard limit; missing limits are the hard ones. |
| `EscrowAccumulator.Accumulator.Consume` | service/newsletter-retention-escrow.ts:273-284 | A line is accepted exactly when no line failed before and all lines so far are the beginning of a correct escrow in the declarative sense; it finishes exactly on the footer, with the result of the escrow; after a failure every line is refused. |
| `EscrowAccumulator.Accumulator.Finalize` | service/newsletter-retention-escrow.ts:330-340 | A result exactly when a footer was accepted, and then the only result that the accepted lines have. |
| `EscrowAccumulator.Accumulator.ConsumeLine` | service/newsletter-retention-escrow.ts:286-328 | One line is taken exactly when it is within the byte limits, readable, and may follow; bytes and hashed text grow by that line. |
| `EscrowAccumulator.Accumulator.ConsumeHeader` | service/newsletter-retention-escrow.ts:342-349 | A header is taken exactly as the first line. |
| `EscrowAccumulator.Accumulator.ConsumeRecordLine` | service/newsletter-retention-escrow.ts:320-327 | A record is taken exactly after a header, within the record limit, and when it fits the groups so far. |
| `EscrowAccumulator.Accumulator.ConsumeRecord` | service/newsletter-retention-escrow.ts:351-389 | Fields updated step by step reflect the groups with the record added, if and only if the record fits them. |
| `EscrowAccumulator.Accumulator.ConsumeBatchRecord` | service/newsletter-retention-escrow.ts:399-414 | A parent is taken exactly when it opens the next group, belongs to the tenant of the header, has a new id, and the batch limit holds. |
| `EscrowAccumulator.BatchCounted` | service/newsletter-retention-escrow.ts:391-414 | After a parent the per-group fields, the whole-file sets and the counts are those of the groups with the new one added: nothing of the group before is left over, and nothing of the whole file is lost. |
| `EscrowAccumulator.ChildFits` | service/newsletter-retention-escrow.ts:416-457 | The checks on the working fields alone (ids ascending, reference, row id and natural key new) agree with the declarative condition on the record and all groups before it. |
| `EscrowAccumulator.Accumulator.ConsumeChildRecord` | service/newsletter-retention-escrow.ts:416-457 | A message, error or notification is taken exactly when it fits the open group. |
| `EscrowAccumulator.Accumulator.ConsumeNaturalKey` | service/newsletter-retention-escrow.ts:545-564 | Message ids, error message ids and notification ids are each new in the whole file, and remembered. |
| `EscrowAccumulator.Accumulator.CountRecord` | service/newsletter-retention-escrow.ts:424-456 | The count of the kind grows by one within its limit, and the phase moves on. |
| `EscrowAccumulator.Accumulator.ConsumeFooter` | service/newsletter-retention-escrow.ts:459-492 | A footer is taken exactly when its counts are those of the groups and its hash is that of the text before it. |
| `EscrowAccumulator.GoodNext` | service/newsletter-retention-escrow.ts:273-328 | In every reachable state the incremental check of a line agrees with the declarative definition over the whole file. |
| `EscrowAccumulator.ClosedStage` | service/newsletter-retention-escrow.ts:330-340 | The verification result of a file is unique, and exists exactly when the file has its footer. |
| `EscrowWriter.WriteHeader` | service/newsletter-retention-escrow-writer.ts:38-41 | Writes the header line, or nothing; it fails only if no file can be written or the sink refuses. |
| `EscrowWriter.CountsAgree` | service/newsletter-retention-escrow-writer.ts:115-129 | The counts that the writer adds up record by record are those of the batch groups. |
| `EscrowWriter.CountedByTable` | service/newsletter-retention-escrow-writer.ts:115-129 | Each of the four counts is the number of the records of its own table. |
| `EscrowWriter.WriteRecord` | service/newsletter-retention-escrow-writer.ts:43-49 | Writes one record line with hash and counts in step, or nothing; it fails only if the file cannot be written or the sink refuses. |
| `EscrowWriter.WriteFooter` | service/newsletter-retention-escrow-writer.ts:51-63 | Writes the footer and returns the result exactly when the file is a correct escrow. |
| `EscrowWriter.WriteEscrow` | service/newsletter-retention-escrow-writer.ts:24-64 | A run succeeds if and only if the record stream ends well, header and records make a correct escrow, and the sink takes all lines; it then returns the escrow's own result and has written exactly its lines. A failed run has written a beginning of that file. |
| `EscrowWriter.WritableIsEscrow` | service/newsletter-retention-escrow-writer.ts:24-64 | What the writer promises to write is accepted by the verifier, with the result that the writer returns. |
| `EscrowWriter.WritableLimits` | service/newsletter-retention-escrow.ts:286-328 | The limits that an escrow keeps, in numbers: 16 MiB a line, 512 MiB in all, 250000 records, 100 batches, 100000 messages. |
| `EscrowWriter.WritablePart` | service/newsletter-retention-escrow-writer.ts:24-64 | Each part written so far is accepted by the accumulator that runs along. |
| `EscrowWriter.AcceptedBody` | service/newsletter-retention-escrow-writer.ts:43-49 | If the accumulator takes header and records, the records are the flattened groups of a correct escrow. |
| `EscrowWriter.FileStage` | service/newsletter-retention-escrow-writer.ts:51-63 | If the accumulator takes the footer too, header and records were writable. |
| `EscrowLines.SplitExact` | service/newsletter-retention-cli.ts:432-469 | Line splitting is exact and unambiguous: a file splits into given lines if and only if they hold no line feed, keep the line limit, and the file is these lines each followed by a line feed. |
| `EscrowLines.LineIterator.constructor` | service/newsletter-retention-cli.ts:432-438 | The iterator stands before the whole file. |
| `EscrowLines.LineIterator.FindNewline` | service/newsletter-retention-cli.ts:451-453 | The first line feed at or after `start`, or the end of the buffer. |
| `EscrowLines.LineIterator.ReadChunk` | service/newsletter-retention-cli.ts:441-451 | Reading a chunk of any size moves bytes from the file to the buffer and leaves what is still to be read unchanged. |
| `EscrowLines.LineIterator.Advance` | service/newsletter-retention-cli.ts:432-469 | For every division of the file into chunks, each next line, the end, and each error are those of the unread bytes alone. |
| `EscrowSource.VerifyFile` | service/newsletter-retention-cli.ts:293-298 | Verification of the bytes of a file gives a result exactly when the file is a correct escrow with that result, independent of chunking. |
| `EscrowSource.VerifiedUnique` | service/newsletter-retention-cli.ts:293-298 | A file has at most one verification result and one grouping. |
| `EscrowSource.ParseVerifiedLine` | service/newsletter-retention-cli.ts:411-426 | On a line that the verifier took, the second, laxer parser (no name check, no canonical text check) reads the same line. |
| `EscrowSource.RecordIterator.NextRecord` | service/newsletter-retention-cli.ts:404-430 | On a verified file the second pass yields exactly the records of its groups, in order, then ends, and never throws. |
| `EscrowSource.FlattenIsTail` | service/newsletter-retention-cli.ts:310-339 | The records of a file are those of the first k groups followed by those of the rest. |
| `EscrowSource.TailSplits` | service/newsletter-retention-cli.ts:310-339 | What is left before call k is batch k, with that index on every record, followed by records of later batches only. |
| `EscrowSource.Source.constructor` | service/newsletter-retention-cli.ts:299-302 | The source stands before batch 0, with no record held back. |
| `EscrowSource.Source.ReadBatchRecords` | service/newsletter-retention-cli.ts:310-339 | Call k returns exactly the records of group k; a call out of turn or after closing fails and changes nothing. |
| `EscrowSource.OpenSource` | service/newsletter-retention-cli.ts:278-350 | Opens exactly the nonempty files within the byte limit that are correct escrows, with their result and groups. |
| `EscrowRoundTrip.ChunkIsLine` | service/newsletter-retention-escrow-writer.ts:103-113 | The bytes written for a line are its encoding and one 0x0A, which occurs nowhere in the encoding. |
| `EscrowRoundTrip.FileIsUnsplit` | service/newsletter-retention-escrow-writer.ts:103-113 | The written chunks together are the encoded lines, each with its line feed. |
| `EscrowRoundTrip.HashCoversFile` | service/newsletter-retention-escrow-writer.ts:51-63 | The content hash is the digest of a text whose bytes are the whole file up to its last line, and that line is the footer. |
| `EscrowRoundTrip.WrittenFileIsVerified` | service/newsletter-retention-cli.ts:278-350 | The bytes of a successful writer run pass verification with the result that the writer returned, and with the groups of the records. |
| `EscrowRoundTrip.WrittenFileReadsBack` | service/newsletter-retention-cli.ts:310-339 | Reading them back gives that result, and batches 0, 1, 2, ... partition exactly the written records, in order. |
| `EscrowRoundTrip.ReadAllBatches` | service/newsletter-retention-cli.ts:310-339 | Reading batches 0, 1, 2, ... of an open source gives every record of its groups once, in order; batch k starts with its parent and holds index k only. |
| `EscrowRoundTrip.WriteAndReadBack` | service/newsletter-retention-cli.ts:278-350 | Write, open, read all: it succeeds exactly for writable records and a sink with room, returns the escrow's own result, and the batches read joined are the written records, cut at the batch boundaries. |
| `EscrowLoader.SafeAdd` | service/newsletter-retention-escrow-loader.ts:843-853 | The sum, or an error exactly when it leaves the safe integers. |
| `EscrowLoader.NormalizeCandidates` | service/newsletter-retention-escrow-loader.ts:293-343 | Candidates are taken exactly when each is in order for the policy, no record id repeats and no limit is passed; they come back sorted. |
| `EscrowLoader.CandidateRefused` | service/newsletter-retention-escrow-loader.ts:293-343 | What keeps a candidate out: another tenant, a date that is no date or not before the cutoff, open orphans, incomplete correlation, counts out of range, notifications without messages, empty identifiers. |
| `EscrowLoader.CandidatesRefused` | service/newsletter-retention-escrow-loader.ts:293-343 | And a list: more batches or messages than allowed, more than 250000 records, a record id twice. |
| `EscrowLoader.SortKeepsOk` | service/newsletter-retention-escrow-loader.ts:293-343 | Sorting does not change what the checks on candidates say. |
| `EscrowLoader.NormalizeMessageRows` | service/newsletter-retention-escrow-loader.ts:556-598 | Rows are taken exactly when they are as many as expected, well formed, of this batch, with ids strictly ascending and message ids distinct. |
| `EscrowLoader.NormalizeErrorRows` | service/newsletter-retention-escrow-loader.ts:600-642 | The same for error rows. |
| `EscrowLoader.NormalizeNotificationRows` | service/newsletter-retention-escrow-loader.ts:644-686 | The same for notification rows, which must refer to messages of the batch. |
| `RetentionPolicy.CandidateOrder` | service/newsletter-retention-escrow-loader.ts:764-771 | The candidate comparison is antisymmetric and transitive, and total up to equal published fields and record id. |
| `RetentionPolicy.CandidateBeforeIsOrder` | service/newsletter-retention-candidate-loader.ts:447-457 | It is a strict weak order, so sorting is determined; the candidate loader and the escrow loader compare alike. |
| `SnapshotKeys.RememberRows` | service/newsletter-retention-escrow-loader.ts:714-719 | Keys of a batch are remembered exactly when none of them was seen before. |
| `SnapshotKeys.SnapshotUniqueKeys.AssertUnique` | service/newsletter-retention-escrow-loader.ts:688-712 | The per-batch test against the seen sets succeeds if and only if all rows of all groups so far are unique in the sense of the escrow verifier. |
| `SnapshotKeys.UniqueWithGroup` | service/newsletter-retention-escrow-loader.ts:688-719 | Uniqueness over the whole file splits into uniqueness before, within the group, and between the two. |
| `EscrowStream.LoadBatchRow` | service/newsletter-retention-escrow-loader.ts:396-438 | The parent row is taken exactly when the database answers with one that matches the candidate. |
| `EscrowStream.LoadGroup` | service/newsletter-retention-escrow-loader.ts:244-283 | A group is loaded exactly when the answers of the database, asked for count + 1 rows, are rows in order for the candidate and no open orphan refers to them. |
| `EscrowStream.ValidateOrphanCount` | service/newsletter-retention-escrow-loader.ts:518-541 | Succeeds exactly when there is no message or the database counts no open orphan for the message ids. |
| `EscrowStream.LoadNext` | service/newsletter-retention-escrow-loader.ts:244-290 | One candidate more extends the snapshot by its group, or no snapshot exists. |
| `EscrowStream.StreamRecords` | service/newsletter-retention-escrow-loader.ts:228-291 | The stream ends without an error if and only if a snapshot of all candidates exists, and has then yielded exactly its records; a stream that breaks off has yielded correct groups only. |
| `EscrowStream.MatchingGroupOk` | service/newsletter-retention-escrow-loader.ts:345-516 | The checks of the loader on one batch imply every order, reference, tenant and uniqueness check of the verifier on that group. |
| `EscrowStream.SnapshotUnique` | service/newsletter-retention-escrow-loader.ts:228-291 | The answers of the database determine the snapshot. |
| `EscrowStream.LoadedIsWritable` | service/newsletter-retention-escrow-loader.ts:228-291 | Every stream that the loader finishes is accepted by verifier and writer under a header with the tenant of the policy, if and only if the dates lie in years 0000 to 9999 and the byte limits hold. |
| `StableSort.SortSorted` | service/newsletter-retention.ts:151-157 | The stable sort sorts, for any strict weak order. |
| `StableSort.SortOfSorted` | service/newsletter-retention.ts:151-157 | Sorting a sorted list changes nothing. |
| `StableSort.SortedUnique` | service/newsletter-retention.ts:151-157 | Under an order that separates the elements there is only one sorted arrangement of a multiset. |
| `RetentionPolicy.ParsePolicyAgain` | service/newsletter-retention.ts:82-98 | A parsed policy is valid, is in dry-run mode unless apply was asked for, and parsed again, as the loader does, comes back in dry-run mode with nothing else changed. |
| `RetentionPolicy.PolicyExactly` | service/newsletter-retention.ts:82-98 | Exactly which policies are taken and what they become: 1 to 100 batches, 10 by default, 1 to 10000 messages, 1000 by default, version 1. |
| `RetentionPolicy.PublicOrder` | service/newsletter-retention.ts:151-157 | The manifest comparison is a strict total order on published batches. |
| `RetentionPolicy.PublicBeforeIsOrder` | service/newsletter-retention-plan.ts:202-211 | The comparison that the selection plan and the manifest share is a strict weak order, so both sorts are determined. |
| `CanonicalJson.CanonicalJsonInjective` | service/newsletter-retention.ts:294-307 | Two values have the same canonical text if and only if they are equal up to the order of object keys, at every depth. |
| `CanonicalJson.CanonicalIsStringify` | service/newsletter-retention-apply.ts:589-602 | The canonical text is the compact text of the value with all keys sorted. |
| `RetentionLayout.CanonicalNamesAscend` | service/newsletter-retention.ts:294-307 | In canonical form the names of an object ascend by their code units, and are those of the value. |
| `RetentionLayout.ManifestLayout` | service/newsletter-retention.ts:143-170 | The text whose digest is the manifest hash, parsed: batches, cutoff, policyVersion and siteId, and for each batch its five fields, each under its own name. |
| `RetentionLayout.ArtifactLayout` | service/newsletter-retention-apply.ts:129-148 | The text whose digest is the artifact hash, parsed: bindings, escrow, publicManifestHash, siteId and version, with the fields of each binding and of the verification result under their own names. |
| `RetentionApply.ManifestAscends` | service/newsletter-retention.ts:143-157 | A built manifest lists the given batches, ascending by date; equal dates by batch id, then by the number of messages. |
| `RetentionApply.NormalizeBuilt` | service/newsletter-retention-apply.ts:306-316 | A built manifest is sorted, and apply normalizes it to itself, hash included. |
| `RetentionApply.BuildArtifact` | service/newsletter-retention-apply.ts:62-149 | An artifact is built exactly when manifest, escrow result and private records fit together, record i with manifest batch i, without a repeated record id; binding i is then record i. |
| `RetentionApply.RecordRefused` | service/newsletter-retention-apply.ts:80-130 | What keeps a private record from standing for a public batch: any difference in tenant, batch id, date or one of the three counts, open orphans, incomplete correlation, a date not before the cutoff. |
| `RetentionApply.EscrowRefused` | service/newsletter-retention-apply.ts:231-266 | What keeps an escrow from belonging to a manifest: another tenant, cutoff, version, hash or number of batches. |
| `RetentionApply.NormalizeBindings` | service/newsletter-retention-apply.ts:502-541 | Bindings are taken exactly when there is at least one, indexes are 0, 1, 2, ... and record ids are nonempty and distinct. |
| `RetentionApply.ParseArtifact` | service/newsletter-retention-apply.ts:151-166 | An artifact is taken exactly when its fields are in order and its hash is that of its canonical text. |
| `RetentionApply.EvidenceExactly` | service/newsletter-retention.ts:100-141 | Evidence is taken exactly while both checks say healthy, backup and restore dates are at most 24 hours old, the checks at most 15 minutes, and none lies in the future. |
| `RetentionApply.ParseContext` | service/newsletter-retention-apply.ts:168-229 | A context is given exactly when policy, evidence, manifest and artifact are in order and agree with each other, and it is then the only one. |
| `RetentionCommitment.ManifestTextInjective` | service/newsletter-retention.ts:159-169 | The hashed text of a manifest determines every field of it but the hash. |
| `RetentionCommitment.ArtifactTextInjective` | service/newsletter-retention-apply.ts:137-148 | The hashed text of an artifact determines every field of it but the hash. |
| `RetentionCommitment.OnlyTheIssuedOutput` | service/newsletter-retention-apply.ts:168-229 | As long as the hash does not collide on the texts at hand, apply with the issued hashes runs only with the issued manifest and artifact. |
| `RetentionDatabase.TakeOneMore` | service/newsletter-retention-escrow-loader.ts:440-516 | If a query for count + 1 rows returns count rows, these are all rows. |
| `RetentionDatabase.LoadedGroupStored` | service/newsletter-retention-applier.ts:401-405 | A group that loads from a faithful database is that database's batch with exactly its children, column by column. |
| `RetentionApplier.Transaction.DeleteNotifications` | service/newsletter-retention-applier.ts:416-423 | Deletes all notifications whose message id is in the list, and reports their number. |
| `RetentionApplier.Transaction.DeleteErrors` | service/newsletter-retention-applier.ts:425-429 | Deletes all errors of the batch, and reports their number. |
| `RetentionApplier.Transaction.DeleteMessages` | service/newsletter-retention-applier.ts:430-434 | Deletes all messages of the batch, and reports their number; refused only while a notification still refers to one of them. |
| `RetentionApplier.Transaction.DeleteBatch` | service/newsletter-retention-applier.ts:435-446 | Deletes the parent if all selected columns match, and reports the number. |
| `RetentionApplier.DeletionSteps` | service/newsletter-retention-applier.ts:416-446 | For a batch that was read back exactly, the four deletions in turn hit exactly the rows of the group, never violate a foreign key, and leave the database without that group. |
| `RetentionApplier.AfterRemoval` | service/newsletter-retention-applier.ts:448-466 | After that the five checks find nothing, and the orphan table is unchanged. |
| `RetentionApplier.AssertExactRecords` | service/newsletter-retention-applier.ts:368-380 | Comparing the serialized lines pairwise succeeds if and only if the two record lists are equal and valid. |
| `RetentionApplier.DeleteRows` | service/newsletter-retention-applier.ts:416-446 | Removes exactly the group; the receipt's four numbers are by how many rows each table has shrunk; without faults it cannot fail. |
| `RetentionApplier.CheckGone` | service/newsletter-retention-applier.ts:448-466 | Without faults the checks after the deletion never fail. |
| `RetentionApplier.ApplyBatch` | service/newsletter-retention-applier.ts:382-476 | A batch is applied exactly when what loads from the database is what the escrow holds; it removes exactly that group, and the receipt counts the rows that each table has lost, which are those of the group. |
| `RetentionApplier.ReadVerifiedBatch` | service/newsletter-retention-applier.ts:338-366 | Returns exactly the records of group k in turn, and succeeds whenever the group has the counts of the manifest. |
| `RetentionApplier.ApplyNext` | service/newsletter-retention-applier.ts:231-260 | One round commits exactly group i or leaves the database as it was; without faults it stops only at a batch that does not apply. |
| `RetentionApplier.RunBatches` | service/newsletter-retention-applier.ts:228-272 | The database is the start state without the first `completed` groups, whether the run ends or breaks off. |
| `RetentionApplier.ExecuteApply` | service/newsletter-retention-applier.ts:213-297 | On every path the database is the start state minus the first k groups; an acquired lock is released exactly once; a refusal or a lock not granted changes nothing; a failure reports k completed batches and index k; the receipt of a complete run counts the rows of every batch and names the hashes of what was applied. |
| `RetentionApplier.AppliedReceipts` | service/newsletter-retention-applier.ts:247-255 | The receipt entry of batch i names its index and batch id and counts its notifications, errors and messages in the escrow, and one batch. |
| `RetentionApplier.ReceiptIsTrue` | service/newsletter-retention-applier.ts:257-266 | The receipt names the hashes of manifest, artifact and escrow content, the schema fingerprint and the tenant, and has one true entry per batch. |
| `RetentionExact.StoredBefore` | service/newsletter-retention-applier.ts:382-476 | A group stored after an earlier removal was stored before it, and is a different batch. |
| `RetentionExact.StaysConsistent` | service/newsletter-retention-applier.ts:382-476 | Removing a stored group keeps row ids, message id uniqueness and all foreign keys. |
| `RetentionExact.RemovedRows` | service/newsletter-retention-applier.ts:382-476 | Removing groups one by one is removing exactly the rows that the flattened records list, nothing from the orphan table. |
| `RetentionExact.ExactDeletion` | service/newsletter-retention-applier.ts:213-297 | After k batches every removed group was stored, column by column, in the start state, and the database is the start state minus exactly the rows that the escrow lists for them, still consistent. |
| `RetentionExact.WholeEscrow` | service/newsletter-retention-applier.ts:231-233 | An accepted context binds exactly as many batches as the escrow file has groups. |
| `RetentionExact.FirstBatchGone` | service/newsletter-retention-applier.ts:213-297 | After at least one commit the first parent is gone. |
| `RetentionExact.RepeatRunFails` | service/newsletter-retention-applier.ts:213-297 | A repeat run after k >= 1 commits on an otherwise unchanged database removes nothing and fails at index 0. |
| `RetentionCandidates.NormalizeMessageSummaries` | service/newsletter-retention-candidate-loader.ts:283-315 | Taken exactly when as many as expected, with distinct ids and safe counts; the total is the sum of the notification counts. |
| `RetentionCandidates.EventsAddUp` | service/newsletter-retention-candidate-loader.ts:222-229 | The sum over the messages of their notification counts is the number of notifications of the batch. |
| `RetentionCandidates.LoadedIsCounted` | service/newsletter-retention-candidate-loader.ts:174-241 | A candidate that loads from queries that answer from a database names a stored batch, and has the numbers of its messages, errors, notifications and open orphans there. |
| `RetentionCandidates.LoadCandidateRecords` | service/newsletter-retention-candidate-loader.ts:134-257 | Succeeds exactly when every batch that the query finds, asked for one more than the limit, loads within the limits; the result is sorted, and for queries that answer from a database it is the site's batches from before the cutoff, each once and with the numbers of its rows. |
| `RetentionDryRun.PublishedSorted` | service/newsletter-retention-plan.ts:202-211 | Candidates in the loader's order are in the published order, so sorting by the published fields does not move them. |
| `RetentionDryRun.SelectionRefused` | service/newsletter-retention-plan.ts:161-200 | What keeps a candidate out of the plan: another tenant, a date that is no date or not before the cutoff, open orphans, incomplete correlation, counts out of range. |
| `RetentionDryRun.HeldLocks.OwnerToken` | service/newsletter-retention-plan.ts:112-116 | Every lock object has a token of its own. |
| `RetentionDryRun.WriteUnderLock` | service/newsletter-retention-coordinator.ts:97-146 | Succeeds exactly when plan, manifest, loaded records and written file fit together and the sink takes the file. |
| `RetentionDryRun.CoordinateEscrowDryRun` | service/newsletter-retention-coordinator.ts:97-146 | The same under the process-local lock: on every path the locks are held afterwards as before, and a name held by another run makes this one fail without effect. |
| `RetentionDryRun.PlanBatches` | service/newsletter-retention-plan.ts:54-110 | For candidates in the loader's order the plan lists them unmoved, with their totals. |
| `RetentionDryRun.ManifestBatches` | service/newsletter-retention.ts:143-170 | The manifest lists the batches of the plan unmoved, with the same tenant, cutoff and version. |
| `RetentionDryRun.LoadedInOrder` | service/newsletter-retention-escrow-loader.ts:293-343 | The escrow loader keeps that order too: group i is candidate i. |
| `RetentionDryRun.SortsAgree` | service/newsletter-retention-coordinator.ts:97-165 | The four separate sorts agree: plan batch i, manifest batch i, candidate i and escrow group i are the same stored batch. |
| `RetentionDryRun.ArtifactCanBeBuilt` | service/newsletter-retention-apply.ts:62-149 | After a successful escrow run over at least one candidate the artifact builder does not throw. |
| `RetentionDryRun.BuildableExactly` | service/newsletter-retention-apply.ts:62-149 | After a successful escrow run, over any candidates, an artifact can be built if and only if there is at least one candidate; the manifest normalizes to itself. |
| `RetentionExample.EmptyRun` | service/newsletter-retention-apply.ts:70-72 | With good evidence and a site id of at most 100000 code units a run that finds no batch does write an escrow, and no artifact can be built for it. |
| `RetentionDryRun.DryRunIsApplicable` | service/newsletter-retention-apply.ts:168-229 | Its manifest and artifact are accepted by the apply context under the same policy with any fresh evidence, and binding i names the parent of escrow group i. |
| `RetentionDryRun.ExecuteDryRun` | service/newsletter-retention-cli.ts:606-690 | With an escrow and an artifact asked for: output exists only for the candidates that the queries give and is applicable under the same policy with any fresh evidence; a run over at least one loadable candidate fails only where no correct escrow exists or the sink does not take it. |
| `RetentionEndToEnd.PlanAlwaysMatches` | service/newsletter-retention-coordinator.ts:148-165 | The comparison of escrow and plan after the writer never fails: the counts of a loaded snapshot are the totals of the plan. |
| `RetentionEndToEnd.DryRunExactly` | service/newsletter-retention-coordinator.ts:97-146 | With good evidence and candidates that load, a dry run succeeds if and only if the dates of the rows lie in years 0000 to 9999 and the file keeps the byte limits; no other check of plan, manifest, writer or coordinator can fail. |
| `RetentionEndToEnd.IssuedFileOpens` | service/newsletter-retention-cli.ts:278-350 | The file of a dry run opens with the result that the dry run reported and with its batch groups, and with no others. |
| `RetentionEndToEnd.StoredGroupLoads` | service/newsletter-retention-escrow-loader.ts:228-291 | A stored batch loads again, row for row, from any database that stores it, if queries answer in the order of ids and no open orphan refers to it. |
| `RetentionEndToEnd.StoredAfter` | service/newsletter-retention-applier.ts:382-476 | Removing one batch leaves every other stored batch as it was. |
| `RetentionEndToEnd.EveryBatchApplies` | service/newsletter-retention-applier.ts:213-297 | What a dry run issued applies: on the unchanged database, with queries that do not fail, every batch of the escrow is readable and applicable in the database that the batches before it leave. |
| `RetentionEndToEnd.UndisturbedApply` | service/newsletter-retention-applier.ts:213-297 | On the database that the dry run saw, with transactions that answer about the databases they meet, an apply run that stops only where a batch does not apply completes with the receipt of all batches, and leaves the start state minus exactly the rows of the escrow. |
| `RetentionEndToEnd.RunCompletes` | service/newsletter-retention-applier.ts:213-297 | Such a run exists: all batches applied in turn, each stored in the database that the ones before it leave. |
| `RetentionEndToEnd.DryRunThenApply` | service/newsletter-retention-cli.ts:606-690 | Dry run, opening its file and an apply run, one after the other: if the dry run issues output and the database stays as it was, with queries that answer, the apply run completes and the database is the start state minus exactly the rows of the escrow. |
| `RetentionExample.WholeRun` | service/newsletter-retention-cli.ts:606-690 | Such a run on a database with one batch, for queries that answer truly about every consistent database: dry run, context, receipt of one batch, nothing left. |
| `RetentionDue.GroupsListBatches` | service/newsletter-retention-escrow-loader.ts:228-291 | Stored groups of different batches hold exactly the rows that the tables have for these batches, and no id or unique column twice. |
| `RetentionDue.TotalsOfStored` | service/newsletter-retention-plan.ts:71-92 | The totals of the candidates and of the plan are the numbers of rows that the tables have for the due batches. |
| `RetentionComplete.FitExactly` | service/newsletter-retention-escrow.ts:833-955 | The records of the due batches are valid exactly when the rows in the tables are. |
| `RetentionComplete.ListedOnce` | service/newsletter-retention-escrow-loader.ts:228-291 | The due batches with their rows can be listed in one way only. |
| `RetentionComplete.RetirableRuns` | service/newsletter-retention-cli.ts:606-690 | If there are due batches, within the limits, with well-formed rows and no open orphan, and their escrow keeps the byte limits, then candidates, plan, manifest, escrow and artifact all succeed. |
| `RetentionComplete.RunRetires` | service/newsletter-retention-cli.ts:606-690 | And if a run succeeds, all of that is so, and the groups of its escrow are the due batches. |
| `RetentionComplete.DryRunOnDatabase` | service/newsletter-retention-cli.ts:606-690 | A dry run with queries that answer from a database puts out an escrow and an artifact if and only if the due batches can be retired; manifest and totals then tell the numbers of rows in the tables. |
| `RetentionComplete.RetireDueBatches` | service/newsletter-retention-cli.ts:606-690 | Dry run and apply run together: if and only if the due batches can be retired, the database loses exactly the site's batches from before the cutoff with all their messages, errors and notifications, and the receipt counts them. |
| `RetentionComplete.NothingDueAfter` | service/newsletter-retention-applier.ts:213-297 | Afterwards nothing is due, and every batch of another tenant or from after the cutoff is as it was. |
| `RetentionExample.BatchIsRetirable` | service/newsletter-retention-cli.ts:606-690 | These premises can be met: by a small database with a due batch, and by queries about it. |
| `EscrowSize.ShortLinesFit` | service/newsletter-retention-escrow.ts:292-296 | A check on the lengths of the texts of header, rows and footer, six code units and three bytes each at the worst, is enough for the byte limits. |
| `TaskQueue.Queue.constructor` | lib/task-queue/queue.ts:60-63 | An idle queue with nothing pending. |
| `TaskQueue.Queue.Enqueue` | lib/task-queue/queue.ts:65-93 | The new task is last in the order of starts, whatever the processing loop does in the same step; every invariant holds after it. |
| `TaskQueue.Queue.StartCounting` | lib/task-queue/queue.ts:66-74 | Statistics are reset exactly at the first task after an idle time. |
| `TaskQueue.Queue.WaitUntilFinished` | lib/task-queue/queue.ts:114-119 | Resolves at once exactly when nothing is pending or running, with the current counts; otherwise the waiter is remembered. |
| `TaskQueue.Queue.ClearQueue` | lib/task-queue/queue.ts:121-125 | Exactly the pending tasks are dropped; with nothing running every waiter is resolved. |
| `TaskQueue.Queue.Process` | lib/task-queue/queue.ts:127-131 | Nothing happens while a loop is active or nothing is pending; otherwise the loop runs to its next wait. |
| `TaskQueue.Queue.Continue` | lib/task-queue/queue.ts:131-154 | The loop starts tasks from the head, in order, until it must wait, capacity is full or nothing is pending; compaction is invisible. |
| `TaskQueue.Queue.TimerFires` | lib/task-queue/queue.ts:142-153 | The loop goes on after the delay and keeps every invariant. |
| `TaskQueue.Queue.TaskSettles` | lib/task-queue/queue.ts:156-174 | A running task settles once; if it was the last, all waiters are resolved with the final counts, otherwise the loop is started if needed and no waiter is lost. |
| `TaskQueue.Queue.UpdateMetrics` | lib/task-queue/queue.ts:176-181 | The settled and failed counts are those of the tasks settled in this cycle. |
| `TaskQueue.Queue.TriggerFinish` | lib/task-queue/queue.ts:183-197 | Every waiter is resolved once, in order, with the same counts, and none is left. |
| `TaskQueue.Queue.FinishOrProcess` | lib/task-queue/queue.ts:168-172 | Finishes exactly when nothing is pending or running, else starts the loop. |
| `TaskQueue.Conservation` | lib/task-queue/queue.ts:65-174 | In every reachable state: enqueued = settled + running + pending + cleared. |
| `TaskQueue.Concurrency` | lib/task-queue/queue.ts:127-174 | At most `maxConcurrent` tasks run; while tasks wait and no loop is active the limit is used up; and while somebody waits there is something pending or running. |
| `TaskQueue.FirstInFirstOut` | lib/task-queue/queue.ts:127-154 | Tasks start in the order they were enqueued, each at most once, and every pending task comes after every started one. |
| `TaskQueue.RateLimit` | lib/task-queue/queue.ts:127-174 | A window of length T holds at most floor(T / delay) + 1 starts, across loop exits, restarts and clears. |
| `TaskQueue.CompactionKeepsPending` | lib/task-queue/queue.ts:146-150 | Slicing at head > 1000 does not change the abstract queue. |
| `NewsletterSend.Attempt.ProcessBatch` | service/newsletter-service.ts:67-101 | After it all recipients are in the order of starts, as they were given, no task has settled, and the call waits, except that without recipients it ends at once. |
| `NewsletterSend.Attempt.CheckStep` | service/newsletter-service.ts:115-124 | The idempotency check in the queue and for the recipient: a stored recipient is skipped as done, an error ends its task, an empty address is not looked up; nothing else moves. |
| `NewsletterSend.Attempt.SendStep` | service/newsletter-service.ts:126-141 | A send is counted and waits for its record; a failed one ends its task with an error; nothing else moves. |
| `NewsletterSend.Attempt.RecordStep` | service/newsletter-service.ts:143-158 | The row is stored, or the failed write is counted and its task ends with an error; nothing else moves. |
| `NewsletterSend.Attempt.TimerFires` | lib/task-queue/queue.ts:127-154 | Starting further tasks changes nothing for the recipients. |
| `NewsletterSend.Attempt.Settle` | lib/task-queue/queue.ts:156-174 | A task settles in the queue and among the recipients together. |
| `NewsletterSend.Attempt.Result` | service/newsletter-service.ts:92-100 | When the call resolves every recipient has a stored message row; when it rejects some task failed; it does neither before every task has settled. |
| `NewsletterSend.Attempt.AtMostOnce` | service/newsletter-service.ts:109-159 | In every state of the class, with distinct nonempty recipients and no other attempt on its way at the start, each was sent at most once plus once for each failed record write. |
| `NewsletterSend.SentAtMostOnce` | service/newsletter-service.ts:120-158 | The same bound, from the account of sends, stored rows and failed writes. |
| `NewsletterSend.SeriesAtMostOnce` | service/newsletter-service.ts:109-159 | Over any series of attempts that do not overlap, whatever steps happen in them, and at any moment of the last: each recipient was sent to at most once plus once for each failed record write. |
| `NewsletterSend.SecondSend` | service/newsletter-service.ts:143-158 | The bound is met: after one failed record write a second attempt sends to the recipient again. |
| `NewsletterSend.StoredAreSkipped` | service/newsletter-service.ts:115-124 | An attempt over recipients that all have a row sends and writes nothing and breaks no task, as long as no check fails. |
| `NewsletterSend.DeliverySteps` | service/newsletter-service.ts:109-159 | The fate of a recipient without a row, step by step: sent to once and recorded; or broken at check or send without a trace; or broken at the record after one send. |
| `SqsPool.WorkerCount` | lib/core/sqs-worker.ts:156-159 | The normalized concurrency is a whole number of at least 1. |
| `SqsPool.Pool.constructor` | lib/core/sqs-worker.ts:462-467 | min(n, concurrency) workers start on the first messages. |
| `SqsPool.Pool.LoopHead` | lib/core/sqs-worker.ts:465-468 | A worker takes the next message in order, or leaves if there is none or the process shuts down. |
| `SqsPool.Pool.HandlerEnds` | lib/core/sqs-worker.ts:467-476 | A resolved message joins the successful ones, a rejected one does not, a missed deadline ends the worker. |
| `SqsPool.Pool.RequestShutdown` | lib/core/sqs-worker.ts:29-35 | Running handlers go on. |
| `SqsPool.Pool.Settled` | lib/core/sqs-worker.ts:465-478 | Rejects exactly when a deadline was missed; when it resolves nothing is in flight and, without shutdown, all messages were started. |
| `SqsPool.Pool.InFlightBounded` | lib/core/sqs-worker.ts:462-478 | In every state at most min(n, concurrency) handlers run. |
| `SqsPool.DeleteMessageBatch` | lib/core/sqs-worker.ts:481-498 | Returns the number of entries that the answer confirms; a failed request confirms none. |
| `SqsPool.ConfirmedExactly` | lib/core/sqs-worker.ts:489-493 | The confirmed entries are those of the request that the answer names. |
| `SqsPool.DeleteHandled` | lib/core/sqs-worker.ts:435-441 | Deletion is asked for exactly the successful messages with a receipt, in order, in nonempty chunks of at most 10, and the result is the number of confirmed entries. |
| `SqsPool.Acknowledge` | lib/core/sqs-worker.ts:426-442 | Deletion is asked for only messages whose handler resolved and which have a receipt, and for none after a missed deadline. |
| `EventIngestion.UpsertRow` | service/database/db.ts:90-97 | The row is there, other rows are unchanged, and ids stay unique. |
| `EventIngestion.UpsertOrphan` | service/database/db.ts:99-106 | The same for the orphan table; an update keeps the reconciliation mark. |
| `EventIngestion.Ingestion.Receive` | lib/core/event-processor.ts:36-41 | A notification is handed out, for the first time or again, at any moment. |
| `EventIngestion.Ingestion.LookUp` | lib/core/event-processor.ts:41-49 | An untracked event is acknowledged; otherwise the handler goes on by the answer of the parent lookup, or throws. |
| `EventIngestion.Ingestion.SaveNotification` | lib/core/event-processor.ts:51-59 | Stored and acknowledged if the parent is still there; if it vanished since the lookup the handler turns to the orphan table. |
| `EventIngestion.Ingestion.PersistMissingParent` | lib/core/event-processor.ts:27-34 | The orphan is stored before the event is acknowledged; an error acknowledges nothing. |
| `EventIngestion.Ingestion.InsertMessage` | service/database/db.ts:31-47 | A message row appears, and every invariant holds. |
| `EventIngestion.Ingestion.ReconcileOrphan` | service/database/db.ts:116-150 | Exactly one of absent, already reconciled, parent missing, reconciled; only the last changes the tables, and keeps the orphan, marked. |
| `EventIngestion.Ingestion.WriteEscrow` | service/newsletter-retention-escrow-loader.ts:228-291 | A dry run for a batch is refused exactly while an open orphan refers to one of its messages; otherwise its escrow holds all notifications of the batch at that moment. |
| `EventIngestion.Ingestion.ApplyEscrow` | service/newsletter-retention-applier.ts:382-476 | An apply run deletes exactly when the batch still is as its escrow says and no open orphan refers to it; what happened between the two runs is arbitrary. |
| `EventIngestion.LandsByParent` | lib/core/event-processor.ts:41-59 | A tracked event without errors ends acknowledged: in the notifications if its message is stored, in the orphans if not, and the other table stays as it was. |
| `EventIngestion.UntrackedIsDropped` | lib/core/event-processor.ts:41-45 | An event that is not tracked is acknowledged and leaves no trace. |
| `EventIngestion.VanishedParent` | lib/core/event-processor.ts:51-59 | If the message vanishes between lookup and save, the event ends in the orphans, acknowledged. |
| `EventIngestion.ReconciledByParent` | service/database/db.ts:116-150 | An open orphan becomes a notification and is marked exactly when its message is stored; nothing else changes. |
| `EventIngestion.OrphanBlocks` | service/newsletter-retention-escrow-loader.ts:518-541 | An open orphan of a batch keeps dry run and apply run from doing anything. |
| `EventIngestion.EscrowLists` | service/newsletter-retention-escrow-loader.ts:228-291 | Without one the escrow of a dry run lists the messages of the batch and exactly their notifications. |
| `EventIngestion.ApplyAfterDryRun` | service/newsletter-retention-applier.ts:382-476 | An apply run right after it takes exactly these messages and notifications away. |
| `EventIngestion.ApplyExactly` | service/newsletter-retention-applier.ts:382-476 | It deletes exactly the rows of the escrow or nothing, and nothing if a notification of the batch was saved after the dry run. |
| `EventIngestion.StepKeeps` | lib/core/event-processor.ts:24-62 | Every step of handlers, reconciliation, dry run and apply run keeps: rows say what their events say and have their parents, ids are unique, and nothing acknowledged is lost. |
| `EventIngestion.AcknowledgedIsKept` | lib/core/event-processor.ts:24-62 | In every run of such steps, in any order: from the moment a tracked event is acknowledged on it is in the notifications, the orphans or an escrow, with what it said, and each table has at most one row per notification id. |
| `EventPagination.BranchSound` | service/events-service/events-utils.ts:101-111 | A branch holds distinct rows of its type that meet the filters, in order, at most offset + limit of them; a matching row is left out only when the branch is full, and then comes after all of it. |
| `EventPagination.FrontInUnion` | service/events-service/events-utils.ts:101-114 | Each of the first offset + limit rows of the plain list is in the union of the cut branches. |
| `EventPagination.SameFront` | service/events-service/events-utils.ts:112-114 | Two ordered lists, one a part of the other that holds its first n rows, have the same first n rows. |
| `EventPagination.PageIsPlain` | service/events-service/events-utils.ts:92-115 | The page from the cut per-type streams is the page of filtering by the set of types, sorting by (created, id) and slicing, for any number of types and repeated names. |
| `EventWalk.PlainList` | service/events-service/events-utils.ts:92-115 | The plain list is in order and holds exactly the matching rows, each once. |
| `EventWalk.PageDirection` | service/events-service/events-utils.ts:92-115 | An ascending page goes forward by date, and by id among equal dates; a descending one goes backward. |
| `EventWalk.PageRows` | service/events-service/events-utils.ts:92-111 | Every row of a page is of the site, of one of the kinds, strictly between begin and end, and beyond the cursor: later or of a greater id when ascending, earlier or of a smaller id when descending; there are at most `limit`. |
| `EventWalk.PageLeavesOut` | service/events-service/events-utils.ts:92-115 | A matching row beyond the cursor is left out of a page without offset only if the page is full, and then every row of the page comes before it in the direction of the page. |
| `EventWalk.WalkDirection` | service/events-service/events-utils.ts:118-141 | A walk through all pages goes in that one direction, too. |
| `EventWalk.CursorReaches` | service/events-service/events-utils.ts:118-141 | Over a fixed table the k-th page is the k-th slice of the plain list after the start, and its cursor is the key of the last row so far. |
| `EventWalk.WalkVisitsAll` | service/events-service/events-utils.ts:118-141 | The pages joined are the plain list from the start on, each row once, in order, ascending or descending. |
| `EventWalk.WalkEnds` | service/events-service/events-utils.ts:118-141 | The walk reaches an empty page. |
| `EventWalk.CursorMoves` | service/events-service/events-utils.ts:134-138 | With the table changing between pages the cursor passes every row of a page and never goes back. |
| `EventWalk.KeysGrow` | service/events-service/events-utils.ts:118-141 | With the table changing between pages keys stay strictly monotone, so no row repeats. |
| `EventWalk.NothingMissed` | service/events-service/events-utils.ts:118-141 | A row that was there throughout, past the offset of the first page, has been returned by the time an empty page is reached. |
| `EventCursor.Base64RoundTrip` | service/events-service/events-utils.ts:44-46 | The base64url text of bytes decodes to these bytes. |
| `EventCursor.Alphabet` | service/events-service/events-utils.ts:44-46 | The characters are those of the base64url alphabet of RFC 4648, in its order. |
| `EventCursor.SameNumber` | service/events-service/events-utils.ts:44-46 | Three bytes and the four characters for them are the same number of 24 bits. |
| `EventCursor.CursorLayout` | service/events-service/events-utils.ts:44-46 | A cursor, decoded and parsed, is the object with v, created, id and order, each with its field. |
| `EventCursor.CursorRoundTrip` | service/events-service/events-utils.ts:44-69 | An encoded cursor decodes to itself under its own order, and is refused under the other order. |

## Left out

- File system work: parent directories, ownership and identity checks, exclusive creation and links. A file is a fixed sequence of bytes, and its size is checked before any line is read.
- EscrowLines.LineIterator.constructor: takes files within the byte limit only; larger ones are refused when the file is opened, so the limit check inside the read loop is never reached.
- Checks on JavaScript values: plain objects, exact key sets, wrong types, invalid Date objects. Datatypes leave only the conditions on fields. For parsed escrow lines the key sets are modelled.
- JSON numbers that are not written as integers are read as numbers without a value and refused wherever an integer is expected.
- JsonDuplicateKeyScanner.Scanner.Scan: does not model that a deeply nested text can exhaust the stack of the original.
- The parser's choice of the last of several equal names, except for cursors; the escrow refuses such lines before it parses them, and the second pass sees only lines that were accepted.
- TaskQueue.Queue.UpdateMetrics: keeps the settled and failed counts; minimum, maximum and sum of the durations are left out, which are floating point clock readings.
- TaskQueue.Queue.TriggerFinish: does not call the finish listeners, and of the statistics keeps the settled and failed counts; minimum, maximum, average and rate are left out.
- NewsletterSend.Attempt.SendStep: does not model the error row that is written after a failed send, whose own failure is only logged, nor a crash of the process between a send and its record.
- NewsletterSend.Attempt.ProcessBatch: the recipients are given; building the payload, checking the message attributes and loading the contents would add only early errors.
- SqsPool.Pool.HandlerEnds: a handler that misses its deadline may still end later; nothing looks at it then.
- Polling, back-off, circuit breaker, receive deadlines and telemetry of the queue worker: separate counters around the pool.
- EventIngestion.Ingestion.PersistMissingParent: models the newsletter configuration, which has an orphan table; without one the handler throws for a missing parent.
- EventIngestion.Ingestion.ApplyEscrow: has one batch per escrow, and of its rows the messages and notifications; all rows of all batches are in RetentionExact.
- EventPagination.PageIsPlain: does not model the check that the offset is at most 10000 and safe, the splitting of the type parameter at OR, and the join that finds the tenant of a notification, which is a column here.
- EventCursor.CursorRoundTrip: decoding of bytes that are not UTF-8 is not modelled, and the date parser is a parameter.
- The flag that lets one analytics query run at a time: set on entry and cleared on every exit, an easy member.
- RetentionDryRun.ExecuteDryRun: runs with both outputs asked for; the other combinations do less. The machine-wide lock around it and the publication of the files are left out.
- RetentionApplier.ExecuteApply: the lock provider answers once and its lease is released once; the database lock behind it is not part of this model.
- Command line flags, reading of JSON files, HTTP routes, dashboard, sessions, the worker supervisor and the shutdown of the server.
