# Quixi: a verified model

Quixi keeps conversations with language models in a local archive: it streams provider
responses into durable records, imports exported conversation trees, extracts text from PDF
pages, and indexes everything in bounded chunks with an embedded tokenizer. This project
models the parts of it where an error would be silent, and proves what they promise.

- **Tokenizer and search chunker.** `Utf8`, `Bytes`, `UnicodeTables`, `UnicodeFile`,
  `Vocabulary`, `WordPiece`, `WordBuffer`, `TokenMachine`, `Tokenizer`, `EntryPoints` and
  `TokenSpans` follow the C tokenizer down to its buffers and prove that its three entry
  points refine one pure WordPiece definition; `TokenLaws` says what that definition makes
  of a text, byte by byte. `Boundary`, `Chunker` and `ChunkGeometry` follow the streaming
  chunker, `ChunkTokenizer` puts the tokenizer under it, `Classifier` scans its overlapping
  chunks and `FenceLaws` says what it finds. `ModelFile` and `TokenizerFile` are the writers
  and the readers of the two binary packages.
- **Provider stream.** `TextStream` decodes bytes, `Sse` frames records, `Normalizer` turns
  them into events (`StreamHistory` tells which, from the records alone), `Generation`
  batches text into sequenced checkpoints under an idle flush timer, `Receipts` stores
  thinking blocks, and `Binding`, `Evidence`, `StoredEvidence`, `Reconstruction` and
  `Refusals` prove exactly when the two readers recover what was stored; `StoredOrder`
  proves in what order it is. `ByteCounts`, `JsonText`, `ReceiptText` and `Sorting` serve
  them.
- **Protocols under loss.** `Upload` (runs cut off at any storage call, whose requests land
  later), `ExtractionWrite` (refusals, lost replies, late commits) and `Commit` (three
  attempts over a schedule of the same).
- **Imports.** `Import`: the worklist over a dependency graph, identity by content revision,
  attachment to the nearest valid ancestor, re-import.
- **Derived data.** `Library` (trigger-maintained rows against their backfill query),
  `Intake`, `Layout`, `Gutter`, `Emission` and `Staging` (PDF page text, checked, reordered,
  emitted and staged without loss).

Code that changes state is modelled by classes, arrays and loops, each proved against a
specification; the theorems are about those specifications. Strings are sequences of UTF-16
units; storage is a peer that applies an operation ID at most once; and `Upload`,
`ExtractionWrite` and `Import` know a digest by what it was taken of.

Where code and documentation disagree the model follows the code, and where the code does
not always do what its neighbours rely on, the exact condition is a theorem.

- The comment on `CHUNK_OFFSET_CAPACITY` argues from windows of at most 4098 units, but the
  chunker's policy admits windows of up to 65,536; over all normalizations that yield at
  most three scalars a scalar the capacity is enough for windows of up to 5460 and for no
  longer ones (`ChunkTokenizer.CapacityExactly`). The table that fails at 5461 triples a
  syllable and is not the one shipped, but no tripling is needed: 16,383 copies of one
  ideograph fail under every table that keeps it (`ChunkTokenizer.RepeatedOffsets` with k =
  1).
- The idle flush may be missed: a timer that goes off while a commit is in flight is not set
  again, so text may wait for the next event, however long that takes
  (`Generation.PendingIsTimed` has the exact condition, `Generation.FlushMissed` the run).
- A checkpoint commit may throw although its batch is durable (`Commit.ThrowsOverDurable`,
  `Commit.RunLeaves`).
- A stream may write receipts that nobody can read (`Receipts.LiveReceiptReadable`), and
  receipts rebuilt from a live run's segments are not always the ones it wrote; those of a
  run that is cut off before its terminal marker are never rebuilt, though it has stored
  them (`Reconstruction.RebuildsIffWhole`, `Refusals`).
- A request that lands after the run that made it was cut off may leave a transfer behind
  (`Upload.EscapesExactly`) or an upload that can never be finished (`Upload.LostForGood`).

## Model

| member | source | states |
|---|---|---|
| Boundary.FindLast | packages/search/src/chunker.ts:36-44 | the match loop keeps the end of the last accepted match of a pattern within the limit, or 0 |
| Boundary.LastCutIsLast | packages/search/src/chunker.ts:33-47 | for headings, list items, fences, sentences and white space that end is the furthest within the limit of all places the pattern matches; blank lines are `BlankLinesFollow` |
| Boundary.MatchesNest | packages/search/src/chunker.ts:33-47 | no match of those patterns begins inside another and ends past it, so the left-to-right scan misses none |
| Boundary.BlankLinesFollow | packages/search/src/chunker.ts:36-44 | blank lines are matched one behind another: the end of the third of three line feeds is no cut |
| Utf16.SpaceTable | packages/search/src/chunker.ts:36-49 | white space is the 25 code units of ECMA-262, one by one; the chunker's expressions and the page layout use the same class |
| Boundary.Classes | packages/search/src/chunker.ts:36-36 | the character classes of the expressions, character by character |
| Boundary.MatchEndMatches | packages/search/src/chunker.ts:36-36 | what the scan takes for a match at a place, and its end, is what the expression matches there, told by the parts of the text it joins |
| Boundary.CutPlaces | packages/search/src/chunker.ts:33-51 | the cut stands behind the furthest match of the first of the five kinds that ends within the limit (blank lines: behind one of their matches), else of white space, else at the limit; it counts as structural exactly when one of the five does |
| Boundary.LastCutClean | packages/search/src/chunker.ts:28-51 | no cut a pattern proposes stands inside a surrogate pair or a CRLF once made safe |
| Boundary.FindBoundary | packages/search/src/chunker.ts:33-51 | patterns are tried in order of preference; the first that has a cut decides, else white space, else the limit |
| Boundary.CutProgress | packages/search/src/chunker.ts:33-51 | a cut always lies strictly after the start and at most at the limit |
| Boundary.CutIsLocal | packages/search/src/chunker.ts:33-51 | text beyond the window cannot move the cut, which is what lets a bounded buffer cut as the whole source would |
| Chunker.CheckSpans | packages/search/src/chunker.ts:92-101 | rejects exactly the span lists that are out of order, empty or out of the window |
| Chunker.PolicyIs | packages/search/src/chunker.ts:66-68 | which policies are admitted, and the defaults |
| Chunker.StructuralChunker.DrainBuffer | packages/search/src/chunker.ts:104-125 | draining yields the chunks of `Drain`, leaves its rest and numbers chunks on; `ChunkGeometry.StepCutsWell` says where each step cuts and how far it goes back |
| Chunker.StructuralChunker.PushSlices | packages/search/src/chunker.ts:80-86 | slices fill the buffer to at most `maxCharacters + 2` units and yield what the specification of a push yields |
| Chunker.StructuralChunker.PushFragment | packages/search/src/chunker.ts:77-87 | a finished chunker and an oversized fragment are refused, anything else is pushed in slices |
| Chunker.StructuralChunker.Finish | packages/search/src/chunker.ts:88-91 | finishing emits everything that is left |
| Chunker.DrainIsPrefix | packages/search/src/chunker.ts:104-125 | chunks emitted early are exactly a prefix of the chunks of the whole source |
| Chunker.FragmentationIndependence | packages/search/src/chunker.ts:77-130 | any split of a source into pushes, with or without a tokenizer, gives the chunks (and the failure, if any) of one recursive definition over the whole source |
| Chunker.ChunkText | packages/search/src/chunker.ts:126-130 | feeding 64 Ki slices gives the chunks of the whole text |
| ChunkGeometry.StepGeometry | packages/search/src/chunker.ts:104-124 | one cut: starts strictly advance, overlap is at most `overlapCharacters + 1`, no end splits a pair or CRLF |
| ChunkGeometry.StepCutsWell | packages/search/src/chunker.ts:104-124 | a cut at a structural place or at the end of the buffer is followed by no overlap; any other by exactly the smaller of `overlapCharacters` and the length less one, one more where that would split a pair or CRLF, and none where it then would not advance; the window is the policy's, or ends where the first token over budget begins |
| ChunkGeometry.ChunksLaid | packages/search/src/chunker.ts:104-124 | over a whole source: every chunk but the last cuts and overlaps just so, starts strictly increase, each start is at most the previous end, ends do not split pairs or CRLF, the last chunk reaches the end |
| ChunkGeometry.ChunksRebuild | packages/search/src/chunker.ts:104-124 | each chunk cut at the next start, plus the last whole, concatenate to the source |
| ChunkGeometry.ChunkingIsFaithful | packages/search/src/chunker.ts:104-130 | layout and reconstruction together, from any base offset |
| ChunkGeometry.StepFaultExactly | packages/search/src/chunker.ts:92-124 | the exact condition under which one cut fails: rejected spans, or a token budget that ends before the first safe cut |
| ChunkGeometry.PlainChunkingNeverFails | packages/search/src/chunker.ts:104-124 | without a tokenizer chunking never throws |
| ChunkGeometry.BoundaryNeverStuck | packages/search/src/chunker.ts:104-124 | the failure reported for a boundary without progress is unreachable |
| Classifier.CodeChunkClassifier.Classify | packages/search/src/query.ts:118-155 | scans only what a chunk adds beyond what was consumed; identity and source type change exactly when code is present |
| Classifier.ClassifyReadsOnce | packages/search/src/query.ts:118-155 | classifying chunks in turn leaves fence and line state as one scan up to the furthest end seen, even when a chunk lies inside an earlier one |
| Classifier.ClassifiedSource | packages/search/src/query.ts:113-156 | classifier over chunker: after a complete run the state is that of one scan of the whole source |
| Classifier.ClassifySource | packages/search/src/query.ts:113-156 | chunking a source and classifying chunk by chunk: texts and places are kept, a chunk is code exactly when the scan before it, its text or what is new of it holds a fence, and the source is read once |
| FenceLaws.MarkIs | packages/search/src/query.ts:128-132 | a line has a fence mark exactly when it begins with at most three blanks and three or more equal backticks or tildes |
| FenceLaws.LinesScanned | packages/search/src/query.ts:130-145 | after any text a fence is open exactly if one of its lines opened it where none was and no later line closed it with a mark of the same kind that is no shorter; lines count up to 256 units |
| FenceLaws.ClassifiedExactly | packages/search/src/query.ts:126-154 | a chunk of a source becomes code exactly when it is no tool output and a fence is open where the chunks before it have read to, a line of its own begins with a fence mark, or a line with one ends in what it adds |
| Utf8.DecodeNext | packages/quixi-embed/native/tokenizer.c:64-76 | the decoding loop computes the closed form of one decoding step |
| Utf8.DecodeEncoded | packages/quixi-embed/native/tokenizer.c:64-82 | decoding an encoded scalar gives it back, whatever follows |
| Utf8.DecodeOnlyEncoded | packages/quixi-embed/native/tokenizer.c:64-76 | nothing else decodes: overlong forms, surrogates, stray and truncated bytes fail (section 4 of RFC 3629) |
| Utf8.WellFormedIffEncoding | packages/quixi-embed/native/tokenizer.c:64-82 | the byte strings that decode to the end are exactly the encodings of scalar sequences, each of one |
| Utf8.DecodeAllEncoded | packages/quixi-embed/native/tokenizer.c:64-82 | round trip over whole texts |
| Utf8.EncodingTable | packages/quixi-embed/native/tokenizer.c:64-82 | the encoding, bit by bit, as the table in section 3 of RFC 3629 lays it out |
| Bytes.Unpack32 | packages/quixi-embed/native/internal.h:9-11 | reading a packed 32-bit little-endian value gives it back |
| Bytes.Read64 | packages/quixi-embed/native/internal.h:9-12 | a stretch of bytes that holds a packed 64-bit value reads as that value |
| UnicodeTables.Ranges | packages/quixi-embed/compiler/compile_model.py:24-31 | merging consecutive values gives canonical ranges that cover exactly the input values |
| UnicodeTables.CanonicalOrdered | packages/quixi-embed/compiler/compile_model.py:24-31 | canonical ranges pass the loader's order check |
| UnicodeTables.WrittenRanges | packages/quixi-embed/compiler/compile_model.py:61-69 | packed ranges read back exactly |
| UnicodeTables.WrittenEntries | packages/quixi-embed/compiler/compile_model.py:63-65 | packed mapping entries read back exactly |
| UnicodeTables.ValidRanges | packages/quixi-embed/native/tokenizer.c:30-35 | the check accepts exactly ordered ranges within the scalar values |
| UnicodeTables.InRanges | packages/quixi-embed/native/tokenizer.c:53-58 | binary search says yes exactly for code points some range covers |
| UnicodeTables.FindMapping | packages/quixi-embed/native/tokenizer.c:149-158 | binary search finds an entry exactly when one exists |
| UnicodeTables.WrittenTableIsExact | packages/quixi-embed/compiler/compile_model.py:24-31 | writer and reader together: the table written for a set of code points is accepted and the search is true exactly for them |
| UnicodeFile.ValidMapping | packages/quixi-embed/native/tokenizer.c:46-50 | accepts exactly mappings with increasing code points and ranges inside the pool |
| UnicodeFile.Init | packages/quixi-embed/native/tokenizer.c:36-52 | accepts exactly the byte strings whose counts, ranges and mappings are usable |
| UnicodeFile.WrittenIsRead | packages/quixi-embed/compiler/compile_model.py:60-71 | written tables read back exactly and are accepted exactly when usable |
| UnicodeFile.AcceptedIsWritten | packages/quixi-embed/native/tokenizer.c:36-52 | nothing else is accepted: accepted bytes are the ones the writer writes for the tables they hold |
| Vocabulary.HashBytes | packages/quixi-embed/native/tokenizer.c:6-8 | the 32-bit wrapping FNV hash, byte by byte |
| Vocabulary.FreeSlot | packages/quixi-embed/native/tokenizer.c:9-19 | with fewer words than slots a free slot always exists, so insertion terminates |
| Vocabulary.Insert | packages/quixi-embed/native/tokenizer.c:14-16 | in-place linear-probing insertion keeps the table invariant |
| Vocabulary.Find | packages/quixi-embed/native/tokenizer.c:20-29 | probing equals a linear search for the first equal line |
| Vocabulary.LookupIsFirst | packages/quixi-embed/native/tokenizer.c:20-29 | that search gives the least id whose line equals the word |
| Vocabulary.Load | packages/quixi-embed/native/tokenizer.c:9-19 | one pass accepts exactly 30,522 nonempty lines of at most 65,535 bytes and builds their table |
| WordPiece.LongestIsLongest | packages/quixi-embed/native/tokenizer.c:106-123 | the piece chosen is the longest stretch whose bytes, behind `##` unless it begins the word, are a line of the vocabulary, under the least such line; without one nothing is chosen |
| WordPiece.GreedyCovers | packages/quixi-embed/native/tokenizer.c:106-123 | pieces of a word join up from its first letter to its last |
| WordPiece.GreedySegments | packages/quixi-embed/native/tokenizer.c:106-123 | the segmentation is the one division of the word into such longest pieces, and fails exactly when there is none |
| WordPiece.WordTokens | packages/quixi-embed/native/tokenizer.c:97-123 | a word of at most 100 letters that divides so gives a token for every piece, over that piece's letters; any other the unknown token 100 over all of it |
| Tokenizer.State.LongestMatch | packages/quixi-embed/native/tokenizer.c:110-118 | shortening byte by byte to letter boundaries finds the piece of `Longest`, which `WordPiece.LongestIsLongest` pins to the vocabulary's bytes |
| Tokenizer.State.Segment | packages/quixi-embed/native/tokenizer.c:106-123 | greedy segmentation in the 400-byte and 100-piece buffers, one miss making the word unknown |
| Tokenizer.State.Flush | packages/quixi-embed/native/tokenizer.c:97-123 | ends the pending word: its pieces, or the unknown token over the whole word beyond 100 letters or on a miss |
| Tokenizer.State.Normalized | packages/quixi-embed/native/tokenizer.c:124-134 | a normalized letter ends the word, is a word of its own, or joins it; the word buffer is never overrun |
| Tokenizer.State.Process | packages/quixi-embed/native/tokenizer.c:135-161 | one pass over a text adds the specified tokens, stopping early only once a bounded output is full |
| Tokenizer.FindSpecial | packages/quixi-embed/native/tokenizer.c:136-142 | literal markers are recognised in order and only after an opening bracket |
| TokenMachine.MachineIsTokens | packages/quixi-embed/native/tokenizer.c:88-161 | the incremental machine over items yields exactly the recursively defined tokens |
| TokenMachine.DocumentTokens | packages/quixi-embed/native/tokenizer.c:162-197 | a document's tokens are the opening token, the specified tokens, the closing token |
| TokenMachine.TokensBounded | packages/quixi-embed/native/tokenizer.c:135-161 | a text has at most one token for every normalized letter or marker |
| TokenLaws.MarkersRead | packages/quixi-embed/native/tokenizer.c:136-142 | the five literal markers, byte by byte, with their ids, over their own bytes |
| TokenLaws.ScalarsRead | packages/quixi-embed/native/tokenizer.c:143-161 | any other scalar is read as the letters its mapping spells, as itself without one, as none when deleted; each letter stands for the whole scalar in bytes and UTF-16 units |
| TokenLaws.TokensDivide | packages/quixi-embed/native/tokenizer.c:124-134 | tokens of a text are those of its two parts wherever a marker, a space, punctuation or an ideograph stands at the seam |
| TokenLaws.PartsAlone | packages/quixi-embed/native/tokenizer.c:124-142 | such a part is by itself its token, nothing, or a word of one letter |
| TokenLaws.WordsWhole | packages/quixi-embed/native/tokenizer.c:124-134 | letters that none of these part are one word |
| EntryPoints.Validate | packages/quixi-embed/native/tokenizer.c:162-173 | the first pass accepts exactly well-formed text |
| EntryPoints.TokenizeBounded | packages/quixi-embed/native/tokenizer.c:162-173 | ids up to a limit, computed as a prefix of the full token list, then the closing token |
| EntryPoints.Tokenize | packages/quixi-embed/native/tokenizer.c:174-178 | the first min(511, n-1) tokens of the full list, then SEP |
| EntryPoints.InspectTokens | packages/quixi-embed/native/tokenizer.c:179-182 | min(n, 513) for the full count n |
| EntryPoints.TokenizeOffsets | packages/quixi-embed/native/tokenizer.c:183-197 | all tokens with offsets, or the exact count needed when the capacity is too small |
| TokenSpans.ItemsRise | packages/quixi-embed/native/tokenizer.c:135-161 | items name stretches of the text with nondecreasing starts and ends |
| TokenSpans.SourceStretches | packages/quixi-embed/native/tokenizer.c:83-161 | every token of a text names a nonempty stretch of it, the same in bytes and in UTF-16 units, in order |
| TokenSpans.DocumentOffsets | packages/quixi-embed/native/tokenizer.c:183-197 | a document's source tokens are exactly those between the framing ones, and name such stretches |
| TokenSpans.PrefixEnds | packages/quixi-embed/native/tokenizer.c:168-169 | the query prefix ends with a space, so it leaves no word open where the tables keep the space |
| TokenSpans.QueryTokens | packages/quixi-embed/native/tokenizer.c:162-197 | every query is the opening token, the prefix's tokens, the text's tokens and the closing token if and only if the prefix leaves no word open, a condition on the tables alone |
| TokenSpans.QueryOffsets | packages/quixi-embed/native/tokenizer.c:183-197 | when the prefix leaves no word open, a query's source tokens stand behind the prefix's and name stretches of the text alone: the prefix shifts no offset |
| ChunkTokenizer.Filter | packages/quixi-embed/src/chunking.ts:29-42 | the loop's output is monotone in starts, without empty spans |
| ChunkTokenizer.FilterIsIdentity | packages/quixi-embed/src/chunking.ts:29-42 | on the tokenizer's own output it changes and drops nothing |
| ChunkTokenizer.OffsetsAccepted | packages/quixi-embed/src/chunking.ts:29-42 | the spans passed on always satisfy the chunker's order and bound checks |
| ChunkTokenizer.OffsetsExist | packages/quixi-embed/src/chunking.ts:14-42 | 16,384 records suffice for windows of at most 5460 units |
| ChunkTokenizer.CapacityExactly | packages/quixi-embed/src/chunking.ts:14-17 | 16,384 records suffice for every window of up to m units, whatever the normalization that yields at most three scalars a scalar, if and only if 3m + 2 <= 16,384: up to 5460 units |
| ChunkTokenizer.RepeatedOffsets | packages/quixi-embed/src/chunking.ts:14-42 | n scalars that normalize to k ideographs each fit exactly while kn + 2 <= 16,384 |
| ChunkTokenizer.TokenChunking | packages/quixi-embed/src/chunking.ts:22-46 | for windows of up to 5460 units chunking with this tokenizer can fail only on a token budget that allows no safe cut |
| ChunkTokenizer.TokenChunkingExactly | packages/quixi-embed/src/chunking.ts:14-46 | for an admissible policy that holds of every source and such normalization if and only if 3 maxCharacters + 2 <= 16,384 |
| Sse.SSEDecoder.FinishLine | packages/providers/src/sse.ts:52-74 | one line: dispatch, comment or field, as specified, with the name and value that `Sse.FieldRules` tells apart |
| Sse.FieldRules | packages/providers/src/sse.ts:60-70 | the decoder finds a line's field name and value exactly where the line is the name alone, the name, a colon, a space and the value, or the name, a colon and a value that begins with no space |
| Sse.SSEDecoder.PushText | packages/providers/src/sse.ts:16-51 | a push yields the specified records, state and failure |
| Sse.FragmentationIndependence | packages/providers/src/sse.ts:16-51 | records and failures do not depend on how decoded text is split across pushes, CR and LF in different pushes included |
| Sse.PushIsLines | packages/providers/src/sse.ts:16-74 | decoding is line splitting followed by field interpretation |
| Sse.DecodingIsLinesAndFields | packages/providers/src/sse.ts:16-75 | for whole streams, with the exact condition for the unfinished-record failure |
| Sse.LinesRead | packages/providers/src/sse.ts:24-51 | lines written with any of the three ends are read back, and so is an unfinished one |
| Sse.TooLargeExactly | packages/providers/src/sse.ts:24-37 | the size failure comes exactly when more than 262,144 bytes are read behind the last blank line |
| Sse.RecordsAreStandardEvents | packages/providers/src/sse.ts:16-75 | the records are the events of sections 9.2.5 and 9.2.6 of the WHATWG HTML standard, whose field rules are stated over the bytes of the line; up to per-record ids and a kept empty type |
| TextStream.PartialIff | packages/providers/src/sse.ts:9-23 | the bytes held between chunks are exactly the proper beginnings of encoded characters |
| TextStream.ChunkAppend | packages/providers/src/sse.ts:16-23 | decoding two chunks in turn is decoding them joined, a character split between them and a leading byte order mark included |
| TextStream.ChunkingIndependence | packages/providers/src/sse.ts:16-23 | however a stream's bytes are chunked its text, and the failure to decode it, are the same |
| TextStream.StreamSays | packages/providers/src/sse.ts:16-23 | a whole stream, however chunked: bytes that encode a text give that text without one byte order mark in front, any others fail |
| TextStream.StreamSaysSoFar | packages/providers/src/sse.ts:16-23 | and one that goes on gives what its bytes say so far, the beginning of one more character held back |
| ByteCounts.Utf8Subadditive | packages/providers/src/normalize.ts:161-176 | joining fragments never takes more UTF-8 bytes than the fragments were charged for, even across a split surrogate pair |
| ByteCounts.JsonSubadditive | packages/providers/src/normalize.ts:405-413 | the same for escaped JSON bytes (section 7 of RFC 8259) |
| JsonText.Utf8LengthIs | packages/providers/src/normalize.ts:161-176 | the UTF-8 count is the length of the encoded text, an unpaired surrogate as U+FFFD |
| JsonText.JsonBodyIs | packages/core/src/contracts/serialization.ts:6-18 | the JSON count is the length of the encoded JSON string |
| JsonText.EscapedReadsBack | packages/core/src/contracts/serialization.ts:6-18 | and every string, unpaired surrogates included, is read back from that (section 7 of RFC 8259) |
| Normalizer.Stream.Take | packages/providers/src/normalize.ts:48-71 | one record: the class accepts, refuses and emits as the transition function does |
| Normalizer.Stream.Open | packages/providers/src/normalize.ts:338-388 | a block start, type by type |
| Normalizer.Stream.Catch | packages/providers/src/normalize.ts:356-382 | begins a thinking capture within its block, total and count limits |
| Normalizer.Stream.Grow | packages/providers/src/normalize.ts:390-444 | a block delta, type by type |
| Normalizer.Stream.Append | packages/providers/src/normalize.ts:397-413 | a thinking or signature fragment joins its capture within order and credit |
| Normalizer.Stream.Close | packages/providers/src/normalize.ts:445-461 | a block stop: a finished tool call, a complete thinking block, or nothing |
| Normalizer.AcceptKeeps | packages/providers/src/normalize.ts:319-487 | every accepted record keeps the ledger of open tools and captures, and pays for what it emits |
| Normalizer.OpenBlocksAreHeld | packages/providers/src/normalize.ts:161-198 | over every accepted run open tools and captures are exactly the unclosed blocks of those types, the tool counter covers what is buffered, and both maps are empty once ended |
| StreamHistory.StreamsAllowed | packages/providers/src/normalize.ts:319-487 | a stream of any length is accepted exactly when every record is one that the records before it allow, told from their history alone with every limit written out, and then its events are the ones that history says |
| StreamHistory.TextPieces | packages/providers/src/normalize.ts:142-160 | text is handed over whole, in pieces of at most 16,384 units, all but the last within one of that, and no pair in two of them |
| Generation.SealedRun | packages/providers/src/generation.ts:383-654 | for every interleaving: once the manifest is dispatched, storage gets all the text that arrived, in segments of at most 8192 units none of which ends inside a surrogate pair of an event's text, all other parts in order, the manifest last, sequences and orders without a gap, and nothing changes afterwards |
| Generation.TextLoopEnds | packages/providers/src/generation.ts:326-382 | however timer and flushes interleave, the text loop leaves after a number of its own steps bounded by four for every unit left and a constant |
| Generation.TurnProgress | packages/providers/src/generation.ts:326-382 | every turn lowers the loop's measure: it consumes text, or closes the segment at most once before it does |
| Generation.StepKeeps | packages/providers/src/generation.ts:262-456 | every step of loop, timer, commit and background flush keeps the invariant |
| Generation.DispatchedInOrder | packages/providers/src/generation.ts:262-456 | for every interleaving the dispatched mutations carry sequences 1, 2, 3, ... and parts take orders 0, 1, 2, ... with no append refused |
| Generation.DeliveredText | packages/providers/src/generation.ts:326-382 | between events with nothing pending storage holds exactly what arrived, in the same sense |
| Generation.PendingIsTimed | packages/providers/src/generation.ts:284-295 | whenever text waits a timer is set, except exactly when the last timer went off during a commit and nothing has arrived since |
| Generation.IdleFlush | packages/providers/src/generation.ts:276-295 | a timer that is set while nothing is in flight has a step that brings everything to storage |
| Generation.FlushMissed | packages/providers/src/generation.ts:288-295 | the exception is real: a run of ten states ends with text waiting, no timer set and nothing in flight |
| Generation.WaitsForEvent | packages/providers/src/generation.ts:288-295 | and then nothing moves before the next event |
| Generation.LittleWaits | packages/providers/src/generation.ts:376-379 | at every moment of a run that is not over fewer than 16 mutations and less than 4096 bytes of text wait |
| Generation.FlushesFull | packages/providers/src/generation.ts:376-379 | and the text loop dispatches by itself only a batch of that size |
| Generation.FailureStops | packages/providers/src/generation.ts:293-301 | after a failed flush nothing is dispatched but what was waiting or staged by then |
| Generation.PieceIsLongest | packages/providers/src/generation.ts:331-341 | a piece takes all the room there is, short of one unit only for a surrogate pair |
| Generation.TextStaysWhole | packages/providers/src/generation.ts:326-382 | the text of one block, however it is handed over, fills every part but its last to 8191 units at least |
| Receipts.AcceptShows | packages/providers/src/normalize.ts:319-487 | every accepted record has one of seven effects on thinking blocks, with exactly the events of that effect |
| Receipts.EventLoop.Take | packages/providers/src/generation.ts:565-604 | the event loop's branch for each event, with all its receipt checks |
| Receipts.EventLoop.Retain | packages/providers/src/generation.ts:547-561 | a chunk is retained and counted before anything is parsed from it |
| Receipts.Generate | packages/providers/src/generation.ts:514-606 | the whole run over chunks and records is the one specified, accepted or refused where it is |
| Receipts.BlockIsAccepted | packages/providers/src/generation.ts:565-586 | a block the normalizer closes passes every check of the loop |
| Receipts.GenerationAcceptsStream | packages/providers/src/generation.ts:565-600 | the generation never throws on an event the normalizer emits, however the stream is chunked |
| Receipts.ReceiptsClose | packages/providers/src/generation.ts:547-586 | every receipt stands for a record that closed its block, and counts the records up to it and the chunks and bytes retained before it |
| Receipts.LiveReceiptReadable | packages/providers/src/reasoning.ts:66-114 | a receipt the live run wrote reads back if and only if its JSON text takes at most 272 KiB, and the requested and returned model names are within 256 units |
| Receipts.LongModelUnreadable | packages/providers/src/reasoning.ts:80-90 | a response that names its model in 257 to 4096 units leaves an unreadable receipt |
| Receipts.EscapedIdentityUnreadable | packages/providers/src/reasoning.ts:66-68 | and so does one whose identity is 4096 control characters and whose block is full, by its size |
| ReceiptText.BlockBytesAre | packages/providers/src/reasoning.ts:56-63 | the bytes counted for a block are those of its JSON text |
| ReceiptText.ReceiptBytesAre | packages/providers/src/generation.ts:580-585 | the bytes counted for a receipt are those of the JSON text that is stored |
| Sorting.SortRecovers | packages/providers/src/reasoning.ts:132-153 | sorting by a key recovers a strictly increasing sequence from any permutation |
| Binding.Select | packages/providers/src/reasoning.ts:132-149 | markers and openers, in part order |
| Binding.Pair | packages/providers/src/reasoning.ts:156-171 | binds position by position, or refuses on the first disagreement |
| Binding.Bind | packages/providers/src/reasoning.ts:127-172 | the binder's verdict, code by code, and an entry for every marker when it succeeds |
| Binding.BindsIffWoven | packages/providers/src/reasoning.ts:127-172 | for any parts and receipts: everything binds if and only if there is no marker, or markers, openers and receipts can be laid out as one of each for every block, in part order and by index, of one message and response and without overlap |
| Binding.RefusalsInOrder | packages/providers/src/reasoning.ts:140-158 | and why, check by check in this order, for any order of the parts and receipts |
| Evidence.PlayRecords | packages/providers/src/generation.ts:547-606 | the loop stores exactly the stream's blocks: markers and openers alternate in opening order, receipts are the closed blocks |
| Evidence.BindsIffOneAtATime | packages/providers/src/reasoning.ts:127-172 | for every live stream: binding succeeds if and only if nothing else is typed like a thinking block and the blocks closed one at a time with increasing indexes, for any order of the parts and receipts handed over |
| Evidence.MarkersBindTheirBlocks | packages/providers/src/reasoning.ts:156-171 | the k-th marker is then bound to the k-th block streamed: its index and the text, signature or data its fragments join to |
| StoredEvidence.ScriptGives | packages/providers/src/generation.ts:514-606 | what the event loop hands to checkpointing over a live stream is exactly the parts it counts and the text the stream's records carry |
| StoredEvidence.SealedRunTells | packages/providers/src/generation.ts:255-654 | for every interleaving of a generation sealed over a live stream storage holds exactly the stream's text and, the manifest behind them, exactly the parts the event loop counts |
| StoredOrder.SealedRunKeepsOrder | packages/providers/src/generation.ts:326-456 | and in every interleaving the stored parts say unit by unit and part by part what the event loop handed over, in that order, with only transport evidence elsewhere; no part holds text of two blocks |
| StoredEvidence.SealedRunRetains | packages/providers/src/generation.ts:255-324 | the parts such a generation has stored, under their orders, hold the event loop's evidence as the binder's theorems suppose |
| StoredEvidence.SealedRunBinds | packages/providers/src/reasoning.ts:127-172 | hence the same condition decides binding for every interleaving of a generation sealed over a live stream |
| Reconstruction.TakeAll | packages/providers/src/reasoning.ts:196-204 | records of one segment through the normalizer, as the replay specification says |
| Reconstruction.ReplayAll | packages/providers/src/reasoning.ts:192-208 | all segments through decoder and normalizer |
| Reconstruction.Finish | packages/providers/src/reasoning.ts:211-236 | receipts in closing order, or a refusal when a bound or an index repeats |
| Reconstruction.Reconstruct | packages/providers/src/reasoning.ts:181-237 | the reader computes the reconstruction specification, refusal by refusal |
| Reconstruction.FeedFinal | packages/providers/src/sse.ts:16-50 | marking the last segment final changes nothing but the checks that no record and no character is unfinished; the latter loses the segment's records |
| Reconstruction.PlayMirrors | packages/providers/src/reasoning.ts:192-204 | replay closes the same blocks at the same segment and byte counts as the live run |
| Reconstruction.RebuildsIffWhole | packages/providers/src/reasoning.ts:181-237 | for every live run, cut off or not: rebuilt receipts equal the ones it wrote if and only if it reached its terminal marker, the segments are at most 8 MiB, the last ends neither inside a record nor inside a character, and the stream named its model (or wrote no receipt) |
| Reconstruction.RebuildsOrRefuses | packages/providers/src/reasoning.ts:181-237 | and which refusal it is: too long, then a record or character unfinished, then no terminal marker; else the receipts written, with the model the stream named for the one returned |
| Refusals.ReadsBackUnless | packages/providers/src/reasoning.ts:192-209 | concrete live runs for it: one that reads back, and ones that do not for a missing model name, an open line, an undispatched data line, the first byte of a character, and a cut before the terminal marker after the receipt was stored |
| Refusals.LongRunRefused | packages/providers/src/reasoning.ts:185-191 | and one retained behind more than 8 MiB of blank lines |
| Commit.Storage.CommitRequest | packages/storage/src/worker/canonical/repository.ts:393-443 | refused, answered, or lost; a transaction takes effect at most once and its ID with another payload conflicts |
| Commit.Storage.DiscardTransfer | packages/providers/src/generation.ts:246-251 | a discard may fail or land later; the failure is not noticed |
| Commit.BatchStatus | packages/providers/src/generation.ts:152-170 | statuses read one by one: all, none, or a mixture |
| Commit.TryOnce | packages/providers/src/generation.ts:183-227 | the body of one attempt: resolve, stage, commit |
| Commit.CommitBatch | packages/providers/src/generation.ts:171-254 | three attempts: outcome and storage are those of the schedule of storage's fates |
| Commit.RunLeaves | packages/providers/src/generation.ts:171-254 | for every schedule: a return means a durable batch, applied once; a throw with no commit reply lost leaves it out for good; without a blob a throw leaves it in doubt exactly when a commit reply was lost; with one exactly when it is durable or the doubtful transfer's discard failed |
| Commit.FirstRefusalIsFinal | packages/providers/src/generation.ts:229-231 | anything but a lost reply in the first attempt is thrown, and the batch never commits |
| Commit.Faults | packages/providers/src/generation.ts:164-168 | a conflict is thrown only over a durable batch with a blob whose first discard failed, an inconsistency only over a durable batch of several operations |
| Commit.ThrowsOverDurable | packages/providers/src/generation.ts:171-254 | which throws can come over a durable batch: lost and refused always, a conflict if and only if there is a blob, an inconsistency if and only if there are several operations; with the schedules |
| Commit.ReturnsOnceAnswered | packages/providers/src/generation.ts:171-254 | a batch that is still undecided before one of its attempts is committed once and returned if storage answers from there on |
| Commit.ReturnsAfterLoss | packages/providers/src/generation.ts:171-254 | if storage answers from the moment a reply was lost, what has become durable by then is returned, and what has not is committed by the next attempt, if there is one |
| Upload.Store.Checkpoint | packages/storage/src/worker/canonical/import-work.ts:98-105 | compare-and-set by revision, once per operation ID: at most one save of a revision takes effect, a replay answers as before, another value is refused |
| Upload.Store.Finish | packages/storage/src/worker/blob-catalog.ts:107-124 | what was made durable finishes if and only if its transfer has not been discarded, once per operation ID |
| Upload.Store.Land | packages/importers/src/storage.ts:16-25 | a request left behind by a run that was cut off takes effect later as it would have, and breaks nothing the history promises |
| Upload.WorkCheckpoint.Save | packages/importers/src/storage.ts:20-24 | a save is refused only where a run cut off earlier has saved something else, and never after a save of the run's own: stale saves are defeated; left alone and up to date it is kept |
| Upload.Restart | packages/importers/src/upload.ts:16-20 | a begun attempt is discarded, if its begin has landed, before the next is named |
| Upload.Preserve | packages/importers/src/upload.ts:21-28 | the sent bytes are the source's bytes and `finishing` names their digest and length; left alone it fails exactly for a source of another length than announced |
| Upload.Complete | packages/importers/src/upload.ts:29-30 | from `finishing` on the original transfer, digest and length are retried and returned; left alone exactly unless that transfer was discarded |
| Upload.Upload | packages/importers/src/upload.ts:13-31 | one run, cut off anywhere, with other runs' requests landing anywhere, keeps the discipline of the history and returns the source's digest and length; one that is left alone returns exactly unless its transfer was discarded or its source has another length than announced |
| Upload.FinishingIsFinal | packages/importers/src/upload.ts:12-31 | once `finishing` is durable nothing is saved but its verification |
| Upload.ReturnsAgree | packages/importers/src/upload.ts:12-31 | in every disciplined history all returns give the same transfer, digest and length |
| Upload.EscapesBetween | packages/importers/src/upload.ts:16-20 | an attempt's transfer is discarded if its begin landed before a status read that let a run pass, and only if it landed before some status read of the attempt |
| Upload.EscapesExactly | packages/importers/src/upload.ts:16-20 | hence, when the status read that let a run pass is the attempt's only one, if and only if its begin landed before that read |
| Upload.LostForGood | packages/importers/src/upload.ts:26-29 | a durable blob whose transfer was discarded before it was finished is never returned, nor is any other |
| Upload.LateBegin | packages/importers/src/upload.ts:16-22 | the schedule in which a begin lands after the status read and its transfer stays |
| Upload.LateFinishing | packages/importers/src/upload.ts:16-29 | the schedule in which a `finishing` save lands while the next run discards its transfer, and the slot is stuck |
| Upload.Runs | packages/importers/src/upload.ts:12-31 | any number of runs: the history is disciplined and runs that return agree |
| ExtractionWrite.Storage.Send | packages/documents/src/persist-mutation.ts:50-62 | one dispatch under storage's schedule: refused, answered, or lost and committed later, never applied twice |
| ExtractionWrite.WriteMutation | packages/documents/src/persist-mutation.ts:31-77 | the loop's outcome, dispatches and waits are those of `Write` for every schedule of storage's fates |
| ExtractionWrite.WriteReturns | packages/documents/src/persist-mutation.ts:31-77 | for every schedule: a value exactly when a dispatch is answered behind refusals within 30 seconds, paced by 25 ms, or a lost one is found committed or answered the second time; pending exactly when a reply was lost and none of that follows; an error exactly with a definite refusal, a spent patience or a seen abort |
| ExtractionWrite.WriteLeaves | packages/documents/src/persist-mutation.ts:31-77 | one operation ID and payload is dispatched, at least once unless aborted; a value is its committed result, a plain error means it neither has committed nor will, only a pending one is in doubt |
| ExtractionWrite.WriteAll | packages/documents/src/persist.ts:59-167 | writes in turn, stopped at the first failure, as `Writes` says |
| ExtractionWrite.Extract | packages/documents/src/persist.ts:101-167 | the writes of a working run and its completion, as `Extraction` says |
| ExtractionWrite.Persist | packages/documents/src/persist.ts:50-187 | the workflow with its interrupt, as `Persistence` says |
| ExtractionWrite.PersistenceLeaves | packages/documents/src/persist.ts:50-187 | for every schedule: only that operation is in doubt and after an unknown outcome no other is dispatched; a run that is completed, before or by this one, is never interrupted, and one whose extraction fails for certain is |
| ExtractionWrite.PersistenceCompletes | packages/documents/src/persist.ts:50-187 | when storage answers everything the workflow completes: each write dispatched once, in order, and committed |
| Import.GroundedIffTree | packages/storage/src/worker/canonical/import-work.ts:116-135 | complete and acyclic is the same as every chain of parents ending at a root |
| Import.ThreadNormalizer.Resolve | packages/storage/src/worker/canonical/import-work.ts:106-115 | resolving an item makes exactly its children ready |
| Import.ThreadNormalizer.Settle | packages/importers/src/normalize.ts:52-81 | what a node or part resolves to, and the message staged for a new revision |
| Import.ThreadNormalizer.Work | packages/importers/src/normalize.ts:187-190 | any ready item keeps the invariant |
| Import.ThreadNormalizer.NormalizeGroup | packages/importers/src/normalize.ts:186-192 | for any order of ready work the loop ends normally exactly when the graph is complete and acyclic |
| Import.StagedParents | packages/importers/src/normalize.ts:52-75 | every new message's parent is what its nearest ancestor with a valid role resolved to |
| Import.OneMessageEach | packages/importers/src/normalize.ts:66-80 | one new message, under a fresh id, for every valid node whose revision is not published, and none otherwise |
| Import.PartsFollow | packages/importers/src/normalize.ts:82-98 | a part is stored, under an id of its own, exactly when its record's message is new |
| Import.EditedExactly | packages/importers/src/normalize.ts:72-75 | a staged message names the one it was edited from exactly when that is its native id's first and hangs from the same parent in the same role |
| Import.EditNamesFirst | packages/importers/src/normalize.ts:72-75 | hence a re-imported message names the message the first import published under its native id, or none |
| Import.PublishGroup | packages/storage/migrations/index.ts:43-46 | publication record by record, refused at the first identity that is there |
| Import.PublishableIff | packages/storage/migrations/index.ts:43-46 | a group is published if and only if no revision in it is published or staged twice and no native id is staged twice unless it is published |
| Import.StaysFaithful | packages/storage/migrations/index.ts:43-46 | publishing keeps each message under one revision |
| Import.KeepsIdIffUnchanged | packages/importers/src/normalize.ts:62-70 | on re-import a node keeps a message exactly when bytes, role, native id and canonical parent are unchanged |
| Import.UnchangedHistoryKeepsId | packages/importers/src/normalize.ts:52-80 | a node whose record and valid ancestry are unchanged keeps its message, whatever structural or malformed nodes change around them |
| Library.BackfillUnique | packages/storage/migrations/library-activity.ts:39-46 | the backfill query determines the row |
| Library.InsertKeeps | packages/storage/migrations/library-activity.ts:21-38 | every insert trigger brings each row to what the query gives afterwards |
| Library.UpdateKeeps | packages/storage/migrations/index.ts:50-67 | so does every update the immutability triggers permit |
| Library.Database.Insert | packages/storage/migrations/index.ts:12-21 | the insert with its trigger, refused exactly when the primary key is taken or, thread states apart, the identity |
| Library.InsertsAre | packages/storage/migrations/index.ts:12-21 | refused, that is, exactly when it would overwrite a record or use an identity twice |
| Library.Database.Update | packages/storage/migrations/index.ts:50-90 | an update is applied exactly when the triggers of threads, messages, thread states and tombstones permit it, and those of the other collections, which are a parameter; a message's parent, role, generation and edit origin are one value |
| Library.UpdatesAre | packages/storage/migrations/index.ts:50-90 | what is permitted: content and seal of a message that is not sealed, a thread state's next revision where both are known, and what the other collections' triggers let through |
| Library.Run | packages/storage/migrations/library-activity.ts:7-46 | after any sequence of inserts and updates the records are those of the history, every existing thread has a row and it is the backfill row |
| Library.NothingUndone | packages/storage/migrations/index.ts:50-90 | in any history nothing is lost; threads, tombstones and sealed messages never change, messages never move, and a thread state's revision names one state and only rises |
| Library.IdentitiesDiffer | packages/storage/migrations/index.ts:12-21 | and no identity is used by two records, thread states apart |
| Library.OrderLeavesNoTrace | packages/storage/migrations/library-activity.ts:7-46 | rows depend on the records only, not on their order of arrival |
| Layout.GatherRows | packages/documents/src/layout.ts:64-71 | the loop computes the rows of the sorted items |
| Layout.GatheredLines | packages/documents/src/layout.ts:66-71 | those rows are lines: every item stands within a quarter of the smaller extent of its row's first, and each row begins off the line before |
| Layout.GatheredFlat | packages/documents/src/layout.ts:64-71 | gathering keeps every item, in order |
| Layout.SortRows | packages/documents/src/layout.ts:72-72 | the loop sorts every row |
| Layout.AlignedKeeps | packages/documents/src/layout.ts:72-72 | rows keep their items and run left to right |
| Layout.Columns | packages/documents/src/layout.ts:74-97 | the loop that flushes both columns at every spanning row computes the column order |
| Layout.ColumnsRead | packages/documents/src/layout.ts:74-97 | column order reads band by band: everything left of the gutter in row order, then everything right of it, then the row with an item that begins left of the gutter and reaches over it, then the rest |
| Layout.BlocksPart | packages/documents/src/layout.ts:77-96 | the two columns of a band and the row that spans them are three blocks, and what follows is in others |
| Layout.ColumnsKeepAll | packages/documents/src/layout.ts:74-97 | columns lose nothing |
| Gutter.CountVotes | packages/documents/src/layout.ts:156-170 | each probe's votes are the wide gaps between prose it stands clear in |
| Gutter.Elect | packages/documents/src/layout.ts:171-176 | the probe with most votes, at least three; among equals the nearest to the middle, then the earliest |
| Gutter.FindGutter | packages/documents/src/layout.ts:149-178 | the gutter, or none, that the rows elect |
| Gutter.OneGutter | packages/documents/src/layout.ts:149-178 | the rows elect one gutter or none |
| Gutter.GutterInside | packages/documents/src/layout.ts:152-178 | it lies strictly between the outermost edges |
| Gutter.VotesCount | packages/documents/src/layout.ts:156-170 | a probe's votes are the number of gaps with sixteen visible units of prose on either side, at least twice the row's extent wide, with that extent free on both sides of the probe |
| Gutter.TrimmedIs | packages/documents/src/layout.ts:158-162 | where prose is counted between its first and last visible unit |
| Gutter.GutterClear | packages/documents/src/layout.ts:171-178 | the gutter is the one of the 62 places that stands clear in the most gaps, three at least, and of equals the nearest to the middle, then the leftmost; there is none exactly when no place reaches three |
| Emission.PageText.Append | packages/documents/src/layout.ts:51-56 | a piece is added exactly when the page stays within its budget |
| Emission.PageText.Line | packages/documents/src/layout.ts:113-121 | a row's items with the white space between them |
| Emission.PageText.Block | packages/documents/src/layout.ts:100-123 | an unbroken run of rows, indented against its leftmost row |
| Emission.PageText.Rows | packages/documents/src/layout.ts:97-125 | all rows, run by run, with the pieces specified row by row |
| Emission.PageText.InSourceOrder | packages/documents/src/layout.ts:58-63 | ambiguous pages as given |
| Emission.PageHolds | packages/documents/src/layout.ts:30-126 | whatever the layout, the source pieces are exactly the nonempty items, once and whole, in source order or in reading order; all else is white space |
| Emission.PageRowsRead | packages/documents/src/layout.ts:64-72 | the rows laid out are the page's lines from top to bottom, each from left to right, ties as given |
| Emission.BudgetIs | packages/documents/src/layout.ts:30-56 | a page is refused exactly for more than 10,000 items, or more than 262,144 units in its items or its text |
| Emission.NeighboursApart | packages/documents/src/layout.ts:113-121 | between neighbours of a row stands a tab beyond twice its extent, a space beyond 0.18 of it unless one of them has white space at the seam, and nothing else |
| Emission.RowsApart | packages/documents/src/layout.ts:100-107 | rows never run together: a line feed, or two where block, distance, extent or fixed width part them |
| Emission.RowIndented | packages/documents/src/layout.ts:103-112 | a row of fixed width is indented by its distance from the leftmost row of its run, to the nearest column of 0.6 of its extent and at most 32 |
| Emission.ReadAsGiven | packages/documents/src/layout.ts:42-63 | a page is read in source order, a line feed behind each item that ends a line, exactly when some visible item runs right to left or is not upright |
| Intake.ReadItems | packages/documents/src/layout.ts:30-50 | the intake loop: invalid exactly when an item with a bad index or a number that is not finite comes before the source text overruns its budget, too long exactly when that overruns it first, and otherwise every item measured |
| Intake.SoundIs | packages/documents/src/layout.ts:37-39 | an item is sound exactly with an index below 10,000 and eight finite numbers |
| Intake.MeasuredIs | packages/documents/src/layout.ts:40-47 | an item's extent is the largest of a thousandth, its height and its vertical; it is upright when neither mirrored nor turned by more than a hundredth of that |
| Emission.LayOutItems | packages/documents/src/layout.ts:51-142 | items within the budget are laid out as specified, with the gutter their rows elect, refused exactly when the emitted text exceeds its budget |
| Emission.NormalizePage | packages/documents/src/layout.ts:30-142 | intake and layout: each refusal exactly where the source makes it, and otherwise the page specified |
| Staging.PieceEvents | packages/documents/src/layout.ts:129-140 | bounded events join to the piece, each span naming exactly its source text, no cut inside a surrogate pair |
| Staging.PageEvents | packages/documents/src/layout.ts:127-141 | a page's events carry its whole text |
| Staging.Events | packages/documents/src/layout.ts:129-140 | the generator's loops |
| Staging.PageStaging.Flush | packages/documents/src/persist.ts:111-119 | a flush stages the buffer at its offset, its spans still telling the text they cover |
| Staging.PageStaging.Append | packages/documents/src/persist.ts:120-129 | an event joins the buffer or starts the next batch, its spans rebased |
| Staging.StagePage | packages/documents/src/persist.ts:102-157 | batches of at most 4096 units and 128 spans, none of which ends where the event that begins the next would have fitted it; across every flush point spans run without gap from 0 to the page length, each telling the staged text it covers, and the batches' text is the page's text; it fails only when an event of the page is too large by itself |
| ModelFile.CheckHeader | packages/quixi-embed/native/model.c:26-33 | header checks, version mismatch told apart |
| ModelFile.Load | packages/quixi-embed/native/model.c:19-59 | the loader accepts exactly the packages that meet its checks and finds sections and tensors where they say |
| ModelFile.AcceptedTensors | packages/quixi-embed/native/model.c:34-60 | in every accepted package tensors are in bounds, 64-aligned, pairwise disjoint inside the weights section, and hold the contract's very bytes unless the digest collides |
| ModelFile.RecordReads | packages/quixi-embed/compiler/compile_model.py:139-147 | a written tensor record passes the record checks and gives its offset back |
| ModelFile.SectionsRead | packages/quixi-embed/compiler/compile_model.py:154-165 | the four sections read back as laid out |
| ModelFile.PackageHolds | packages/quixi-embed/compiler/compile_model.py:162-185 | every write of the package is intact at the end |
| ModelFile.LayOut | packages/quixi-embed/compiler/compile_model.py:137-151 | the running cursor places tensors as specified |
| ModelFile.Emit | packages/quixi-embed/compiler/compile_model.py:134-185 | the writer's file is the specified package |
| ModelFile.EmittedIsAccepted | packages/quixi-embed/compiler/compile_model.py:134-185 | for any matching material the emitted package passes every loader check and each tensor is found at its exact bytes |
| ModelFile.RoundTrip | packages/quixi-embed/native/model.c:19-60 | write then load |
| ModelFile.AcceptedHeader | packages/quixi-embed/native/model.c:26-33 | nothing else is accepted: the header is byte by byte the one the writer writes for that size and content |
| ModelFile.AcceptedSection | packages/quixi-embed/native/model.c:34-42 | so is each entry of the section table, for the place it names |
| ModelFile.AcceptedRecord | packages/quixi-embed/native/model.c:43-52 | and each tensor record |
| TokenizerFile.CheckPlaced | packages/quixi-embed/native/model.c:102-108 | layout checks of the standalone package, exactly |
| TokenizerFile.Load | packages/quixi-embed/native/model.c:97-121 | accepts exactly the packages whose layout, digests, vocabulary lines and Unicode table all check, and holds the lines in the hash table |
| TokenizerFile.WrittenIsAccepted | packages/quixi-embed/compiler/compile_model.py:95-106 | for every acceptable vocabulary and usable Unicode table matching the contract the written package is accepted and its sections are found again |
| TokenizerFile.RoundTrip | packages/quixi-embed/compiler/compile_model.py:95-106 | write then load: the very lines and the very tables |
| TokenizerFile.AcceptedTells | packages/quixi-embed/native/model.c:97-121 | nothing else is accepted: a header that places and content determine, a vocabulary, and tables as they are written |
| TokenizerFile.OpenModel | packages/quixi-embed/native/model.c:19-89 | the model package opens exactly when its checks pass and its vocabulary and Unicode sections are usable |

## Left out

- Chunk and record digests, and ids derived from them: they restate one injective function.
- `parseEvent`: JSON parsing and its bounded walk are a function parameter of `Normalizer`, `Reconstruction` and `Receipts`.
- The OpenAI half of the normalizer: its tool and text handling repeats the Anthropic half with less state.
- Usage accumulation in the normalizer: whether a usage object is acceptable is part of the record.
- Generation: the 16 KiB summary limit, cancellation results, cost estimates and the terminal manifest's contents.
- Receipts: the bound of 100,000 parts and the place of text parts, which are part of `Generation` and `StoredEvidence`.
- Upload: one slot of a work item, because other slots only advance the revision.
- Upload: chunks of a run that was cut off that arrive later, because only that run names the transfer and it never made it durable; and a checkpoint that other actors than uploads save.
- Commit: one transaction, because others have other IDs; a `reconnectStorage` that fails, which throws its own error; and uploading chunk by chunk, which fails as a whole.
- Boundary.LastCutIsLast: blank lines apart, whose matches do overlap; for them the last cut is the last of the successive matches, as `FindLast` computes.
- Import: part bodies, attachments, asset resolution, plan selection and `skip` mode; parts are leaves that resolve with their message.
- Import: crashes inside the worklist, because results are durable per item and a resumed loop starts from the same table.
- Library: deletes of rows, which no canonical operation performs, and the ordered index itself.
- Intake: the formula of `Math.hypot`, which is a parameter; coordinates are reals, without rounding.
- Library.Database.Insert: the unique indexes on native source identities, generation outputs and part orders, because an insert that they refuse changes nothing.
- Staging: the JSON byte bound of one write is a predicate, because the number formats of coordinates are not modelled.
- ModelFile: allocation failures, and the naming of weights by layer once they are found.
- ModelFile: the compiler's check of its inputs against the frozen inventory, which is the hypothesis that the material matches the contract.
- UnicodeFile: which code points are deleted, mapped or punctuation comes from the reference tokenizer and is not part of this model.
- Tokenizer: null-pointer arguments, which the entry points refuse before any work.
- `lexicalQuery`, `searchExcerpt`, `runTransfer`, `request.ts`, `estimateCost` and `planPrefix`: shorter checks over state of their own.
- Encoder arithmetic, user interface, HTTP plumbing, wall-clock time.
