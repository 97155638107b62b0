# VerifyPro core logic in Dafny

VerifyPro is a KYC (know-your-customer) web application. A user registers,
proves a phone number with a one-time code, and uploads a PAN card and an
Aadhaar card. An Express service then runs a fixed list of document checks,
scores the account's risk, and recommends approving it or sending it to
manual review. A pair of Python services answers compliance questions over
a store of embedded policy PDFs. This project models the deterministic
logic under that glue and proves what it promises:

- **Retrieval pipeline** (`Vectorizer`, `ChatUtils`, `Ranking`):
  - PDF chunks are tagged with their source file;
  - embedding runs in batches of 20, with a per-chunk fallback;
  - records are stored in batches of 10, with a per-record fallback;
  - search is two-tiered. The store's RPC is tried first. When it raises
    or answers nothing, at most 1000 rows are scanned and ranked by a
    stable descending sort;
  - the chat prompt is rendered from the retrieved rows.
- **KYC checks** (`KycChecks`):
  - the PAN and Aadhaar number formats (anchored regular expressions);
  - a table-filling Levenshtein distance proved equal to the recursive
    edit distance;
  - fuzzy name matching;
  - the seven fixed checks and a decision that never rejects.
- **Risk score** (`RiskScore`): additive scoring over watch lists,
  document completeness, the stored checks, account age, OTP status and
  KYC timing. The score is clamped to [0, 100] and mapped to a band. The
  recommended decision is written back to the user. Checking an OTP read
  from an image (`verifyOtpImage`) is modelled here too.
- **Small rules**:
  - phone-number normalisation (`PhoneFormat`);
  - the signature URL (`SignatureUrl`);
  - the OTP controller's codes, cooldown, state changes and SMS texts
    (`OtpController`);
  - the upload filter, file names and temp-file removal (`Upload`);
  - the user document's enums, setters and pre-save hooks (`UserModel`);
  - the login and registration form validation (`ClientForms`).

How the model stands in for what it cannot see:

- **External services are parameters.** Clients are function-typed
  values, and a `None` or `false` answer stands for a call that raised.
  This covers the embedding provider, the table store and its RPC, the
  similarity arithmetic, JSON decoding, the PDF loader, the SMS service,
  the OCR service, `uuid4`, `json.dumps` and the password hash.
- **The clock and randomness are parameters.** `Date.now()` is `now` and
  `Math.random()` is `random`.
- **Documents and state:**
  - a user document is the class `UserModel.UserRecord`, and the
    handlers change its fields in place;
  - the users collection, the embeddings table and the file system are
    classes whose methods state their whole new state;
  - JavaScript strings read from documents are `JsString` values:
    undefined, null, or a string.

Points where the code behaves differently from what it appears to do:

- **Login attempts.** `auth.controller.js:231-234` subtracts 15 when
  `loginAttempts > 5`. The user schema has no such path, so a Mongoose
  document reads undefined there, the branch never fires, and it is not
  modelled.
- **Write-back without a KYC run.** `kycVerification` is a nested path,
  so Mongoose always materialises it, with `overall_status` null for a
  user who never ran the checks. The test at `auth.controller.js:285`
  therefore passes for every such user: the recommended action is
  written back, and at a score of 60 or more the account becomes
  verified without any check having run (`RiskScore.UnrunUserApproved`
  gives such a user). The model keeps this behaviour.
- **Duplicate card numbers.** The uniqueness hooks compare the stored
  value exactly. A number saved with different spacing is not reported
  as a duplicate.
- **String lengths.** JavaScript strings are sequences of UTF-16 code
  units. Where the controllers measure or index a string (the edit
  distance, the longer length in `fuzzyMatch`, the password length),
  the model does so on `JsText.Utf16` of the string. A character
  outside the Basic Multilingual Plane therefore counts twice.

## Model

| member | source | states |
|---|---|---|
| Vectorizer.BaseName | server/embeddings_service/pdf_vectorizer.py:125 | `Path(p).name` on a POSIX path: the result holds no `/` and is the last component of the path once trailing slashes are dropped |
| Vectorizer.TaggedKeepsTheRest | server/embeddings_service/pdf_vectorizer.py:124-125 | tagging sets `metadata["source_file"]` to the name, keeps the chunk text and every other metadata entry, and adds no other key |
| Vectorizer.LoadAndSplitPdf | server/embeddings_service/pdf_vectorizer.py:114-130 | a loader failure gives []; otherwise one chunk per loaded chunk, in order, each tagged with the PDF's base name |
| Vectorizer.TagPages | server/embeddings_service/pdf_vectorizer.py:124-127 | the tagging loop computes the reference tagging `TagAll` of the chunks |
| Vectorizer.TagAllShape | server/embeddings_service/pdf_vectorizer.py:124-127 | tagging keeps the number of chunks, and chunk k of the result is chunk k of the input, tagged |
| Vectorizer.Texts | server/embeddings_service/pdf_vectorizer.py:139 | `[doc.page_content for doc in documents]`: same length, entry k is the text of document k |
| Vectorizer.Zip | server/embeddings_service/pdf_vectorizer.py:157-158 | Python's `zip` pairs by position and is as long as the shorter input |
| Vectorizer.QueryCalls | server/embeddings_service/pdf_vectorizer.py:166-168 | the fallback of a failed batch makes one `embed_query` call per chunk, in order |
| Vectorizer.EmbedAllStep | server/embeddings_service/pdf_vectorizer.py:146-148 | the run from chunk i is the slice `[i, min(i + 20, n))` followed by the run from the slice's end, for pairs and for calls |
| Vectorizer.AppendZip | server/embeddings_service/pdf_vectorizer.py:157-158 | the success loop of a batch appends exactly the zip of the batch's chunks with its vectors |
| Vectorizer.AppendEach | server/embeddings_service/pdf_vectorizer.py:162-173 | the fallback loop appends the pairs of the chunks whose own call succeeded and records one query call per chunk |
| Vectorizer.EmbedSlice | server/embeddings_service/pdf_vectorizer.py:152-173 | one iteration gives the batch's zip when the batch call succeeds and the per-chunk fallback when it raises |
| Vectorizer.EmbedAll | server/embeddings_service/pdf_vectorizer.py:143-176 | reference definition of the embedding run: consecutive slices of at most 20 chunks, each embedded by one batch call or, when it raises, chunk by chunk, the pairs concatenated in order; `EmbedAllOrdered`, `EmbedAllComplete` and `OneBatchCallPerSlice` state its properties |
| Vectorizer.GenerateEmbeddingsBatch | server/embeddings_service/pdf_vectorizer.py:132-180 | without a client the result is [] and no call is made; otherwise the pairs and the calls are those of the reference run `EmbedAll` over slices of 20 |
| Vectorizer.EmbedEachIsolation | server/embeddings_service/pdf_vectorizer.py:162-173 | inside a failed batch, each chunk whose own call succeeds is embedded whatever its siblings do; pairs plus failures equal the batch size; the order is kept |
| Vectorizer.BatchSuccessPairsByPosition | server/embeddings_service/pdf_vectorizer.py:154-158 | after a successful batch call, chunk k is paired with vector k, for as many as the shorter side |
| Vectorizer.BatchOrdered | server/embeddings_service/pdf_vectorizer.py:146-173 | a batch contributes at most its own size, and its chunks come out as a subsequence of the batch |
| Vectorizer.EmbedAllOrdered | server/embeddings_service/pdf_vectorizer.py:146-176 | the output is no longer than the input, and its chunks are a subsequence of the input in the original order |
| Vectorizer.EmbedAllComplete | server/embeddings_service/pdf_vectorizer.py:146-176 | with a provider that never raises and returns one vector per text, every chunk is embedded, in order |
| Vectorizer.OneBatchCallPerSlice | server/embeddings_service/pdf_vectorizer.py:143-154 | a run over n chunks makes exactly ceil(n / 20) batch calls |
| Vectorizer.BuildRecords | server/embeddings_service/pdf_vectorizer.py:189-199 | one record per pair, in order: a fresh id, the verbatim content, the vector, `source_file` or "unknown", and the serialised metadata |
| Vectorizer.InsertAllStep | server/embeddings_service/pdf_vectorizer.py:202-204 | the insert run from record i is the slice of at most 10 followed by the run from the slice's end |
| Vectorizer.InsertSlice | server/embeddings_service/pdf_vectorizer.py:203-216 | one iteration adds the whole batch when the bulk insert succeeds, otherwise the records whose own insert succeeds |
| Vectorizer.InsertAll | server/embeddings_service/pdf_vectorizer.py:201-216 | reference definition of the insert loop: consecutive batches of at most 10 records, each inserted whole or, when the bulk insert fails, record by record; `InsertAllOrdered`, `InsertAllHealthy` and `InsertEachIsolation` state its properties |
| Vectorizer.InsertRecords | server/embeddings_service/pdf_vectorizer.py:201-216 | the insert loop adds exactly the reference `InsertAll` of the records to the table |
| Vectorizer.StoreDocumentsInSupabase | server/embeddings_service/pdf_vectorizer.py:182-220 | without a store the table is unchanged; otherwise the records are built one per pair and the table gains `InsertAll` of them; no count is returned |
| Vectorizer.InsertEachIsolation | server/embeddings_service/pdf_vectorizer.py:208-216 | after a failed bulk insert, a record is written exactly when its own insert succeeds, in batch order |
| Vectorizer.InsertAllOrdered | server/embeddings_service/pdf_vectorizer.py:201-216 | the table gains a subsequence of the records and never more rows than records |
| Vectorizer.InsertAllHealthy | server/embeddings_service/pdf_vectorizer.py:201-207 | when bulk inserts never raise, every record is written, in order |
| Vectorizer.ScoreAllStrict | server/embeddings_service/pdf_vectorizer.py:258-263 | the fallback's scoring gives one score per row, in scan order, and fails exactly when some row lacks an embedding or its arithmetic raises |
| Vectorizer.ScoreRecords | server/embeddings_service/pdf_vectorizer.py:258-263 | the scoring loop computes `ScoreAllStrict` |
| Vectorizer.WithSimilarity | server/embeddings_service/pdf_vectorizer.py:266-270 | each result is a copy of its record with `similarity` set to its score; same length and order |
| Vectorizer.AttachSimilarity | server/embeddings_service/pdf_vectorizer.py:266-270 | the result loop computes `WithSimilarity` of the top entries |
| Vectorizer.FallbackSearch | server/embeddings_service/pdf_vectorizer.py:250-275 | reference definition of the fallback: scan at most 1000 rows; [] when the scan is empty or anything raises; otherwise the top `limit` of the stable descending ranking, each copied with its similarity; `FallbackShape` states its properties |
| Vectorizer.SemanticSearch | server/embeddings_service/pdf_vectorizer.py:222-275 | a missing client or a failing query embedding gives []; non-empty RPC data (asked with threshold 0.7 and `limit`) is returned unchanged; an RPC that raises or answers nothing is followed by `FallbackSearch`; nothing raises |
| Vectorizer.FallbackShape | server/embeddings_service/pdf_vectorizer.py:250-272 | the fallback result comes from a ranking that is sorted by descending score, holds at most `limit` entries drawn from the scored rows, and carries each entry's score |
| Ranking.Insert | server/embeddings_service/pdf_vectorizer.py:265 | inserting one entry adds exactly that entry to the multiset |
| Ranking.InsertSorted | server/embeddings_service/pdf_vectorizer.py:265 | insertion into a descending list keeps it descending |
| Ranking.InsertOfScore | server/embeddings_service/pdf_vectorizer.py:265 | an inserted entry lands in front of the entries with its score and keeps their order |
| Ranking.SortByScoreDesc | server/embeddings_service/pdf_vectorizer.py:265 | `sort(key=score, reverse=True)`: a permutation, sorted descending, and stable (entries of equal score keep their input order) |
| Ranking.SliceTo | server/fastapi_service/app/chat_utils.py:42 | Python's `xs[:k]`: a prefix of length min(k, n), counting from the end for negative k |
| Ranking.TopKProperties | server/fastapi_service/app/chat_utils.py:41-42 | the top k of the ranking are sorted descending, at most k of them (for k ≥ 0), and drawn from the input |
| Ranking.TopKDominates | server/fastapi_service/app/chat_utils.py:41-42 | every kept entry scores at least as high as every entry cut off |
| ChatUtils.ScoreRecords | server/fastapi_service/app/chat_utils.py:24-40 | the intended scoring loop: a string embedding is JSON-decoded first; a record whose decoding or arithmetic raises is skipped; a missing `embedding` key raises |
| ChatUtils.ScoreRecordsFailure | server/fastapi_service/app/chat_utils.py:24-40 | the scoring loop raises exactly when some record lacks `embedding`, and then the error is KeyError |
| ChatUtils.ScoreRecordsSound | server/fastapi_service/app/chat_utils.py:24-40 | the scored records are a subsequence of the scan, and each is a scanned record carrying its own score |
| ChatUtils.ScoreRecordsComplete | server/fastapi_service/app/chat_utils.py:33-40 | a successful scoring leaves out no record whose embedding can be scored |
| ChatUtils.SkippedRecordIsInvisible | server/fastapi_service/app/chat_utils.py:37-40 | removing a record that cannot be scored from the scan changes nothing: scoring continues past it |
| ChatUtils.ScoreRecordsAsWritten | server/fastapi_service/app/chat_utils.py:24-40 | the loop as written. Until a string embedding has bound `json`, any raise becomes UnboundLocalError instead of a skip |
| ChatUtils.AsWrittenAgreesOnceBound | server/fastapi_service/app/chat_utils.py:30-37 | once `json` is bound, the loop as written and the intended loop agree on every input |
| ChatUtils.UnboundJsonCounterexample | server/fastapi_service/app/chat_utils.py:30-37 | a `null` embedding before a string one: the loop as written raises, while the intended loop skips the record and scores the next one |
| ChatUtils.ScoreRecordsStep | server/fastapi_service/app/chat_utils.py:24-40 | one record of the loop: KeyError, a skip, or one scored entry in front of the rest |
| ChatUtils.ScoreLoop | server/fastapi_service/app/chat_utils.py:23-40 | the `for` loop with its `try` computes `ScoreRecords` |
| ChatUtils.Items | server/fastapi_service/app/chat_utils.py:42 | `[r for _, r in scored]`: the records of the ranking, scores dropped, same order |
| ChatUtils.RetrieveContext | server/fastapi_service/app/chat_utils.py:4-42 | a failing query embedding propagates; truthy RPC data is returned as-is; an RPC raise or an empty answer falls through to `FallbackContext` (a raising scan propagates, an empty scan gives []) |
| ChatUtils.FallbackContext | server/fastapi_service/app/chat_utils.py:19-42 | reference definition of the fallback: a raise when the scan or the scoring raises, [] on an empty scan, otherwise the records of the top `top_k` of the stable descending ranking; `FallbackContextShape` states its properties |
| ChatUtils.FallbackContextShape | server/fastapi_service/app/chat_utils.py:19-42 | a successful fallback returns at most `top_k` scanned records, unchanged (no similarity key), taken from a descending ranking of their scores |
| ChatUtils.RenderContext | server/fastapi_service/app/chat_utils.py:45 | a context renders as `Source: ` + source file + `\nContent: ` + content; a missing key renders as "" |
| ChatUtils.ContextBlock | server/fastapi_service/app/chat_utils.py:45 | no contexts give the empty block, and one context gives its rendering alone |
| ChatUtils.Rendered | server/fastapi_service/app/chat_utils.py:45 | one rendering per context |
| ChatUtils.RenderedAt | server/fastapi_service/app/chat_utils.py:45 | rendering k is context k, rendered |
| ChatUtils.JoinPartAt | server/fastapi_service/app/chat_utils.py:45 | `sep.join(parts)`: part k sits at its offset, so the parts appear in order |
| ChatUtils.JoinSeparatorAt | server/fastapi_service/app/chat_utils.py:45 | between parts k and k + 1 of a join there is exactly the separator |
| ChatUtils.JoinLength | server/fastapi_service/app/chat_utils.py:45 | a join ends where its last part ends |
| ChatUtils.ContextInBlock | server/fastapi_service/app/chat_utils.py:45 | context k appears in the block, rendered, at its offset |
| ChatUtils.BlankAfterContext | server/fastapi_service/app/chat_utils.py:45 | a blank line `\n\n` follows every context but the last |
| ChatUtils.BuildPrompt | server/fastapi_service/app/chat_utils.py:44-56 | the prompt is the instructions ending in `Context:\n`, the context block, `\n\nQuestion: `, the query, and the closing request, in that order |
| KycChecks.ValidatePanFormat | server/express_service/src/controllers/kyc.controller.js:6-9 | the anchored pattern `[A-Z]{5}[0-9]{4}[A-Z]{1}` tested on the value converted to a string; `PanFormatIff` states what it accepts |
| KycChecks.PanFormatIff | server/express_service/src/controllers/kyc.controller.js:6-9 | a PAN passes exactly when it is a string of 10 characters: 5 of A–Z, 4 of 0–9, 1 of A–Z |
| KycChecks.ValidateAadhaarFormat | server/express_service/src/controllers/kyc.controller.js:11-14 | the anchored pattern `\d{12}` tested on the value converted to a string; `AadhaarFormatIff` states what it accepts |
| KycChecks.AadhaarFormatIff | server/express_service/src/controllers/kyc.controller.js:11-14 | an Aadhaar number passes exactly when it is a string of exactly 12 decimal digits |
| KycChecks.PinFormatIff | server/express_service/src/controllers/kyc.controller.js:98-99 | a pin code passes exactly when it is a string of exactly 6 decimal digits |
| KycChecks.StripNumber | server/express_service/src/controllers/kyc.controller.js:66 | `v?.replace(/\s+/g, '')`: an absent number stays absent, and a string loses all its whitespace |
| KycChecks.SpacedPanAccepted | server/express_service/src/controllers/kyc.controller.js:66-67 | a PAN whose characters without whitespace have the PAN shape passes the format check |
| KycChecks.Lev | server/express_service/src/controllers/kyc.controller.js:17-37 | reference definition of the edit distance between two code-unit sequences, by the min-of-three recurrence; `LevEmpty`, `LevSame`, `LevBound`, `LevZeroIff` and `LevSymmetric` state its properties |
| KycChecks.Levenshtein | server/express_service/src/controllers/kyc.controller.js:17-37 | the matrix-filling procedure returns the recursive edit distance `Lev` of the two strings' UTF-16 code units, as JavaScript indexes them |
| KycChecks.InitBorders | server/express_service/src/controllers/kyc.controller.js:23-24 | first column i and first row j |
| KycChecks.FillRow | server/express_service/src/controllers/kyc.controller.js:26-35 | row i becomes the edit distances of `a[..i]` against every prefix of b; other rows are unchanged |
| KycChecks.LevEmpty | server/express_service/src/controllers/kyc.controller.js:18 | with an empty argument the distance is the other's length |
| KycChecks.LevSame | server/express_service/src/controllers/kyc.controller.js:17-37 | `levenshtein(a, a) = 0` |
| KycChecks.LevBound | server/express_service/src/controllers/kyc.controller.js:17-37 | the distance is at most max(\|a\|, \|b\|) |
| KycChecks.LevZeroIff | server/express_service/src/controllers/kyc.controller.js:17-37 | the distance is 0 exactly when the strings are equal |
| KycChecks.LevSymmetric | server/express_service/src/controllers/kyc.controller.js:17-37 | the distance does not depend on argument order |
| KycChecks.FuzzyMatch | server/express_service/src/controllers/kyc.controller.js:39-45 | a match needs both strings non-empty; the distance of the upper-cased strings and the longer length are counted in UTF-16 code units; `FuzzyMatchCut` gives the threshold test |
| KycChecks.FuzzyMatchCut | server/express_service/src/controllers/kyc.controller.js:39-45 | at a threshold p / q, a match exactly when q × distance ≤ (q − p) × the longer length |
| KycChecks.AstralDistance | server/express_service/src/controllers/kyc.controller.js:17-18 | a character outside the Basic Multilingual Plane is at distance 2 from the empty string, as in JavaScript |
| KycChecks.SimilarityCut | server/express_service/src/controllers/kyc.controller.js:43-44 | `1 - d/m >= p/q` exactly when `q·d <= (q − p)·m` |
| KycChecks.NameMatchIff | server/express_service/src/controllers/kyc.controller.js:82 | at threshold 0.8, names match exactly when 5 × distance (upper-cased) ≤ the longer length |
| KycChecks.FatherNameMatchIff | server/express_service/src/controllers/kyc.controller.js:107-111 | at threshold 0.6, father's names match exactly when 5 × distance ≤ 2 × the longer length |
| KycChecks.FuzzyMatchCaseInsensitive | server/express_service/src/controllers/kyc.controller.js:41 | a non-empty name matches itself and its upper-cased form at any threshold ≤ 1 |
| KycChecks.FuzzyMatchSymmetric | server/express_service/src/controllers/kyc.controller.js:39-45 | matching does not depend on argument order |
| KycChecks.SevenChecks | server/express_service/src/controllers/kyc.controller.js:65-124 | exactly seven checks in the fixed order, each status given by its rule; the linkage check always passes |
| KycChecks.PushChecks | server/express_service/src/controllers/kyc.controller.js:63-124 | the pushes build `SevenChecks` |
| KycChecks.Overall | server/express_service/src/controllers/kyc.controller.js:126-138 | APPROVED exactly when no check has status FAIL; never REJECTED |
| KycChecks.CriticalOnlyInFormats | server/express_service/src/controllers/kyc.controller.js:127-129 | among the seven checks, a critical failure is a failed PAN or Aadhaar format check |
| KycChecks.WithManualEntry | server/express_service/src/controllers/kyc.controller.js:141-147 | the manual-review entry is appended exactly when a format check failed, once, with status MANUAL_CHECK |
| KycChecks.KycResult | server/express_service/src/controllers/kyc.controller.js:65-154 | reference definition of a KYC run: the seven checks, the decision over them, the manual-review entry on a format failure, and the time; `KycResultLayout`, `KycResultDecision` and `ConsistentCardsApproved` state its properties |
| KycChecks.KycResultLayout | server/express_service/src/controllers/kyc.controller.js:141-154 | 7 or 8 checks: the first seven in the fixed order, none MANUAL_CHECK, linkage passing; an eighth exactly on a format failure, and it is the manual-review entry |
| KycChecks.KycResultDecision | server/express_service/src/controllers/kyc.controller.js:126-147 | the stored result is never REJECTED, and it is APPROVED exactly when none of its checks failed |
| KycChecks.ConsistentCardsApproved | server/express_service/src/controllers/kyc.controller.js:65-138 | cards with well-formed numbers, equal names, father's names and dates of birth, and an address with a 6-digit pin are approved |
| KycChecks.Decide | server/express_service/src/controllers/kyc.controller.js:126-154 | the result holds the decision, the checks plus the manual-review entry, and the time |
| KycChecks.StoreResult | server/express_service/src/controllers/kyc.controller.js:156-160 | the result is stored and both cards' `verified` flags become `overall == APPROVED`; nothing else changes |
| KycChecks.PerformKycChecks | server/express_service/src/controllers/kyc.controller.js:48-162 | a missing user is 404; a user without both cards is 400 and unchanged; otherwise the result is `KycResult` of the cards, stored with the flags |
| RiskScore.CompletenessTiers | server/express_service/src/controllers/auth.controller.js:154-165 | on four fields: at most 1 filled gives −30, 2 or 3 give −15, all 4 give +10, and no count gives 0 |
| RiskScore.CompletedFields | server/express_service/src/controllers/auth.controller.js:145-152 | at most four of the required fields are counted |
| RiskScore.StepKindsByName | server/express_service/src/controllers/auth.controller.js:173-174 | on stored step names, the critical and minor steps are exactly the names of the two lists |
| RiskScore.TallyChecks | server/express_service/src/controllers/auth.controller.js:176-194 | the `forEach` over the checks computes the reference tally `TallyOf` |
| RiskScore.TallyCounts | server/express_service/src/controllers/auth.controller.js:176-194 | the tally counts the passes and the critical and minor failures; adjustment = +1 per pass, −15 per critical failure, −5 per minor failure, −8 per MANUAL_CHECK; a failure of any other step counts nothing |
| RiskScore.FindStep | server/express_service/src/controllers/auth.controller.js:200-201 | `find` returns the first check of that step, or none exists |
| RiskScore.ConsistencyBounds | server/express_service/src/controllers/auth.controller.js:203-209 | the consistency sub-score lies in [0, 100] and is 100 exactly when neither the name nor the date-of-birth check failed, no critical step failed, and at most one minor step failed |
| RiskScore.MultipleCriticalPenalty | server/express_service/src/controllers/auth.controller.js:212-215 | two or more critical failures cost a further −25 and push the multiple-issues flag |
| RiskScore.ApprovedRunScoresSeven | server/express_service/src/controllers/auth.controller.js:168-216 | an approved KYC run's stored checks add +7, push no flag, and give consistency 100 |
| RiskScore.AllPassSection | server/express_service/src/controllers/auth.controller.js:168-216 | a run whose checks all passed adds +1 per check, pushes no flag, and gives consistency 100 |
| RiskScore.Clamp | server/express_service/src/controllers/auth.controller.js:264 | `max(0, min(100, x))` lies in [0, 100] and keeps values already there |
| RiskScore.ClampMonotone | server/express_service/src/controllers/auth.controller.js:264 | clamping is monotone |
| RiskScore.BandOf | server/express_service/src/controllers/auth.controller.js:267-282 | the four bands with their actions and review flags; `BandProperties` states their properties |
| RiskScore.BandProperties | server/express_service/src/controllers/auth.controller.js:267-282 | APPROVED exactly from 60 up, never REJECTED, one review flag below 60, and a higher score never gives a worse band |
| RiskScore.AssessScore | server/express_service/src/controllers/auth.controller.js:113-282 | score = clamp(100 + watch-list change + `kycRiskAdjustment`), and the action is that score's band |
| RiskScore.Assess | server/express_service/src/controllers/auth.controller.js:113-282 | reference definition of the score: 100 plus every section's change, clamped, with the band of the clamped score and the flags in push order; `ScoreSections` computes it, and `AssessRange`, `TripleMatchNeverApproved`, `SanctionNeverRaises` and `UnrunUserApproved` state its properties |
| RiskScore.AssessRange | server/express_service/src/controllers/auth.controller.js:261-282 | the final score lies in [0, 100], the action is APPROVED exactly when the score is ≥ 60, and the completeness percentage lies in [0, 100] |
| RiskScore.AdjustmentAtMost | server/express_service/src/controllers/auth.controller.js:136-259 | with at most eight stored checks, `kycRiskAdjustment` is at most 10 + 8 + 5 + 8 = 31 |
| RiskScore.SanctionNeverRaises | server/express_service/src/controllers/auth.controller.js:117-121 | adding the user's own name to the sanctions list never raises the score; the match is reported and its flag pushed first |
| RiskScore.AssessSanctionFirst | server/express_service/src/controllers/auth.controller.js:117-121 | a sanctions match is reported and its flag is the first pushed |
| RiskScore.TripleMatchNeverApproved | server/express_service/src/controllers/auth.controller.js:113-282 | a name on all three watch lists (−90) always gets PENDING_REVIEW when at most eight checks are stored, since the KYC adjustment cannot exceed 31 |
| RiskScore.ScoreSections | server/express_service/src/controllers/auth.controller.js:113-282 | the step-by-step updates of `score`, `kycRiskAdjustment` and `flags` compute the reference `Assess` |
| RiskScore.UpdateDecision | server/express_service/src/controllers/auth.controller.js:285-291 | when the stored decision differs from the recommended action (a null decision, for a user who never ran KYC, always differs), it becomes that action and `kycStatus` becomes verified (APPROVED) or pending; otherwise nothing changes |
| RiskScore.UnrunUserApproved | server/express_service/src/controllers/auth.controller.js:113-291 | a user with no KYC run and no card, a pending OTP, no watch-list match and an account 7 to 90 days old scores 70, is MEDIUM and APPROVED, and its null decision differs from the action, so the write-back marks it verified |
| RiskScore.GetRiskScore | server/express_service/src/controllers/auth.controller.js:97-300 | a blank id is 400 and an unknown user 404, with nothing changed; otherwise the report of `Assess`, plus the write-back of `UpdateDecision` |
| RiskScore.VerifyOtpImage | server/express_service/src/controllers/auth.controller.js:54-93 | the error order (email, user, file, OCR); no stored OTP gives 400 and no change; a strictly equal OTP sets verified and `verifiedAt`; any other sets failed |
| PhoneFormat.FormatPhoneNumber | server/express_service/src/utils/twilioService.js:68-80 | `formatPhoneNumber`: the digits of the input, given `+91` or `+` by the length tests; `FormatShape`, `FormatAfterPlus` and `FormatIdempotentIff` state its properties |
| PhoneFormat.FormatShape | server/express_service/src/utils/twilioService.js:68-80 | the result is `+` then digits; a 12-digit number starting with 91 keeps its digits; every other digit string, whatever its length, gets `91` in front, so the `startsWith('+91')` branch is dead |
| PhoneFormat.FormatAfterPlus | server/express_service/src/utils/twilioService.js:69 | stripping non-digits from `+` and digits leaves the digits |
| PhoneFormat.FormatIdempotentIff | server/express_service/src/utils/twilioService.js:68-80 | formatting twice equals formatting once exactly when the digits are 10 long, or 12 long starting with 91 |
| SignatureUrl.ForwardSlashes | server/express_service/src/controllers/signature.controller.js:32 | every backslash becomes `/`, and every other character is kept |
| SignatureUrl.SignatureUrl | server/express_service/src/controllers/signature.controller.js:29-37 | the URL always starts with `/` |
| SignatureUrl.SignatureUrlAfterPublic | server/express_service/src/controllers/signature.controller.js:29-37 | with `public` present: the URL is exactly what follows its first occurrence with every backslash turned into `/`, preceded by an added `/` only when that text does not already start with `/` or `\` |
| SignatureUrl.RootedForwardSlashes | server/express_service/src/controllers/signature.controller.js:31-37 | for any text: after the backslash replacement and the leading-slash rule, no backslash is left; the text is kept as is when it started with `/` or `\`, and gets one `/` in front otherwise |
| SignatureUrl.SignatureUrlWithoutPublic | server/express_service/src/controllers/signature.controller.js:30-37 | without `public` the path is kept unchanged, backslashes included, with `/` prepended only when missing |
| SignatureUrl.SignatureUrlUnderPublic | server/express_service/src/controllers/signature.controller.js:28 | the comment's example in general form: `public` + `/rest` without backslashes maps to `/rest` |
| SignatureUrl.ForwardSlashesNoop | server/express_service/src/controllers/signature.controller.js:32 | a path without backslashes is unchanged |
| SignatureUrl.UploadedSignatureUrl | server/express_service/src/controllers/signature.controller.js:17-37 | no file path is a 400 "Signature image is required"; otherwise the derived URL |
| SignatureUrl.StoredSignature | server/express_service/src/controllers/signature.controller.js:84-86 | a signature is returned exactly when `signature_present` is true and the URL is non-empty; otherwise 404 "No signature found for this user" |
| OtpController.OtpValue | server/express_service/src/controllers/otp.controller.js:25 | `Math.floor(100000 + random·900000)` lies in [100000, 999999] |
| OtpController.GenerateOtp | server/express_service/src/controllers/otp.controller.js:147 | a generated code is 6 decimal digits spelling a number in [100000, 999999] |
| OtpController.SendChecks | server/express_service/src/controllers/otp.controller.js:13-22 | a missing phone number is 400 before the user lookup, and a missing user is 404 |
| OtpController.RemainingSeconds | server/express_service/src/controllers/otp.controller.js:138 | `ceil((60000 − diff)/1000)`: the least whole number of seconds covering the milliseconds left |
| OtpController.RemainingWithinMinute | server/express_service/src/controllers/otp.controller.js:133-144 | for 0 ≤ diff < 60000 the remaining time lies in [1, 60] |
| OtpController.ResendCooldown | server/express_service/src/controllers/otp.controller.js:133-144 | no cooldown without a previous `sentAt` or after a minute; otherwise 429 with the remaining seconds in the message |
| OtpController.ResendChecks | server/express_service/src/controllers/otp.controller.js:122-144 | resend passes exactly when the send checks and the cooldown both pass, and the send checks come first |
| OtpController.Pending | server/express_service/src/controllers/otp.controller.js:155-162 | after a send: the number, status pending, `sentAt = now` and the new code are stored; `verifiedAt` is kept |
| OtpController.Verified | server/express_service/src/controllers/otp.controller.js:77-97 | the codes "match" exactly when they are strictly equal; the status becomes verified or failed, and `verifiedAt` is set either way |
| OtpController.SendThenVerify | server/express_service/src/controllers/otp.controller.js:133-162 | after a send, only the code just sent verifies, and a resend is refused until a minute has passed |
| OtpController.SendOtp | server/express_service/src/controllers/otp.controller.js:7-55 | with the SMS service in scope: the checks, then an SMS failure is 500 and changes nothing, and a sent SMS stores the pending code |
| OtpController.ResendOtp | server/express_service/src/controllers/otp.controller.js:116-177 | the same for resend, behind the cooldown |
| OtpController.SendAndStore | server/express_service/src/controllers/otp.controller.js:27-40 | the shared tail: the SMS answer decides between a 500 with no change and the stored pending code |
| OtpController.VerifyOtp | server/express_service/src/controllers/otp.controller.js:59-112 | a missing number or code is 400; a mismatch sets failed (and `verifiedAt`) and is 400 "OTP verification failed: Invalid OTP"; a match sets verified and `phoneVerified` |
| OtpController.KycStatusMessage | server/express_service/src/controllers/otp.controller.js:194-206 | a text exactly for pending, verified and rejected, each starting with the greeting; `rejected` falls back to the default reason; any other status is 400 |
| OtpController.KycMessagesDistinct | server/express_service/src/controllers/otp.controller.js:194-206 | the three statuses get three different texts |
| OtpController.MessageAfterGreeting | server/express_service/src/controllers/otp.controller.js:194-206 | each status's text continues the greeting with its own first letter |
| OtpController.KycStatusSms | server/express_service/src/controllers/otp.controller.js:179-227 | with the SMS service in scope: a missing user is 404; otherwise the stored status's text goes to the user's number, and an SMS failure is 500 |
| OtpController.SendOtpAsWritten | server/express_service/src/controllers/otp.controller.js:27 | as written, every send fails: a failed check, or a 500 "sendVoyageSMS is not defined" |
| OtpController.ResendOtpAsWritten | server/express_service/src/controllers/otp.controller.js:149 | as written, every resend past the checks fails with the same 500 |
| OtpController.KycStatusSmsAsWritten | server/express_service/src/controllers/otp.controller.js:208 | as written, every found user gets the 500 instead of the SMS |
| OtpController.ImportRestoresSending | server/express_service/src/controllers/otp.controller.js:208 | with a working SMS service, the corrected handler succeeds where the written one fails |
| Upload.FileFilter | server/express_service/src/middlewares/upload.middleware.js:24-41 | accepts exactly image/png, image/jpg, image/jpeg, image/webp and application/pdf; every other MIME type is the 400 error; only the MIME type is consulted |
| Upload.StripTrailingSlashes | server/express_service/src/middlewares/upload.middleware.js:19 | a prefix of the path without a trailing `/`, and only slashes are dropped |
| Upload.LastIndex | server/express_service/src/middlewares/upload.middleware.js:19 | the index of the last occurrence of a character, or −1 |
| Upload.AfterLastSlash | server/express_service/src/middlewares/upload.middleware.js:19 | the suffix after the last `/`, holding no `/` |
| Upload.Extname | server/express_service/src/middlewares/upload.middleware.js:19 | `path.extname` is empty, or a `.` followed by no `.` and no `/` |
| Upload.UniqueSuffix | server/express_service/src/middlewares/upload.middleware.js:18 | `now + '-' + round(random·1e9)` holds no `.` or `/` |
| Upload.Round | server/express_service/src/middlewares/upload.middleware.js:18 | `Math.round` of a non-negative number is its nearest integer, with halves rounded up |
| Upload.StoredFilename | server/express_service/src/middlewares/upload.middleware.js:17-20 | the stored name is the field name, `-`, the unique suffix and the extension of the original name; `StoredFilenameKeepsExtension` states its property |
| Upload.StoredFilenameKeepsExtension | server/express_service/src/middlewares/upload.middleware.js:17-20 | the stored name `fieldname-suffix` + extension has the extension of the client's file name, whenever the field name holds no `.` or `/` |
| Upload.ExtnameAfterPlainPrefix | server/express_service/src/middlewares/upload.middleware.js:19 | a non-empty name without dots or slashes, followed by an extension, has that extension |
| Upload.FileSystem.RemoveTemporaryFiles | server/express_service/src/middlewares/upload.middleware.js:53-63 | an array of paths, or one truthy path: afterwards none of the given paths exists; missing paths and a missing argument are ignored; no other file changes |
| UserModel.ParseKycStatus | server/express_service/src/models/User.model.js:138-143 | the enum accepts exactly pending, verified and rejected |
| UserModel.ParseOverallStatus | server/express_service/src/models/User.model.js:152-157 | the enum accepts exactly APPROVED, PENDING_REVIEW and REJECTED |
| UserModel.ParseCheckStatus | server/express_service/src/models/User.model.js:160-163 | the enum accepts exactly PASS, FAIL and MANUAL_CHECK |
| UserModel.ParseOtpStatus | server/express_service/src/models/User.model.js:180-184 | the enum accepts exactly pending, verified and failed |
| UserModel.EmptyToUndefined | server/express_service/src/models/User.model.js:49 | null and "" are stored as undefined; every other value is unchanged; the result is never null or "" |
| UserModel.SetterIdempotent | server/express_service/src/models/User.model.js:103 | setting a stored value again stores it unchanged |
| UserModel.ParseStep | server/express_service/src/models/User.model.js:158-159 | reading a stored step name and writing it back gives the same string; only unknown names are kept as free text |
| UserModel.StepRoundTrip | server/express_service/src/models/User.model.js:158-159 | the controller's steps survive being stored and read back |
| UserModel.UserRecord.constructor | server/express_service/src/models/User.model.js:5-203 | defaults: phone not verified, kycStatus pending, OTP status pending, no cards, and `kycVerification` with a null decision, no checks and a null time |
| UserModel.UniquenessHooks | server/express_service/src/models/User.model.js:212-241 | refused with a duplicate error (code 11000) exactly when a number is non-empty, modified, and held by another `_id`; the Aadhaar hook runs first |
| UserModel.SavePreservesUniqueness | server/express_service/src/models/User.model.js:212-241 | a save the hooks accept keep non-empty Aadhaar and PAN numbers unique across users |
| UserModel.OwnNumbersPass | server/express_service/src/models/User.model.js:213-232 | a user re-saving its own numbers, or saving empty or unmodified ones, is accepted |
| UserModel.UserCollection.Save | server/express_service/src/models/User.model.js:205-241 | the password is hashed only when modified; the hooks decide; a refusal leaves the collection unchanged, and an acceptance stores the user |
| ClientForms.ValidEmail | client/components/auth/auth-form.tsx:88 | a decision procedure for `^[^\s@]+@[^\s@]+\.[^\s@]+$`; `ValidEmailIff` proves it accepts exactly the strings of the pattern |
| ClientForms.ValidEmailIff | client/components/auth/auth-form.tsx:88 | the decision procedure accepts exactly the strings matching `^[^\s@]+@[^\s@]+\.[^\s@]+$` |
| ClientForms.FormErrors | client/components/auth/auth-form.tsx:64-101 | the error map has exactly the fields of the mode with a message, and each field's one message; the password length is counted in UTF-16 code units |
| ClientForms.ErrorsByField | client/components/auth/auth-form.tsx:64-101 | a map holding each field's message, and nothing else, is the error map |
| ClientForms.LoginValidIff | client/components/auth/auth-form.tsx:67-77 | login is valid exactly when an email or a phone number, and a password, are non-empty; no format or length check |
| ClientForms.RegisterValidIff | client/components/auth/auth-form.tsx:78-101 | registration is valid exactly when: name and phone number are non-empty; the email is non-empty and matches the pattern; the password has at least 6 UTF-16 code units |
| ClientForms.LoginErrors | client/components/auth/auth-form.tsx:67-77 | the login branch fills `newErrors` with `FormErrors` of login |
| ClientForms.RegisterErrors | client/components/auth/auth-form.tsx:78-101 | the registration branch fills `newErrors` with `FormErrors` of registration |
| ClientForms.AuthForm.constructor | client/components/auth/auth-form.tsx:33-45 | the initial fields of each mode are empty, and there are no errors |
| ClientForms.AuthForm.ValidateForm | client/components/auth/auth-form.tsx:64-105 | the errors become `FormErrors` of the fields, the result is true exactly when there are none, and the fields are unchanged |
| ClientForms.AuthForm.HandleChange | client/components/auth/auth-form.tsx:48-62 | the field takes the new value; its error, if truthy, becomes ""; other fields and errors are unchanged |
| JsText.StripWhitespace | server/express_service/src/controllers/kyc.controller.js:66 | `replace(/\s+/g, '')` leaves no whitespace and keeps every other character |
| JsText.StripWhitespaceAppend | server/express_service/src/controllers/kyc.controller.js:66 | stripping a concatenation strips each piece and keeps them in order |
| JsText.StripWhitespaceChar | server/express_service/src/controllers/kyc.controller.js:66 | a single whitespace character becomes empty and any other character is kept; together with the append lemma, the result is exactly the input's non-whitespace characters, in order, with their repetitions |
| JsText.KeepDigits | server/express_service/src/utils/twilioService.js:69 | `replace(/\D/g, '')` leaves only digits, and keeps every digit |
| JsText.KeepDigitsAppend | server/express_service/src/utils/twilioService.js:69 | the digits of a concatenation are the digits of each piece, in order |
| JsText.KeepDigitsChar | server/express_service/src/utils/twilioService.js:69 | a single digit is kept and any other character is dropped; together with the append lemma, the result is exactly the input's digits, in order, with their repetitions |
| JsText.Trim | server/express_service/src/controllers/auth.controller.js:115 | `trim()` is the slice `s[lo..hi]` where everything before `lo` and from `hi` on is whitespace, and the slice neither starts nor ends with whitespace |
| JsText.ToUpperIdempotent | server/express_service/src/controllers/auth.controller.js:115 | upper-casing twice equals upper-casing once |
| JsText.Utf16 | server/express_service/src/controllers/kyc.controller.js:42 | the UTF-16 code units JavaScript's `.length` counts: never fewer than the characters, and none exactly for the empty string |
| JsText.AstralCountsTwice | client/components/auth/auth-form.tsx:98 | a character outside the Basic Multilingual Plane has `.length` 2, and three of them make a string of length 6 |
| JsText.IndexOf | server/express_service/src/controllers/signature.controller.js:29 | `indexOf` gives the first occurrence, or −1 when there is none |
| JsText.DecimalRoundTrip | server/express_service/src/controllers/otp.controller.js:25 | `n.toString()` read back as a decimal number gives n |
| JsText.SixDigitRendering | server/express_service/src/controllers/otp.controller.js:25 | numbers in [100000, 999999] render with exactly 6 digits |

## Left out

- Chunking itself. LangChain's text splitter and PyPDFLoader are
  library code, so they are one `load` parameter of
  `LoadAndSplitPdf`. Only the source-file tagging is modelled.
- Cosine similarity. The numpy arithmetic is the parameter
  `similarity`, and `None` means it raised. Scores are Dafny reals, so
  NaN and float rounding are not modelled.
- The external services are parameters or left out:
  - Bedrock, the Supabase client, the SMS providers, the OCR service
    and bcrypt are parameters;
  - JWT, watsonx generation (`generate_answer`), PyMuPDF and Cloudinary
    are not part of this model.
- Web plumbing is left out:
  - routing, the 401 "Unauthorized request" checks on `req.user` and
    response shaping;
  - `console` logging and the `print` calls;
  - MongoDB queries, which become reads and writes of a `UserRecord`.
- Vectorizer.StoreDocumentsInSupabase: the records built are also
  returned as a ghost out-parameter, so that the contract can name them.
  The source returns nothing.
- RiskScore:
  - the `loginAttempts` branch is left out: `loginAttempts` is not a path
    of the user schema, so a document reads it as undefined and the
    −15 never applies;
  - the `Math.round` display values (accuracy and hours to complete) are
    left out;
  - the completeness percentage is stated as 25 × filled, not as
    rounded floating point;
  - account age and KYC hours are computed as reals from millisecond
    parameters;
  - the `risk_assessment_performed_at` timestamp of the write-back is
    not a field of the model;
  - reading the watch-list JSON files is I/O, so the lists are a
    parameter.
- RiskScore.GetRiskScore and RiskScore.VerifyOtpImage change the
  in-memory `UserRecord` in place of `findByIdAndUpdate` and `save()`.
  The uniqueness hooks are not re-run on those updates.
- SemanticSearch (Vectorizer.SemanticSearch): Dafny has no default
  arguments, so callers always pass `limit`. The default of 3 is the
  constant `Vectorizer.DefaultSearchLimit`.
- KycChecks.PerformKycChecks: Mongoose always materialises nested
  sub-documents. Here the cards are an `Option`, so "no card" is `None`
  rather than an always-truthy empty object.
- OtpController:
  - `kycRejectedReason` is the parameter `rejectedReason` rather than a
    field of `UserRecord`, since no other modelled operation reads or
    writes it;
  - a numeric `otp` in the request body (which `!==` would never equal
    the stored string) is not modelled; request values are strings;
  - the catch blocks' re-wrapping depends on `ApiError.js`, which is not
    part of this model. The model assumes it keeps the status code and
    message of an `ApiError`.
- SignatureUrl: the database update of `uploadSignature`, and the
  status chosen by `getSignature`'s catch block (which reads
  `error.status`), are not modelled.
- Upload:
  - multer enforces the 5 MB limit (`MaxFileSize` is the constant it is
    given), so the enforcement itself is not modelled;
  - disk storage and the upload directory are left out;
  - passing a directory to `unlinkSync` is not modelled, since the file
    system is a set of file paths.
- JsText.ToUpper: only ASCII letters are upper-cased. The Unicode case
  mapping of `toUpperCase` is not modelled.
- Mongoose's `trim: true` and `lowercase: true` setters are not
  modelled. Stored strings are taken as given.
- The React UI is left out. This covers the graph, navbar, pages, crop
  canvas and help chat, the submit handler, and the loading state.

## Findings

| source | as written | input that shows it | evidently intended | confidence | as-written member | corrected member |
|---|---|---|---|---|---|---|
| server/fastapi_service/app/chat_utils.py:30-37 | `import json` inside the loop makes `json` a function local, bound only after a string embedding is decoded; the `except` clause names `json.JSONDecodeError` | in the first record, `embedding` is `null` (numpy raises TypeError); a later record holds a string embedding; the clause raises UnboundLocalError instead of skipping | a record whose embedding cannot be scored is skipped, and scoring continues | not executed | ChatUtils.ScoreRecordsAsWritten (ChatUtils.UnboundJsonCounterexample) | ChatUtils.ScoreRecords (ChatUtils.ScoreRecordsComplete, ChatUtils.SkippedRecordIsInvisible) |
| server/express_service/src/controllers/otp.controller.js:27 | `sendVoyageSMS` is called at lines 27, 149 and 208 but never imported, so the call throws a ReferenceError that the `catch` turns into a 500 | any send request with a phone number, for an existing user | the code is sent by SMS and stored as pending | not executed | OtpController.SendOtpAsWritten (OtpController.ResendOtpAsWritten, OtpController.KycStatusSmsAsWritten) | OtpController.SendOtp (OtpController.ResendOtp, OtpController.KycStatusSms, OtpController.ImportRestoresSending) |
