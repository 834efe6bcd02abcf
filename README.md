# Translation agent core, modelled in Dafny

This project models the core of a document-translation agent. The agent:

- cuts a document into chunks that fit a token limit;
- packs consecutive chunks into groups;
- translates the groups in parallel with a language model, one chunk at a time inside a group;
- joins the per-chunk results back into one text with its token usage.

It also models the rule-based side of intent recognition (language names, language patterns, the keyword fallback and the validation of the model's JSON reply), the in-memory task store and the token accounting.

Modules and the source files they follow:

| module | file | source |
|---|---|---|
| `Wrappers` | `wrappers.dfy` | `Option` and `Result` |
| `Text` | `text.dfy` | Python's `strip`, `in`, `split`, `join` and (ASCII) `lower` on `str` |
| `Sequences` | `sequences.dfy` | flattening with `extend`, and the first index a `for … break` loop stops at |
| `Tokenizer` | `tokenizer.dfy` | `src/utils/tokenizer.py` |
| `DocumentChunker` | `document_chunker.dfy` | `src/core/document_chunker.py` |
| `TranslationEngine` | `translation_engine.dfy` | `src/core/translation_engine.py` |
| `Services` | `services.dfy` | `src/api/services.py` |
| `TaskManagement` | `task_manager.dfy` | `src/api/task_manager.py` |
| `NlpProcessor` | `nlp_processor.dfy` | `src/api/nlp_processor.py` |

How the model represents the pieces it cannot run:

- **Tokenizer.** The encoding is abstract: a pair of total functions `encode: string -> seq<int>` and `decode: seq<int> -> string`. A token count is the length of the encoding.
- **Configuration.** The chunk token limit, the separators, the group size and the group token budget are parameters. The constants `ChunkSeparators`, `DefaultGroupSize` and `ConfiguredPromptKey` hold the values in `src/config.py`.
- **Language model.** It is a `Backend` object whose reply is a fixed function of the request. Every call is appended to its `log`, so each method's contract states exactly which calls it makes, in which order.
- **Thread pool.** The pool's completion order is a permutation of the group indexes. Any such permutation is allowed.
- **Escaping exceptions.** An exception that escapes a group's translation is an oracle `fault: nat -> Option<string>`.

Loops in the source are methods with loop invariants, proved equal to a specification function; the lemmas are proved about those functions. For example, `ChunkDocument` returns `Chunking(...)`, `CreateChunkGroups` returns `Grouping(...)` and `ParallelGroupTranslate` returns `Flatten(Outcomes(...))`. The task store is a class whose map field the methods update in place.

Behaviour the code has that its comments or naming suggest otherwise:

- **The chunk token limit is missing.** `src/core/document_chunker.py:15` reads `config.CHUNK_TOKEN_LIMIT`, but that setting is commented out at `src/config.py:25`. As written, constructing the chunker raises `AttributeError`. The model takes the limit as a parameter, and `DocumentedChunkTokenLimit` records the documented 500.
- **`logger.step` swallows every exception** (`src/utils/logger.py:121-133`). Every step body that raises therefore ends as `None`. The model keeps this where it matters: `translate_group` returns `None` when its prompt lookup raises, and so no exception escapes `translate_group`. The service passes the oracle `NoFault`.
- **Chunk ids are not unique once a chunk is re-split.** A sub-chunk gets its position in the output as its id, while an untouched chunk keeps its first-pass index. Two records can then share an id (`SecondPassIdsMayRepeat`). Nothing later sorts by id, whatever the comment at `src/core/translation_engine.py:100` says: results stay in group order because each group writes its own slot.
- **Statuses are overwritten unconditionally.** The task store does not protect terminal states (`TerminalStatesNotEnforced`).

## Model

| member | source | states |
|---|---|---|
| Tokenizer.CountTokensFitsBudget | src/utils/tokenizer.py:19-21 | `count_tokens` is the length of the encoding: a text fits a budget exactly when cutting its tokens to that budget keeps them all |
| Tokenizer.TruncateText | src/utils/tokenizer.py:61-68 | reference definition of `truncate_text`; its behaviour is stated by `TruncateTextCases` and `TruncateFits` |
| Tokenizer.PyPrefix | src/utils/tokenizer.py:67 | `tokens[:m]` is a prefix of the tokens, and for `m >= 0` it has `min(m, len)` elements |
| Tokenizer.TruncateTextCases | src/utils/tokenizer.py:61-68 | a text within `max_tokens` comes back unchanged; otherwise the result is the decoding of exactly its first `max_tokens` tokens |
| Tokenizer.TruncateFits | src/utils/tokenizer.py:61-68 | if re-encoding the decoded prefix gives that prefix back, the truncated text fits the budget and truncating again changes nothing |
| Tokenizer.CountTokensForMessages | src/utils/tokenizer.py:23-48 | the total is the sum of the per-message costs (4 each, plus content, name and dict-entry tokens) plus 2; hence at least `4·n + 2`, and 2 for no messages |
| Tokenizer.MessagesOverhead | src/utils/tokenizer.py:26-28 | every message costs at least its fixed overhead of 4 |
| Tokenizer.MessagesTokensAppend | src/utils/tokenizer.py:25-46 | message costs add up over any split of the conversation |
| Text.FindFrom | src/core/document_chunker.py:62 | the index found is an occurrence, with none before it; None means no occurrence at all |
| Text.Contains | src/core/document_chunker.py:62 | `sep in content` holds exactly when `sep` occurs somewhere |
| Text.StripShape | src/core/document_chunker.py:212 | `strip()` leaves no whitespace at either end, returns a contiguous piece of its input, and is empty exactly for all-whitespace input |
| Text.SplitJoin | src/core/document_chunker.py:205 | joining the parts of `split(sep)` on `sep` gives back the string |
| Text.SplitPartsAvoidSeparator | src/core/document_chunker.py:215 | no part of `split(sep)` contains `sep` |
| Text.JoinSplit | src/core/translation_engine.py:294 | splitting a newline-join at newlines gives back its lines when no line holds a newline |
| Sequences.FirstWhere | src/core/document_chunker.py:61-69 | the index a loop that breaks at its first hit stops at: a hit with no hit before it, or None when nothing matches |
| DocumentChunker.StripNonEmpty | src/core/document_chunker.py:212 | keeps at most the given pieces, each non-empty and stripped, and they concatenate to all the pieces stripped, so only whitespace-only pieces are dropped |
| DocumentChunker.SplitBySeparator | src/core/document_chunker.py:201-215 | reference definition of `split_by_separator`; its segments are stated by `SplitBySeparatorSegments` |
| DocumentChunker.SplitBySeparatorSegments | src/core/document_chunker.py:201-215 | segments are non-empty and stripped, and avoid an ordinary separator; the pieces stripped concatenate to the content (heading marker put back) or join on the separator to it |
| DocumentChunker.SplitByLength | src/core/document_chunker.py:217-231 | the loop returns the consecutive slices of `max_length` characters |
| DocumentChunker.SlicesShape | src/core/document_chunker.py:222-231 | slices are non-empty and at most `max_length` long, there are just enough of them (ceil of the length over the width), and they concatenate to the content |
| DocumentChunker.ForceSplitByTokens | src/core/document_chunker.py:256-269 | the loop returns the decoding of each window of `limit` consecutive tokens |
| DocumentChunker.ForceSplitShape | src/core/document_chunker.py:256-269 | the windows concatenate to the whole encoding, there are ceil(n / limit) of them, at least one for a non-empty encoding, and each piece is within the ceiling |
| DocumentChunker.RefineAll | src/core/document_chunker.py:242-248 | `valid_parts` keeps a part that fits whole and replaces one that does not by its token windows, in order |
| DocumentChunker.RefinePartsWithinCeiling | src/core/document_chunker.py:243-248 | every entry of `valid_parts` is within the token ceiling |
| DocumentChunker.SplitLargeChunk | src/core/document_chunker.py:233-254 | the method returns `LargeSplit` |
| DocumentChunker.LargeSplitChoice | src/core/document_chunker.py:236-254 | the split kept is that of the first fine separator that occurs and gives more than one part, with none before it qualifying, and the result is the refinement of exactly that separator's parts; when none qualifies, the token windows of the whole text |
| DocumentChunker.LargeSplitWithinCeiling | src/core/document_chunker.py:233-254 | an over-limit text gives at least one piece, and every piece is within the ceiling |
| DocumentChunker.FirstPass | src/core/document_chunker.py:57-77 | the separator loop and its fallback return `FirstPassSegments` |
| DocumentChunker.FirstPassChoice | src/core/document_chunker.py:61-77 | the first pass uses the first separator in list order that occurs, and no earlier one occurs; it slices by `3·limit` characters when none occurs or the split leaves only whitespace |
| DocumentChunker.MakePrimaryChunks | src/core/document_chunker.py:86-94 | each segment becomes a record with its token count, its index as id and type `'chunk'` |
| DocumentChunker.AppendSubChunks | src/core/document_chunker.py:117-124 | appends one record per piece, numbered by the output's length at that moment |
| DocumentChunker.RunSecondPass | src/core/document_chunker.py:107-126 | the second-pass loop returns `SecondPass` of the first-pass records |
| DocumentChunker.SecondPassContents | src/core/document_chunker.py:109-126 | the output texts are the first-pass chunks' expansions in document order: the chunk itself, or its pieces |
| DocumentChunker.SecondPassRecords | src/core/document_chunker.py:109-126 | every record carries its text's token count; a sub-chunk's id is its output position; an untouched record is the first-pass record within the limit; the output is never shorter |
| DocumentChunker.SecondPassWithinCeiling | src/core/document_chunker.py:109-126 | a record that was not re-split keeps a token field within the limit, and a re-split piece's text is within the ceiling; when the first pass records exact token counts, every output text is within the ceiling |
| DocumentChunker.SecondPassIdentity | src/core/document_chunker.py:109-126 | with no over-limit chunk the second pass changes nothing |
| DocumentChunker.SecondPassIdsMayRepeat | src/core/document_chunker.py:118-126 | a re-split first chunk's second piece and the untouched next chunk both get id 1 |
| DocumentChunker.ChunkDocument | src/core/document_chunker.py:18-143 | returns `Chunking`; a document within the limit comes back as one `'complete'` record with id 0 |
| DocumentChunker.ChunkingShape | src/core/document_chunker.py:18-143 | records carry exact token counts and are within the ceiling; sub-chunk ids are positions; untouched records are their first-pass segment; texts follow the first pass's order; a non-empty document gives at least one chunk; with no oversized segment the records are the first pass itself |
| DocumentChunker.CreateChunkGroups | src/core/document_chunker.py:145-199 | the grouping loop returns `Grouping` |
| DocumentChunker.PackStepJoin | src/core/document_chunker.py:166-169 | joining the open group keeps the grouping invariant |
| DocumentChunker.PackStepClose | src/core/document_chunker.py:170-182 | closing the open group and starting a new one keeps the grouping invariant |
| DocumentChunker.PackStepKeepsInvariant | src/core/document_chunker.py:162-182 | one loop iteration keeps the grouping invariant |
| DocumentChunker.PackKeepsInvariant | src/core/document_chunker.py:162-182 | the invariant holds after any number of chunks |
| DocumentChunker.GroupingShape | src/core/document_chunker.py:162-191 | groups concatenate to exactly the chunk list; each is non-empty, holds at most the group size (at least one), and stays within the budget unless it is a single chunk; a group is closed only because the next chunk breaks size or budget; no chunks iff no groups |
| TranslationEngine.TerminologyInfo | src/core/translation_engine.py:277-294 | reference definition of `_prepare_terminology_info`; its text is stated by `TerminologyInfoLines` |
| TranslationEngine.TerminologyInfoLines | src/core/translation_engine.py:277-294 | the block is empty exactly for no dictionary or an empty one; otherwise it is the heading, one `- term: translation` line per entry in order, and a final newline |
| TranslationEngine.SuccessCount | src/core/translation_engine.py:84-93 | the position of the first call that raises: every call before it succeeded, and the call at it failed |
| TranslationEngine.FailRemaining | src/core/translation_engine.py:134-148 | appends one failed record per chunk from the first unprocessed one on |
| TranslationEngine.RunGroupFrom | src/core/translation_engine.py:84-150 | when the first `i` calls succeed and the next fails (or there is none), the group's results are those `i` successes followed by failed records for the rest, and the calls are the first `i + 1` |
| TranslationEngine.TranslateChunks | src/core/translation_engine.py:82-150 | returns `RunGroup`, and the calls made are exactly `Sent`: one per chunk, in order, up to the first failure |
| TranslationEngine.TranslateGroup | src/core/translation_engine.py:41-150 | returns the group's results, or None without any call when the prompt lookup raises |
| TranslationEngine.RunGroupShape | src/core/translation_engine.py:84-150 | one record per chunk with its id, text and language; successes are exactly the prefix before the first failure and hold the stripped reply and token counts; the rest are empty with no tokens and the failure's message; the calls stop right after that failure |
| TranslationEngine.TranslateSingleGroup | src/core/translation_engine.py:190-214 | returns its group index together with the group's results, or failed records for every chunk when an exception escapes |
| TranslationEngine.SlotsAt | src/core/translation_engine.py:225-234 | a slot holds its group's outcome once that group has completed, and None before |
| TranslationEngine.ProgressLogAt | src/core/translation_engine.py:235-242 | the j-th progress report is `(j + 1, total, outcome of the j-th group to complete)` |
| TranslationEngine.CompleteNext | src/core/translation_engine.py:228-250 | handling one completed future writes that group's outcome into its own slot only, appends one progress report when a callback is given, and adds exactly that group's calls |
| TranslationEngine.AllSlots | src/core/translation_engine.py:219-234 | after every group completes, the slots hold every outcome in group-index order, whatever the completion order |
| TranslationEngine.CollectGroups | src/core/translation_engine.py:217-253 | fills the slots; reports `(completed, total, results)` once per completion when a callback is given; the calls are the groups' calls in completion order |
| TranslationEngine.ParallelGroupTranslate | src/core/translation_engine.py:152-275 | returns the outcomes flattened in group-index order, skipping empty slots; progress and calls as for the collecting loop |
| TranslationEngine.OutcomeMatches | src/core/translation_engine.py:190-214 | a group's outcome has one record per chunk with its id, text and language; there is no outcome exactly when nothing escaped and the prompt lookup raised |
| TranslationEngine.FlattenMatchesGroups | src/core/translation_engine.py:255-258 | when the prompt lookup succeeds, the flattened output has one record per chunk of all groups, in group order, each with its chunk's id and text |
| TranslationEngine.FlattenNone | src/core/translation_engine.py:256-258 | with every slot empty the flattened output is empty |
| TranslationEngine.WrittenPromptKeyLosesOutput | src/core/translation_engine.py:77-80 | with the key `"translation"` and the configured prompt table, every group yields None with no call, and the output is empty |
| TranslationEngine.ConfiguredPromptKeyTranslates | src/core/translation_engine.py:74-80 | with the key `"group_translation"` the system prompt is the template rendered with the language and the terminology block, and the output matches every chunk |
| Services.AssembleTranslation | src/api/services.py:55-76 | the assembly loop returns `Assembly`: the parts joined by blank lines, and the successful results' usage |
| Services.AssemblyAppend | src/api/services.py:59-69 | no results give the empty text; each further result adds a blank line and its part; a failed part is the failure marker, the error text and the original; only successes add usage |
| Services.UsageAppend | src/api/services.py:59-63 | usage adds up over any split of the results |
| Services.NoSuccessNoUsage | src/api/services.py:59-63 | with no successful result no usage is reported |
| Services.InputUsageBound | src/api/services.py:59-63 | results that match their chunks report at most the chunks' token total as input usage, and exactly that when all succeed |
| Services.ChunkSeparatorsValid | src/config.py:28-43 | every configured separator is non-empty |
| Services.TranslateDocument | src/api/services.py:21-77 | chunk, group, translate and assemble in order; the result is `DocumentTranslation` with the configured prompt key, and the calls are the groups' calls in completion order |
| Services.MatchedParts | src/api/services.py:59-69 | results that match their chunks give one part per chunk: the translation for a success, the failure marker, error and original text otherwise; input usage is at most the chunks' token total |
| Services.DocumentParts | src/api/services.py:38-69 | one part per chunk in chunk order: the translation, or the failure marker and the chunk's text; input usage never exceeds the chunks' token total |
| Services.WrittenPromptKeyEmptyDocument | src/api/services.py:39-69 | as written, every document comes back as the empty text with no usage |
| Services.ConfiguredPromptKeyDocument | src/api/services.py:39-69 | with the configured key, a non-empty document yields at least one part, and a document within the limit yields exactly one part |
| TaskManagement.TaskManager.constructor | src/api/task_manager.py:16-17 | the store starts empty |
| TaskManagement.TaskManager.CreateTask | src/api/task_manager.py:19-30 | the new id is not in the store and maps to a pending record with no result or error and the request data or `{}` |
| TaskManagement.TaskManager.SetStatus | src/api/task_manager.py:32-39 | sets the status of a known task; an unknown id raises `KeyError` and changes nothing |
| TaskManagement.TaskManager.SetResult | src/api/task_manager.py:41-49 | stores the result and marks the task completed; an unknown id raises `KeyError` |
| TaskManagement.TaskManager.SetError | src/api/task_manager.py:51-59 | stores the message and marks the task failed; an unknown id raises `KeyError` |
| TaskManagement.TaskManager.GetTask | src/api/task_manager.py:61-67 | the stored record for a known id, None otherwise |
| TaskManagement.WithStatusChangesOnlyStatus | src/api/task_manager.py:32-39 | a status update changes that task's status and nothing else, and leaves the set of ids unchanged |
| TaskManagement.ResultAndErrorUpdates | src/api/task_manager.py:41-59 | result and error updates set their field and status, keep the request data and every other task, and change nothing for an unknown id |
| TaskManagement.TerminalStatesNotEnforced | src/api/task_manager.py:32-49 | a completed or failed task can be given any status; a failed task given a result is completed and keeps its old error |
| TaskManagement.CreateThenLookup | src/api/task_manager.py:19-30 | a created task is found pending; other lookups are unchanged; after a result it is found completed with that result |
| NlpProcessor.SupportedLanguageListIsJoin | src/api/nlp_processor.py:142 | the language list in the clarification questions is the supported languages joined by `", "` |
| NlpProcessor.MapToSupportedLanguage | src/api/nlp_processor.py:150-168 | reference definition of `_map_to_supported_language`; its behaviour is stated by `MapToSupportedLanguageShape` |
| NlpProcessor.MapToSupportedLanguageShape | src/api/nlp_processor.py:150-168 | a name maps exactly when its lower-cased form is in the table, always to a supported language, regardless of ASCII case |
| NlpProcessor.ExtractLanguage | src/api/nlp_processor.py:208-230 | reference definition of `_extract_language_from_input`; its behaviour is stated by `ExtractLanguageShape` |
| NlpProcessor.ExtractLanguageShape | src/api/nlp_processor.py:208-230 | a language is found exactly when some pattern matches; it is the first matching pattern's language in table order, and it is supported |
| NlpProcessor.TableOrderWins | src/api/nlp_processor.py:210-228 | a request naming Chinese before English yields English |
| NlpProcessor.ExtractLanguageIgnoresCase | src/api/nlp_processor.py:226-228 | lower-casing the input first does not change the language found |
| NlpProcessor.FallbackAnalysis | src/api/nlp_processor.py:170-206 | reference definition of `_fallback_analysis`; its cases are stated by `FallbackAnalysisCases` |
| NlpProcessor.FallbackAnalysisCases | src/api/nlp_processor.py:170-206 | a translation exactly when a document was uploaded or a keyword occurs; it names the detected language or asks with the placeholder; otherwise no language and the model's text or the greeting; any language is an accepted value |
| NlpProcessor.Validated | src/api/nlp_processor.py:130-144 | reference definition of the validation of a parsed reply; stated by `ValidatedShape` and `ValidatedIdempotent` |
| NlpProcessor.ValidateParsed | src/api/nlp_processor.py:130-144 | the in-place validation returns `Validated` |
| NlpProcessor.ValidatedShape | src/api/nlp_processor.py:130-144 | fails exactly for a non-object or a non-string unaccepted target; on success it overwrites the document flag, leaves an accepted target alone, maps a mappable unaccepted target to its supported language, turns an unmappable one into the placeholder with the clarification question, leaves the clarification keys alone otherwise, and keeps every other key |
| NlpProcessor.ValidatedIdempotent | src/api/nlp_processor.py:131-144 | validating a validated record again changes nothing |
| NlpProcessor.ParseLlmJsonResponse | src/api/nlp_processor.py:116-148 | reference definition of `_parse_llm_json_response` after decoding; stated by `ParseOutcomeAccepted` |
| NlpProcessor.ParseOutcomeAccepted | src/api/nlp_processor.py:116-148 | a parsed reply carries the given document flag and an accepted target; the fallback does too; only a parsed value can raise, and only `TypeError` or `AttributeError` |

## Left out

- Concurrency of the thread pool and its semaphore: modelled only as an arbitrary completion order. Groups run one after another in that order.
- The language-model clients (`ChatOpenAI`): replaced by a reply function of the request. Timeouts, retries and non-determinism are not modelled.
- The tokenizer library (`tiktoken`): the encoding is an abstract pair of functions. No property of `cl100k_base` is assumed.
- The logger: apart from `step` swallowing exceptions, logging has no effect on the model.
- Timing and floating point: `processing_time`, `GROUP_TOKEN_RATIO` (the group budget `int(MAX_TOKENS * GROUP_TOKEN_RATIO)` is a parameter), `estimate_processing_time`, `is_within_limit` and `get_max_tokens` (which also read `SAFE_TOKEN_RATIO`, another setting the configuration does not define).
- `analyze_user_intent`: it makes the model call and returns its fixed apology record on any exception. The model starts after the call, from the extracted and decoded reply.
- JSON extraction and decoding in `_parse_llm_json_response` (the fenced-block regular expression and `json.loads`): the decoded value is a parameter, None for a `JSONDecodeError`. JSON numbers are integers only.
- The regular expressions of `_extract_language_from_input`: they are alternations of literal words, modelled as substring search with ASCII case folding.
- Non-ASCII case folding: `str.lower()` and `re.IGNORECASE` are modelled for ASCII letters only.
- `get_task` returns the stored dictionary itself, so a caller could mutate the store through it: that aliasing is not modelled.
- `uuid.uuid4()`: modelled as a counter, so a new id is never one already issued.
- A progress callback that raises: the collecting loop's `except` would log it and go on, with the slot already written. The callback is modelled as a record of its calls.
- `chunk.get('tokens', 0)`: the records the chunker makes always carry `tokens`, so only that case is modelled.
- DocumentChunker.ChunkDocument: requires a positive limit. With a limit of 0 the source's slicing loops never advance, and as written the limit cannot be read at all (see above).
- TranslationEngine.TranslateSingleGroup: an exception escaping `translate_group` is taken to happen before any model call, so its calls are not recorded.
- Exceptions inside `chunk_document`, `parallel_group_translate` and `translate_document` themselves, which `step` would turn into a `None` result: with the limit a parameter, the modelled code raises none.
- DocumentChunker.StripNonEmpty: the chunks are not stated to reconstruct the document end to end. Forced pieces are decodings of token windows under an abstract `decode`, and no round trip `decode(encode(t)) == t` is assumed. Coverage is stated up to stripping on the separator path (`StripNonEmpty`, `SplitBySeparatorSegments`) and as token windows on the forced path (`ForceSplitShape`).
- The file loader, the HTTP layer (`src/main.py`) and the request/response models (`src/api/models.py`) are not part of this model.

## Findings

| source | as written | input that shows it | evidently intended | confidence | as-written member | corrected member |
|---|---|---|---|---|---|---|
| src/core/translation_engine.py:77 | `translate_group` looks up `SYSTEM_PROMPTS["translation"]`, but the configuration (`src/config.py:61-62`) defines only `"group_translation"`; the `KeyError` is swallowed by `logger.step`, so every group yields None and the document comes back as `""` with zero usage | any document, e.g. `"Hello."` to `English` | look up `"group_translation"`, so each chunk is translated or reported as failed | high, not executed | Services.WrittenPromptKeyEmptyDocument | Services.ConfiguredPromptKeyDocument |
