/**
 * The document translation service (src/api/services.py): chunk the document,
 * group the chunks, translate the groups, and assemble the final text and the
 * token usage from the per-chunk results.
 */
module Services {
  import opened Wrappers
  import opened Sequences
  import opened Text
  import opened Tokenizer
  import opened DocumentChunker
  import opened TranslationEngine

  /** The marker that opens a failed chunk's part. */
  const FailureOpen: string := "【翻译失败: "

  /** The marker that closes a failed chunk's error, before its original text. */
  const FailureClose: string := "】\n"

  /** The separator between parts of the final text. */
  const PartSeparator: string := "\n\n"

  /** The text an f-string gives a result's `error` entry: the message, or `None`. */
  function ErrorText(error: Option<string>): string {
    match error
    case Some(msg) => msg
    case None => "None"
  }

  /** One output part: a successful result's translation, or the failure marker followed by the original text. */
  function Part(r: TranslationResult): string {
    if r.success then r.translatedContent
    else FailureOpen + ErrorText(r.error) + FailureClose + r.originalContent
  }

  /** The parts of all results, in result order. */
  function Parts(rs: seq<TranslationResult>): (ps: seq<string>)
    ensures |ps| == |rs| && forall k :: 0 <= k < |rs| ==> ps[k] == Part(rs[k])
  {
    seq(|rs|, k requires 0 <= k < |rs| => Part(rs[k]))
  }

  /** The input tokens of the successful results. */
  function InputUsage(rs: seq<TranslationResult>): int
    decreases |rs|
  {
    if rs == [] then 0
    else InputUsage(rs[..|rs| - 1]) + (if rs[|rs| - 1].success then rs[|rs| - 1].inputTokens else 0)
  }

  /** The output tokens of the successful results. */
  function OutputUsage(rs: seq<TranslationResult>): int
    decreases |rs|
  {
    if rs == [] then 0
    else OutputUsage(rs[..|rs| - 1]) + (if rs[|rs| - 1].success then rs[|rs| - 1].outputTokens else 0)
  }

  /** The service's answer: the translated text and the token usage. */
  datatype Translation = Translation(translatedContent: string, inputTokens: int, outputTokens: int)

  /** The assembly step: the parts joined by blank lines, and the usage of the successful results. */
  function Assembly(rs: seq<TranslationResult>): Translation {
    Translation(Join(Parts(rs), PartSeparator), InputUsage(rs), OutputUsage(rs))
  }

  lemma PartsStep(rs: seq<TranslationResult>, i: nat)
    requires i < |rs|
    ensures Parts(rs[..i + 1]) == Parts(rs[..i]) + [Part(rs[i])]
    ensures InputUsage(rs[..i + 1]) == InputUsage(rs[..i]) + (if rs[i].success then rs[i].inputTokens else 0)
    ensures OutputUsage(rs[..i + 1]) == OutputUsage(rs[..i]) + (if rs[i].success then rs[i].outputTokens else 0)
  {
    assert rs[..i + 1][..i] == rs[..i];
  }

  /** The assembly loop of `translate_document`. */
  method AssembleTranslation(translationResults: seq<TranslationResult>) returns (t: Translation)
    ensures t == Assembly(translationResults)
  {
    var translatedParts: seq<string> := [];
    var totalInputTokens := 0;
    var totalOutputTokens := 0;
    var i := 0;
    while i < |translationResults|
      invariant 0 <= i <= |translationResults|
      invariant translatedParts == Parts(translationResults[..i])
      invariant totalInputTokens == InputUsage(translationResults[..i])
      invariant totalOutputTokens == OutputUsage(translationResults[..i])
    {
      var result := translationResults[i];
      if result.success {
        translatedParts := translatedParts + [result.translatedContent];
        totalInputTokens := totalInputTokens + result.inputTokens;
        totalOutputTokens := totalOutputTokens + result.outputTokens;
      } else {
        var errorInfo := ErrorText(result.error);
        translatedParts := translatedParts + [FailureOpen + errorInfo + FailureClose + result.originalContent];
      }
      PartsStep(translationResults, i);
      i := i + 1;
    }
    assert translationResults[..|translationResults|] == translationResults;
    t := Translation(Join(translatedParts, PartSeparator), totalInputTokens, totalOutputTokens);
  }

  /**
   * The assembled text grows one part at a time: no results give the empty
   * text, one result gives its part alone, and each further result adds a
   * blank line and its part at the end. A failed result's part begins with the
   * failure marker and ends with the chunk's original text; only successful
   * results add to the usage.
   */
  lemma AssemblyAppend(rs: seq<TranslationResult>, r: TranslationResult)
    ensures Assembly([]) == Translation("", 0, 0)
    ensures Assembly(rs + [r]).translatedContent ==
      if rs == [] then Part(r) else Assembly(rs).translatedContent + PartSeparator + Part(r)
    ensures !r.success ==>
      && Part(r)[..|FailureOpen|] == FailureOpen
      && Part(r)[|Part(r)| - |r.originalContent|..] == r.originalContent
    ensures Assembly(rs + [r]).inputTokens == Assembly(rs).inputTokens + (if r.success then r.inputTokens else 0)
    ensures Assembly(rs + [r]).outputTokens == Assembly(rs).outputTokens + (if r.success then r.outputTokens else 0)
  {
    assert (rs + [r])[..|rs|] == rs;
    assert Parts(rs + [r]) == Parts(rs) + [Part(r)];
    if rs != [] {
      JoinAppend(Parts(rs), Part(r), PartSeparator);
    } else {
      assert Parts([r]) == [Part(r)];
    }
  }

  /** Usage adds up over a split of the results. */
  lemma {:induction false} UsageAppend(a: seq<TranslationResult>, b: seq<TranslationResult>)
    ensures InputUsage(a + b) == InputUsage(a) + InputUsage(b)
    ensures OutputUsage(a + b) == OutputUsage(a) + OutputUsage(b)
    decreases |b|
  {
    if b == [] {
      assert a + b == a;
    } else {
      assert (a + b)[..|a + b| - 1] == a + b[..|b| - 1];
      UsageAppend(a, b[..|b| - 1]);
    }
  }

  /** When no result succeeded, no usage is reported. */
  lemma {:induction false} NoSuccessNoUsage(rs: seq<TranslationResult>)
    requires forall k :: 0 <= k < |rs| ==> !rs[k].success
    ensures InputUsage(rs) == 0 && OutputUsage(rs) == 0
    decreases |rs|
  {
    if rs != [] {
      NoSuccessNoUsage(rs[..|rs| - 1]);
    }
  }

  /**
   * Results that match their chunks report at most the chunks' token total as
   * input usage, and exactly that total when every result succeeded.
   */
  lemma {:induction false} InputUsageBound(rs: seq<TranslationResult>, cs: seq<Chunk>, lang: string)
    requires Matches(rs, cs, lang)
    ensures InputUsage(rs) <= TokenSum(cs)
    ensures (forall k :: 0 <= k < |rs| ==> rs[k].success) ==> InputUsage(rs) == TokenSum(cs)
    decreases |rs|
  {
    if rs != [] {
      InputUsageBound(rs[..|rs| - 1], cs[..|cs| - 1], lang);
    }
  }

  // ---------------------------------------------------------------------------
  // translate_document
  // ---------------------------------------------------------------------------

  /** No exception escapes `translate_group`: its logging step swallows every one. */
  function NoFault(i: nat): Option<string> {
    None
  }

  /** The groups `translate_document` builds: chunk with the configured separators, then pack with the default group size. */
  function DocumentGroups(enc: Encoding, limit: nat, maxGroupTokens: int, content: string): seq<seq<Chunk>>
    requires limit > 0
  {
    Grouping(DefaultGroupSize, maxGroupTokens, Chunking(enc, limit, ChunkSeparators, content))
  }

  /** The engine's results for a document, looking the system prompt up under `promptKey`. */
  function DocumentResults(answer: Request -> Reply, enc: Encoding, limit: nat, maxGroupTokens: int,
                           prompts: map<string, Template>, promptKey: string, content: string, lang: string,
                           terminology: Terminology): seq<TranslationResult>
    requires limit > 0
  {
    Flatten(Outcomes(answer, Job(enc, prompts, promptKey, lang, terminology),
                     DocumentGroups(enc, limit, maxGroupTokens, content), NoFault))
  }

  /** The calls `translate_document` makes, group after group in completion order. */
  function DocumentRequests(answer: Request -> Reply, enc: Encoding, limit: nat, maxGroupTokens: int,
                            prompts: map<string, Template>, promptKey: string, content: string, lang: string,
                            terminology: Terminology, orderOf: nat -> seq<nat>): seq<Request>
    requires limit > 0
    requires forall n: nat :: IsPermutation(orderOf(n), n)
  {
    var groups := DocumentGroups(enc, limit, maxGroupTokens, content);
    assert IsPermutation(orderOf(|groups|), |groups|);
    CompletionRequests(AllRequests(answer, Job(enc, prompts, promptKey, lang, terminology), groups, NoFault), orderOf(|groups|), |groups|)
  }

  /** What `translate_document` returns. */
  function DocumentTranslation(answer: Request -> Reply, enc: Encoding, limit: nat, maxGroupTokens: int,
                               prompts: map<string, Template>, promptKey: string, content: string, lang: string,
                               terminology: Terminology): Translation
    requires limit > 0
  {
    Assembly(DocumentResults(answer, enc, limit, maxGroupTokens, prompts, promptKey, content, lang, terminology))
  }

  lemma ChunkSeparatorsValid()
    ensures ValidSeparators(ChunkSeparators)
  {
  }

  /**
   * `translate_document`: the stages run in order (chunk, group, translate in
   * parallel, assemble); the groups may complete in any order `orderOf` picks
   * for their number. The system prompt is looked up under the key the
   * configuration defines.
   */
  method TranslateDocument(backend: Backend, enc: Encoding, limit: nat, maxGroupTokens: int,
                           prompts: map<string, Template>, content: string, targetLanguage: string,
                           terminology: Terminology, orderOf: nat -> seq<nat>)
    returns (t: Translation)
    requires limit > 0
    requires forall n: nat :: IsPermutation(orderOf(n), n)
    modifies backend
    ensures t == DocumentTranslation(backend.answer, enc, limit, maxGroupTokens, prompts, ConfiguredPromptKey,
                                     content, targetLanguage, terminology)
    ensures backend.log == old(backend.log) + DocumentRequests(backend.answer, enc, limit, maxGroupTokens, prompts, ConfiguredPromptKey,
                                                               content, targetLanguage, terminology, orderOf)
  {
    ChunkSeparatorsValid();
    var chunks := ChunkDocument(enc, limit, ChunkSeparators, content);
    var chunkGroups := CreateChunkGroups(chunks, DefaultGroupSize, maxGroupTokens);
    var job := Job(enc, prompts, ConfiguredPromptKey, targetLanguage, terminology);
    var order := orderOf(|chunkGroups|);
    assert IsPermutation(order, |chunkGroups|);
    var translationResults, _ := ParallelGroupTranslate(backend, job, chunkGroups, order, NoFault, false);
    t := AssembleTranslation(translationResults);
  }

  /**
   * Results that match their chunks give one part per chunk: the translation
   * of a success, or the failure marker and that chunk's text; and input usage
   * never exceeds the chunks' token total.
   */
  lemma MatchedParts(rs: seq<TranslationResult>, chunks: seq<Chunk>, lang: string)
    requires Matches(rs, chunks, lang)
    ensures |Parts(rs)| == |chunks|
    ensures forall k :: 0 <= k < |chunks| ==>
      && (rs[k].success ==> Parts(rs)[k] == rs[k].translatedContent)
      && (!rs[k].success ==> Parts(rs)[k] == FailureOpen + ErrorText(rs[k].error) + FailureClose + chunks[k].content)
    ensures InputUsage(rs) <= TokenSum(chunks)
  {
    InputUsageBound(rs, chunks, lang);
  }

  /**
   * When the prompt table holds the key, there is one part per chunk, in chunk
   * order: the translation of each chunk whose call succeeded, and otherwise
   * the failure marker followed by that chunk's text. Input usage never
   * exceeds the chunks' token total.
   */
  lemma DocumentParts(answer: Request -> Reply, enc: Encoding, limit: nat, maxGroupTokens: int,
                      prompts: map<string, Template>, promptKey: string, content: string, lang: string,
                      terminology: Terminology)
    requires limit > 0 && promptKey in prompts
    ensures var chunks := Chunking(enc, limit, ChunkSeparators, content);
            var rs := DocumentResults(answer, enc, limit, maxGroupTokens, prompts, promptKey, content, lang, terminology);
      && |rs| == |chunks|
      && |Parts(rs)| == |chunks|
      && (forall k :: 0 <= k < |chunks| ==>
            && rs[k].chunkId == chunks[k].chunkId
            && (rs[k].success ==> Parts(rs)[k] == rs[k].translatedContent)
            && (!rs[k].success ==> Parts(rs)[k] == FailureOpen + ErrorText(rs[k].error) + FailureClose + chunks[k].content))
      && InputUsage(rs) <= TokenSum(chunks)
  {
    ChunkSeparatorsValid();
    var chunks := Chunking(enc, limit, ChunkSeparators, content);
    var job := Job(enc, prompts, promptKey, lang, terminology);
    var groups := DocumentGroups(enc, limit, maxGroupTokens, content);
    var rs := DocumentResults(answer, enc, limit, maxGroupTokens, prompts, promptKey, content, lang, terminology);
    assert rs == Flatten(Outcomes(answer, job, groups, NoFault));
    GroupingShape(DefaultGroupSize, maxGroupTokens, chunks);
    FlattenMatchesGroups(answer, job, groups, NoFault);
    MatchedParts(rs, chunks, lang);
  }

  /**
   * As written (the key `"translation"`, which the configured prompt table
   * lacks), every document comes back as the empty text with no usage,
   * whatever its content.
   */
  lemma WrittenPromptKeyEmptyDocument(answer: Request -> Reply, template: Template, enc: Encoding, limit: nat,
                                      maxGroupTokens: int, content: string, lang: string, terminology: Terminology)
    requires limit > 0
    ensures DocumentTranslation(answer, enc, limit, maxGroupTokens, ConfiguredPrompts(template), WrittenPromptKey,
                                content, lang, terminology) == Translation("", 0, 0)
  {
    WrittenPromptKeyLosesOutput(answer, template, enc, lang, terminology, DocumentGroups(enc, limit, maxGroupTokens, content));
    var job := Job(enc, ConfiguredPrompts(template), WrittenPromptKey, lang, terminology);
    var groups := DocumentGroups(enc, limit, maxGroupTokens, content);
    assert WrittenPromptKey !in job.prompts;
    FlattenNone(Outcomes(answer, job, groups, NoFault));
  }

  /**
   * With the configured key, a non-empty document comes back with at least
   * one part, and a document that fits the chunk limit comes back as exactly
   * one part: its translation, or the failure marker and the whole document.
   */
  lemma ConfiguredPromptKeyDocument(answer: Request -> Reply, template: Template, enc: Encoding, limit: nat,
                                    maxGroupTokens: int, content: string, lang: string, terminology: Terminology)
    requires limit > 0
    ensures var rs := DocumentResults(answer, enc, limit, maxGroupTokens, ConfiguredPrompts(template), ConfiguredPromptKey,
                                      content, lang, terminology);
      && (content != [] ==> rs != [])
      && (CountTokens(enc, content) <= limit ==>
            && |rs| == 1
            && DocumentTranslation(answer, enc, limit, maxGroupTokens, ConfiguredPrompts(template), ConfiguredPromptKey,
                                   content, lang, terminology).translatedContent
               == if rs[0].success then rs[0].translatedContent
                  else FailureOpen + ErrorText(rs[0].error) + FailureClose + content)
  {
    ChunkSeparatorsValid();
    ChunkingShape(enc, limit, ChunkSeparators, content);
    DocumentParts(answer, enc, limit, maxGroupTokens, ConfiguredPrompts(template), ConfiguredPromptKey, content, lang, terminology);
    var rs := DocumentResults(answer, enc, limit, maxGroupTokens, ConfiguredPrompts(template), ConfiguredPromptKey,
                              content, lang, terminology);
    if CountTokens(enc, content) <= limit {
      assert Parts(rs) == [Part(rs[0])];
    }
  }
}
