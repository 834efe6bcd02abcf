/**
 * The translation engine (src/core/translation_engine.py): sequential
 * translation of one chunk group, the per-group wrapper that turns an escaped
 * exception into failed records, and the parallel driver that writes each
 * group's results to its own slot and flattens the slots in group order.
 *
 * The language model is a `Backend` whose replies are a fixed function of the
 * request; the thread pool's completion order is a permutation of the group
 * indices, and an exception escaping a group's translation is an oracle.
 */
module TranslationEngine {
  import opened Wrappers
  import opened Sequences
  import opened Text
  import opened Tokenizer
  import opened DocumentChunker

  /** One model call: the system prompt and the chunk text sent as the user message. */
  datatype Request = Request(systemPrompt: string, userText: string)

  /** The model's reply: the response content, or the message `str(e)` of the exception the call raised. */
  type Reply = Result<string, string>

  /** The language-model client: every call is recorded, and the reply depends only on the request. */
  class Backend {
    const answer: Request -> Reply
    var log: seq<Request>

    constructor (answer: Request -> Reply)
      ensures this.answer == answer && log == []
    {
      this.answer := answer;
      log := [];
    }

    /** `self.llm.invoke(messages)`. */
    method Invoke(req: Request) returns (r: Reply)
      modifies this
      ensures r == answer(req)
      ensures log == old(log) + [req]
    {
      r := answer(req);
      log := log + [req];
    }
  }

  /** A prompt template: `template.format(target_language=..., terminology_info=...)`. */
  type Template = (string, string) -> string

  /** A terminology dictionary, as its entries in iteration order, or `None`. */
  type Terminology = Option<seq<(string, string)>>

  /** What every group of one translation call shares: the encoding, the prompt table and key, the language and the terminology. */
  datatype Job = Job(enc: Encoding, prompts: map<string, Template>, promptKey: string,
                     targetLanguage: string, terminology: Terminology)

  /** The key `translate_group` looks up in `SYSTEM_PROMPTS`. */
  const WrittenPromptKey: string := "translation"

  /** The one key the configuration's `SYSTEM_PROMPTS` defines. */
  const ConfiguredPromptKey: string := "group_translation"

  /** The configuration's prompt table, for some rendering of its one template. */
  function ConfiguredPrompts(template: Template): map<string, Template> {
    map[ConfiguredPromptKey := template]
  }

  /** A translation result record (`processing_time` is not modelled). */
  datatype TranslationResult = TranslationResult(
    originalContent: string,
    translatedContent: string,
    targetLanguage: string,
    chunkId: int,
    inputTokens: int,
    outputTokens: nat,
    success: bool,
    error: Option<string>)

  // ---------------------------------------------------------------------------
  // _build_terminology_info
  // ---------------------------------------------------------------------------

  /** The heading of the terminology block. */
  const TerminologyHeader: string := "\n术语词典：\n"

  /** The line `- term: translation` of one entry. */
  function TermLine(entry: (string, string)): string {
    "- " + entry.0 + ": " + entry.1
  }

  /** The lines of all entries, in dictionary order. */
  function TermLines(entries: seq<(string, string)>): (r: seq<string>)
    ensures |r| == |entries| && forall k :: 0 <= k < |entries| ==> r[k] == TermLine(entries[k])
  {
    seq(|entries|, k requires 0 <= k < |entries| => TermLine(entries[k]))
  }

  /** `_build_terminology_info`. */
  function TerminologyInfo(terminology: Terminology): string {
    match terminology
    case None => ""
    case Some(entries) => if entries == [] then "" else TerminologyHeader + Join(TermLines(entries), "\n") + "\n"
  }

  /**
   * The terminology block is empty for no dictionary or an empty one; otherwise
   * it is the heading, the lines and a final newline, and, when no term or
   * translation holds a newline, splitting its middle at newlines gives back one
   * `- term: translation` line per entry, in dictionary order.
   */
  lemma TerminologyInfoLines(terminology: Terminology)
    ensures (terminology.None? || terminology.value == []) <==> TerminologyInfo(terminology) == ""
    ensures terminology.Some? && terminology.value != [] ==>
      var info := TerminologyInfo(terminology);
      && |info| > |TerminologyHeader|
      && info[..|TerminologyHeader|] == TerminologyHeader
      && info[|info| - 1] == '\n'
      && ((forall k :: 0 <= k < |terminology.value| ==> '\n' !in terminology.value[k].0 && '\n' !in terminology.value[k].1) ==>
            Split(info[|TerminologyHeader|..|info| - 1], "\n") == TermLines(terminology.value))
  {
    if terminology.Some? && terminology.value != [] {
      var entries := terminology.value;
      var lines := TermLines(entries);
      var body := Join(lines, "\n");
      var info := TerminologyInfo(terminology);
      assert info == TerminologyHeader + body + "\n";
      assert info[|TerminologyHeader|..|info| - 1] == body;
      if forall k :: 0 <= k < |entries| ==> '\n' !in entries[k].0 && '\n' !in entries[k].1 {
        forall k | 0 <= k < |lines| ensures '\n' !in lines[k] {
          assert lines[k] == "- " + entries[k].0 + ": " + entries[k].1;
        }
        JoinSplit(lines, '\n');
      }
    }
  }

  // ---------------------------------------------------------------------------
  // translate_group
  // ---------------------------------------------------------------------------

  /** The record of a chunk whose call returned `reply`: the stripped reply and its token count. */
  function Succeeded(enc: Encoding, lang: string, c: Chunk, reply: string): TranslationResult {
    var translated := Strip(reply);
    TranslationResult(c.content, translated, lang, c.chunkId, c.tokens, CountTokens(enc, translated), true, None)
  }

  /** The record of a chunk that was not translated because of the error `msg`. */
  function Failed(lang: string, c: Chunk, msg: string): TranslationResult {
    TranslationResult(c.content, "", lang, c.chunkId, 0, 0, false, Some(msg))
  }

  /** Failed records for every chunk of a list. */
  function FailedAll(lang: string, cs: seq<Chunk>, msg: string): (r: seq<TranslationResult>)
    ensures |r| == |cs| && forall k :: 0 <= k < |cs| ==> r[k] == Failed(lang, cs[k], msg)
  {
    seq(|cs|, k requires 0 <= k < |cs| => Failed(lang, cs[k], msg))
  }

  /** The request for one chunk. */
  function ChunkRequest(prompt: string, c: Chunk): Request {
    Request(prompt, c.content)
  }

  /** The requests for a list of chunks, in order. */
  function Requests(prompt: string, cs: seq<Chunk>): (r: seq<Request>)
    ensures |r| == |cs| && forall k :: 0 <= k < |cs| ==> r[k] == ChunkRequest(prompt, cs[k])
  {
    seq(|cs|, k requires 0 <= k < |cs| => ChunkRequest(prompt, cs[k]))
  }

  /** The reply to the call for one chunk. */
  function ReplyFor(answer: Request -> Reply, prompt: string, c: Chunk): Reply {
    answer(ChunkRequest(prompt, c))
  }

  /** The position of the first chunk whose call fails, or the group's length when none fails. */
  function SuccessCount(answer: Request -> Reply, prompt: string, cs: seq<Chunk>): (n: nat)
    ensures n <= |cs|
    ensures forall k :: 0 <= k < n ==> ReplyFor(answer, prompt, cs[k]).Ok?
    ensures n < |cs| ==> ReplyFor(answer, prompt, cs[n]).Err?
    decreases |cs|
  {
    if cs == [] || ReplyFor(answer, prompt, cs[0]).Err? then 0
    else 1 + SuccessCount(answer, prompt, cs[1..])
  }

  /**
   * The results of the chunk loop and its `except` handler: a success record
   * for each chunk before the first failing call, and a failed record carrying
   * that call's error for it and every chunk after it.
   */
  function RunGroup(answer: Request -> Reply, enc: Encoding, prompt: string, lang: string, cs: seq<Chunk>): (r: seq<TranslationResult>)
    ensures |r| == |cs|
  {
    var n := SuccessCount(answer, prompt, cs);
    seq(|cs|, k requires 0 <= k < |cs| =>
      if k < n then Succeeded(enc, lang, cs[k], ReplyFor(answer, prompt, cs[k]).value)
      else Failed(lang, cs[k], ReplyFor(answer, prompt, cs[n]).error))
  }

  /** The calls the chunk loop makes: one per chunk, in order, up to and including the first that fails. */
  function Sent(answer: Request -> Reply, prompt: string, cs: seq<Chunk>): seq<Request> {
    var n := SuccessCount(answer, prompt, cs);
    Requests(prompt, cs[..if n < |cs| then n + 1 else n])
  }

  /** The system prompt of a job, when its key is in the prompt table. */
  function SystemPrompt(job: Job): Option<string> {
    if job.promptKey in job.prompts then Some(job.prompts[job.promptKey](job.targetLanguage, TerminologyInfo(job.terminology)))
    else None
  }

  /**
   * What `translate_group` returns: its results, or None when the prompt
   * lookup raises (the logging step around the body swallows the KeyError).
   */
  function GroupResults(answer: Request -> Reply, job: Job, group: seq<Chunk>): Option<seq<TranslationResult>> {
    match SystemPrompt(job)
    case None => None
    case Some(prompt) => Some(RunGroup(answer, job.enc, prompt, job.targetLanguage, group))
  }

  /** The calls `translate_group` makes. */
  function GroupRequests(answer: Request -> Reply, job: Job, group: seq<Chunk>): seq<Request> {
    match SystemPrompt(job)
    case None => []
    case Some(prompt) => Sent(answer, prompt, group)
  }

  /** The `except` handler of `translate_group`: failed records for the chunks from `i` on. */
  method FailRemaining(lang: string, group: seq<Chunk>, i: nat, msg: string, results: seq<TranslationResult>)
    returns (out: seq<TranslationResult>)
    requires i <= |group|
    ensures out == results + FailedAll(lang, group[i..], msg)
  {
    out := results;
    var j := i;
    while j < |group|
      invariant i <= j <= |group|
      invariant out == results + FailedAll(lang, group[i..j], msg)
    {
      assert FailedAll(lang, group[i..j + 1], msg) == FailedAll(lang, group[i..j], msg) + [Failed(lang, group[j], msg)];
      out := out + [Failed(lang, group[j], msg)];
      j := j + 1;
    }
  }

  /** The first failing call is at `i` when the calls before it succeed and the call at `i` fails (or `i` is the end). */
  lemma SuccessCountAt(answer: Request -> Reply, prompt: string, cs: seq<Chunk>, i: nat)
    requires i <= |cs|
    requires forall k :: 0 <= k < i ==> ReplyFor(answer, prompt, cs[k]).Ok?
    requires i < |cs| ==> ReplyFor(answer, prompt, cs[i]).Err?
    ensures SuccessCount(answer, prompt, cs) == i
  {
  }

  /**
   * When the calls before `i` succeed and the call at `i` fails (or `i` is the
   * end), the group's results are the success records so far followed by
   * failed records from `i` on, and the calls are those up to and including `i`.
   */
  lemma RunGroupFrom(answer: Request -> Reply, enc: Encoding, prompt: string, lang: string, cs: seq<Chunk>, i: nat,
                     results: seq<TranslationResult>)
    requires i <= |cs|
    requires forall k :: 0 <= k < i ==> ReplyFor(answer, prompt, cs[k]).Ok?
    requires i < |cs| ==> ReplyFor(answer, prompt, cs[i]).Err?
    requires |results| == i
    requires forall k :: 0 <= k < i ==> results[k] == Succeeded(enc, lang, cs[k], ReplyFor(answer, prompt, cs[k]).value)
    ensures RunGroup(answer, enc, prompt, lang, cs) ==
      results + if i < |cs| then FailedAll(lang, cs[i..], ReplyFor(answer, prompt, cs[i]).error) else []
    ensures Sent(answer, prompt, cs) == Requests(prompt, cs[..if i < |cs| then i + 1 else i])
  {
    SuccessCountAt(answer, prompt, cs, i);
  }

  /** The `try` block of `translate_group`: one call per chunk, in order, until a call fails. */
  method TranslateChunks(backend: Backend, enc: Encoding, systemPrompt: string, lang: string, group: seq<Chunk>)
    returns (results: seq<TranslationResult>)
    modifies backend
    ensures results == RunGroup(backend.answer, enc, systemPrompt, lang, group)
    ensures backend.log == old(backend.log) + Sent(backend.answer, systemPrompt, group)
  {
    ghost var answer := backend.answer;
    results := [];
    var i := 0;
    while i < |group|
      invariant 0 <= i <= |group|
      invariant forall k :: 0 <= k < i ==> ReplyFor(answer, systemPrompt, group[k]).Ok?
      invariant |results| == i
      invariant forall k :: 0 <= k < i ==> results[k] == Succeeded(enc, lang, group[k], ReplyFor(answer, systemPrompt, group[k]).value)
      invariant backend.log == old(backend.log) + Requests(systemPrompt, group[..i])
    {
      var chunk := group[i];
      var response := backend.Invoke(Request(systemPrompt, chunk.content));
      assert Requests(systemPrompt, group[..i + 1]) == Requests(systemPrompt, group[..i]) + [ChunkRequest(systemPrompt, chunk)];
      AppendAssoc(old(backend.log), Requests(systemPrompt, group[..i]), [ChunkRequest(systemPrompt, chunk)]);
      if response.Err? {
        RunGroupFrom(answer, enc, systemPrompt, lang, group, i, results);
        results := FailRemaining(lang, group, i, response.error, results);
        return;
      }
      results := results + [Succeeded(enc, lang, chunk, response.value)];
      i := i + 1;
    }
    RunGroupFrom(answer, enc, systemPrompt, lang, group, i, results);
    assert group[..i] == group;
  }

  /** `translate_group`. */
  method TranslateGroup(backend: Backend, job: Job, group: seq<Chunk>) returns (results: Option<seq<TranslationResult>>)
    modifies backend
    ensures results == GroupResults(backend.answer, job, group)
    ensures backend.log == old(backend.log) + GroupRequests(backend.answer, job, group)
  {
    var terminologyInfo := TerminologyInfo(job.terminology);
    if job.promptKey !in job.prompts {
      return None;
    }
    var systemPrompt := job.prompts[job.promptKey](job.targetLanguage, terminologyInfo);
    var rs := TranslateChunks(backend, job.enc, systemPrompt, job.targetLanguage, group);
    return Some(rs);
  }

  /**
   * What `translate_group` returns for a group once the prompt is built: one
   * record per chunk, in group order, each carrying that chunk's id, text and
   * the target language; a success prefix whose records hold the stripped
   * reply, the chunk's token count and the reply's token count; and a failure
   * suffix, starting at the first failing call, whose records are empty,
   * count no tokens and all carry that call's error. The calls made are one
   * per chunk, in ascending position, up to and including the first failure.
   */
  lemma RunGroupShape(answer: Request -> Reply, enc: Encoding, prompt: string, lang: string, cs: seq<Chunk>)
    ensures var r := RunGroup(answer, enc, prompt, lang, cs);
      && |r| == |cs|
      && forall k :: 0 <= k < |cs| ==>
           r[k].chunkId == cs[k].chunkId && r[k].originalContent == cs[k].content && r[k].targetLanguage == lang
    ensures var r := RunGroup(answer, enc, prompt, lang, cs);
            var n := SuccessCount(answer, prompt, cs);
      && (forall k :: 0 <= k < |cs| ==> (r[k].success <==> k < n))
      && (forall k :: 0 <= k < n ==>
            && ReplyFor(answer, prompt, cs[k]).Ok?
            && r[k].translatedContent == Strip(ReplyFor(answer, prompt, cs[k]).value)
            && r[k].inputTokens == cs[k].tokens
            && r[k].outputTokens == CountTokens(enc, r[k].translatedContent)
            && r[k].error.None?)
      && (forall k :: n <= k < |cs| ==>
            && r[k].translatedContent == "" && r[k].inputTokens == 0 && r[k].outputTokens == 0
            && r[k].error == Some(ReplyFor(answer, prompt, cs[n]).error))
      && (n < |cs| ==> ReplyFor(answer, prompt, cs[n]).Err?)
    ensures var sent := Sent(answer, prompt, cs);
            var n := SuccessCount(answer, prompt, cs);
      && |sent| == (if n < |cs| then n + 1 else |cs|)
      && forall k :: 0 <= k < |sent| ==> sent[k] == ChunkRequest(prompt, cs[k])
  {
  }

  // ---------------------------------------------------------------------------
  // parallel_group_translate and its translate_single_group
  // ---------------------------------------------------------------------------

  /**
   * What one group's task yields: the failed records of the `except` handler
   * of `translate_single_group` when an exception escapes `translate_group`
   * (`fault`), and what `translate_group` returns otherwise.
   */
  function Outcome(answer: Request -> Reply, job: Job, group: seq<Chunk>, fault: Option<string>): Option<seq<TranslationResult>> {
    match fault
    case Some(msg) => Some(FailedAll(job.targetLanguage, group, msg))
    case None => GroupResults(answer, job, group)
  }

  /** The calls one group's task makes (an escaped exception is taken to happen before any call). */
  function OutcomeRequests(answer: Request -> Reply, job: Job, group: seq<Chunk>, fault: Option<string>): seq<Request> {
    if fault.Some? then [] else GroupRequests(answer, job, group)
  }

  /** `translate_single_group`: the group's index and its outcome. */
  method TranslateSingleGroup(backend: Backend, job: Job, groupIndex: nat, group: seq<Chunk>, fault: Option<string>)
    returns (index: nat, results: Option<seq<TranslationResult>>)
    modifies backend
    ensures index == groupIndex
    ensures results == Outcome(backend.answer, job, group, fault)
    ensures backend.log == old(backend.log) + OutcomeRequests(backend.answer, job, group, fault)
  {
    index := groupIndex;
    if fault.Some? {
      var failedResults := FailRemaining(job.targetLanguage, group, 0, fault.value, []);
      assert group[0..] == group;
      assert failedResults == FailedAll(job.targetLanguage, group, fault.value);
      results := Some(failedResults);
      return;
    }
    results := TranslateGroup(backend, job, group);
  }

  /** A completion order of the thread pool: every group index exactly once. */
  predicate IsPermutation(order: seq<nat>, n: nat) {
    && |order| == n
    && (forall k :: 0 <= k < n ==> order[k] < n)
    && (forall i :: 0 <= i < n ==> i in order)
  }

  /** One call of the progress callback: completed groups so far, total groups, and the results of the group just completed. */
  datatype Progress = Progress(completed: nat, total: nat, results: Option<seq<TranslationResult>>)

  /** The outcome of every group, in group-index order. */
  function Outcomes(answer: Request -> Reply, job: Job, groups: seq<seq<Chunk>>, fault: nat -> Option<string>)
    : (r: seq<Option<seq<TranslationResult>>>)
    ensures |r| == |groups| && forall i :: 0 <= i < |groups| ==> r[i] == Outcome(answer, job, groups[i], fault(i))
  {
    seq(|groups|, i requires 0 <= i < |groups| => Outcome(answer, job, groups[i], fault(i)))
  }

  /** The final merge: the results of every slot, in slot order, skipping empty slots. */
  function Flatten(slots: seq<Option<seq<TranslationResult>>>): seq<TranslationResult>
    decreases |slots|
  {
    if slots == [] then []
    else Flatten(slots[..|slots| - 1]) + match slots[|slots| - 1] case Some(rs) => rs case None => []
  }

  /** The calls of every group's task, in group-index order. */
  function AllRequests(answer: Request -> Reply, job: Job, groups: seq<seq<Chunk>>, fault: nat -> Option<string>)
    : (r: seq<seq<Request>>)
    ensures |r| == |groups| && forall i :: 0 <= i < |groups| ==> r[i] == OutcomeRequests(answer, job, groups[i], fault(i))
  {
    seq(|groups|, i requires 0 <= i < |groups| => OutcomeRequests(answer, job, groups[i], fault(i)))
  }

  /** Every entry of `order` indexes one of `n` groups. */
  predicate IndexesBelow(order: seq<nat>, n: nat) {
    forall j :: 0 <= j < |order| ==> order[j] < n
  }

  /** The calls made by the first `k` groups to complete, in completion order, given each group's calls. */
  function CompletionRequests(calls: seq<seq<Request>>, order: seq<nat>, k: nat): seq<Request>
    requires k <= |order| && IndexesBelow(order, |calls|)
  {
    if k == 0 then [] else CompletionRequests(calls, order, k - 1) + calls[order[k - 1]]
  }

  /** The progress reports after the first `k` groups to complete, given each group's outcome. */
  function ProgressLog(outs: seq<Option<seq<TranslationResult>>>, order: seq<nat>, k: nat): (r: seq<Progress>)
    requires k <= |order| && IndexesBelow(order, |outs|)
    ensures |r| == k
  {
    if k == 0 then [] else ProgressLog(outs, order, k - 1) + [Progress(k, |outs|, outs[order[k - 1]])]
  }

  /**
   * The `j`-th report counts `j + 1` completed groups out of all of them and
   * carries the outcome of the `j`-th group to complete.
   */
  lemma {:induction false} ProgressLogAt(outs: seq<Option<seq<TranslationResult>>>, order: seq<nat>, k: nat)
    requires k <= |order| && IndexesBelow(order, |outs|)
    ensures forall j :: 0 <= j < k ==> ProgressLog(outs, order, k)[j] == Progress(j + 1, |outs|, outs[order[j]])
  {
    if k > 0 {
      ProgressLogAt(outs, order, k - 1);
    }
  }

  /** The slots after the first `k` groups to complete have each written their own outcome. */
  function Slots(outs: seq<Option<seq<TranslationResult>>>, order: seq<nat>, k: nat): (r: seq<Option<seq<TranslationResult>>>)
    requires k <= |order| && IndexesBelow(order, |outs|)
    ensures |r| == |outs|
  {
    if k == 0 then seq(|outs|, _ => None) else Slots(outs, order, k - 1)[order[k - 1] := outs[order[k - 1]]]
  }

  /** A slot holds its group's outcome once that group has completed, and nothing before. */
  lemma {:induction false} SlotsAt(outs: seq<Option<seq<TranslationResult>>>, order: seq<nat>, k: nat, i: nat)
    requires k <= |order| && IndexesBelow(order, |outs|)
    requires i < |outs|
    ensures Slots(outs, order, k)[i] == if i in order[..k] then outs[i] else None
  {
    if k > 0 {
      SlotsAt(outs, order, k - 1, i);
      assert order[..k] == order[..k - 1] + [order[k - 1]];
    }
  }

  /** Once every group has completed, the slots hold every outcome in group-index order. */
  lemma AllSlots(outs: seq<Option<seq<TranslationResult>>>, order: seq<nat>)
    requires IsPermutation(order, |outs|)
    ensures Slots(outs, order, |outs|) == outs
  {
    assert order[..|outs|] == order;
    forall i | 0 <= i < |outs|
      ensures Slots(outs, order, |outs|)[i] == outs[i]
    {
      SlotsAt(outs, order, |outs|, i);
    }
  }

  /**
   * One turn of the collecting loop: the `k`-th group to complete runs, writes
   * its own slot and, when there is a callback, reports progress.
   */
  method CompleteNext(backend: Backend, job: Job, groups: seq<seq<Chunk>>, order: seq<nat>,
                      fault: nat -> Option<string>, withCallback: bool,
                      groupResults: array<Option<seq<TranslationResult>>>, k: nat, progress: seq<Progress>)
    returns (progress': seq<Progress>)
    requires k < |order| == |groups| && IndexesBelow(order, |groups|)
    requires groupResults[..] == Slots(Outcomes(backend.answer, job, groups, fault), order, k)
    requires progress == if withCallback then ProgressLog(Outcomes(backend.answer, job, groups, fault), order, k) else []
    modifies backend, groupResults
    ensures groupResults[..] == Slots(Outcomes(backend.answer, job, groups, fault), order, k + 1)
    ensures progress' == if withCallback then ProgressLog(Outcomes(backend.answer, job, groups, fault), order, k + 1) else []
    ensures backend.log == old(backend.log) + AllRequests(backend.answer, job, groups, fault)[order[k]]
  {
    var groupIndex := order[k];
    var resultGroupIndex, results := TranslateSingleGroup(backend, job, groupIndex, groups[groupIndex], fault(groupIndex));
    groupResults[resultGroupIndex] := results;
    progress' := progress;
    if withCallback {
      progress' := progress + [Progress(k + 1, |groups|, results)];
    }
  }

  /** The collecting loop of `parallel_group_translate`: each completed group writes its own slot and reports progress. */
  method CollectGroups(backend: Backend, job: Job, groups: seq<seq<Chunk>>, order: seq<nat>,
                       fault: nat -> Option<string>, withCallback: bool)
    returns (groupResults: array<Option<seq<TranslationResult>>>, progress: seq<Progress>)
    requires |order| == |groups| && IndexesBelow(order, |groups|)
    modifies backend
    ensures fresh(groupResults)
    ensures groupResults[..] == Slots(Outcomes(backend.answer, job, groups, fault), order, |groups|)
    ensures progress == if withCallback then ProgressLog(Outcomes(backend.answer, job, groups, fault), order, |groups|) else []
    ensures backend.log == old(backend.log) + CompletionRequests(AllRequests(backend.answer, job, groups, fault), order, |groups|)
  {
    var n := |groups|;
    groupResults := new Option<seq<TranslationResult>>[n](_ => None);
    progress := [];
    var k := 0;
    while k < n
      invariant 0 <= k <= n
      invariant groupResults[..] == Slots(Outcomes(backend.answer, job, groups, fault), order, k)
      invariant progress == if withCallback then ProgressLog(Outcomes(backend.answer, job, groups, fault), order, k) else []
      invariant backend.log == old(backend.log) + CompletionRequests(AllRequests(backend.answer, job, groups, fault), order, k)
    {
      ghost var calls := AllRequests(backend.answer, job, groups, fault);
      ghost var sent := CompletionRequests(calls, order, k);
      progress := CompleteNext(backend, job, groups, order, fault, withCallback, groupResults, k, progress);
      AppendAssoc(old(backend.log), sent, calls[order[k]]);
      k := k + 1;
    }
  }

  /** `parallel_group_translate`: the results of all groups, flattened in group-index order whatever the completion order. */
  method ParallelGroupTranslate(backend: Backend, job: Job, groups: seq<seq<Chunk>>, order: seq<nat>,
                                fault: nat -> Option<string>, withCallback: bool)
    returns (allResults: seq<TranslationResult>, progress: seq<Progress>)
    requires IsPermutation(order, |groups|)
    modifies backend
    ensures allResults == Flatten(Outcomes(backend.answer, job, groups, fault))
    ensures progress == if withCallback then ProgressLog(Outcomes(backend.answer, job, groups, fault), order, |groups|) else []
    ensures backend.log == old(backend.log) + CompletionRequests(AllRequests(backend.answer, job, groups, fault), order, |groups|)
  {
    var groupResults;
    groupResults, progress := CollectGroups(backend, job, groups, order, fault, withCallback);
    AllSlots(Outcomes(backend.answer, job, groups, fault), order);
    allResults := [];
    var i := 0;
    while i < groupResults.Length
      invariant 0 <= i <= groupResults.Length
      invariant allResults == Flatten(groupResults[..i])
    {
      assert groupResults[..i + 1][..i] == groupResults[..i];
      var groupResult := groupResults[i];
      if groupResult.Some? && groupResult.value != [] {
        allResults := allResults + groupResult.value;
      }
      i := i + 1;
    }
    assert groupResults[..groupResults.Length] == groupResults[..];
  }

  // ---------------------------------------------------------------------------
  // What the engine's output promises
  // ---------------------------------------------------------------------------

  /**
   * One record per chunk, in order, each carrying that chunk's id, text and
   * the target language, and, when it succeeded, that chunk's token count as
   * its input usage.
   */
  predicate Matches(rs: seq<TranslationResult>, cs: seq<Chunk>, lang: string) {
    && |rs| == |cs|
    && forall k :: 0 <= k < |cs| ==>
         && rs[k].chunkId == cs[k].chunkId && rs[k].originalContent == cs[k].content && rs[k].targetLanguage == lang
         && (rs[k].success ==> rs[k].inputTokens == cs[k].tokens)
  }

  lemma MatchesAppend(a: seq<TranslationResult>, b: seq<TranslationResult>, c: seq<Chunk>, d: seq<Chunk>, lang: string)
    requires Matches(a, c, lang) && Matches(b, d, lang)
    ensures Matches(a + b, c + d, lang)
  {
  }

  /** A group's outcome, when there is one, matches the group chunk for chunk. */
  lemma OutcomeMatches(answer: Request -> Reply, job: Job, group: seq<Chunk>, fault: Option<string>)
    ensures Outcome(answer, job, group, fault).Some? ==> Matches(Outcome(answer, job, group, fault).value, group, job.targetLanguage)
    ensures Outcome(answer, job, group, fault).None? <==> fault.None? && job.promptKey !in job.prompts
  {
    if fault.None? && job.promptKey in job.prompts {
      RunGroupShape(answer, job.enc, SystemPrompt(job).value, job.targetLanguage, group);
    }
  }

  /**
   * When the prompt lookup succeeds, every group has an outcome and the
   * flattened output matches the chunks of all groups, one record per chunk in
   * group order, whatever the completion order and whichever groups failed.
   */
  lemma {:induction false} FlattenMatchesGroups(answer: Request -> Reply, job: Job, groups: seq<seq<Chunk>>, fault: nat -> Option<string>)
    requires job.promptKey in job.prompts
    ensures Matches(Flatten(Outcomes(answer, job, groups, fault)), Concat(groups), job.targetLanguage)
    decreases |groups|
  {
    if groups != [] {
      var init := groups[..|groups| - 1];
      var last := groups[|groups| - 1];
      FlattenMatchesGroups(answer, job, init, fault);
      assert Outcomes(answer, job, groups, fault)[..|groups| - 1] == Outcomes(answer, job, init, fault);
      OutcomeMatches(answer, job, last, fault(|groups| - 1));
      MatchesAppend(Flatten(Outcomes(answer, job, init, fault)), Outcome(answer, job, last, fault(|groups| - 1)).value,
                    Concat(init), last, job.targetLanguage);
    }
  }

  /** With no group outcome at all, the flattened output is empty. */
  lemma {:induction false} FlattenNone(slots: seq<Option<seq<TranslationResult>>>)
    requires forall i :: 0 <= i < |slots| ==> slots[i].None?
    ensures Flatten(slots) == []
    decreases |slots|
  {
    if slots != [] {
      FlattenNone(slots[..|slots| - 1]);
    }
  }

  /**
   * As written, `translate_group` looks up the key `"translation"`, which the
   * configured prompt table does not hold: the lookup raises, the logging step
   * swallows the error, and `translate_group` returns None for every group
   * without calling the model. Unless some other exception escapes,
   * `parallel_group_translate` then returns no results at all.
   */
  lemma WrittenPromptKeyLosesOutput(answer: Request -> Reply, template: Template, enc: Encoding, lang: string,
                                    terminology: Terminology, groups: seq<seq<Chunk>>)
    ensures var job := Job(enc, ConfiguredPrompts(template), WrittenPromptKey, lang, terminology);
      && (forall i :: 0 <= i < |groups| ==>
            GroupResults(answer, job, groups[i]) == None && GroupRequests(answer, job, groups[i]) == [])
      && Flatten(Outcomes(answer, job, groups, _ => None)) == []
  {
    var job := Job(enc, ConfiguredPrompts(template), WrittenPromptKey, lang, terminology);
    assert WrittenPromptKey !in job.prompts;
    FlattenNone(Outcomes(answer, job, groups, _ => None));
  }

  /**
   * With the key the configuration defines, the system prompt is the template
   * rendered with the target language and the terminology block, and the
   * output holds one record per chunk of every group, in order.
   */
  lemma ConfiguredPromptKeyTranslates(answer: Request -> Reply, template: Template, enc: Encoding, lang: string,
                                      terminology: Terminology, groups: seq<seq<Chunk>>, fault: nat -> Option<string>)
    ensures var job := Job(enc, ConfiguredPrompts(template), ConfiguredPromptKey, lang, terminology);
      && SystemPrompt(job) == Some(template(lang, TerminologyInfo(terminology)))
      && Matches(Flatten(Outcomes(answer, job, groups, fault)), Concat(groups), lang)
  {
    var job := Job(enc, ConfiguredPrompts(template), ConfiguredPromptKey, lang, terminology);
    FlattenMatchesGroups(answer, job, groups, fault);
  }
}
