/**
 * The rule-based parts of intent recognition (src/api/nlp_processor.py): the
 * language name table, the language patterns searched in the user's text,
 * the keyword fallback used when the model's reply is not JSON, and the
 * validation applied to a reply that parsed.
 */
module NlpProcessor {
  import opened Wrappers
  import opened Sequences
  import opened Text

  /** The target languages the service supports, in the order its messages list them. */
  const SupportedLanguages: seq<string> :=
    ["English", "中文", "日文", "韩文", "法文", "德文", "西班牙文", "俄文", "意大利文", "葡萄牙文", "阿拉伯文", "泰文", "越南文"]

  /** The placeholder target language that asks the user to choose. */
  const NeedsConfirmation: string := "需要确认"

  /** `language_mapping`: lower-case language names and their supported language. */
  const LanguageMapping: map<string, string> := map[
    "英语" := "English", "英文" := "English", "english" := "English",
    "中国话" := "中文", "汉语" := "中文", "chinese" := "中文",
    "日语" := "日文", "japanese" := "日文",
    "韩语" := "韩文", "korean" := "韩文",
    "法语" := "法文", "french" := "法文",
    "德语" := "德文", "german" := "德文",
    "西班牙语" := "西班牙文", "spanish" := "西班牙文",
    "俄语" := "俄文", "russian" := "俄文",
    "意大利语" := "意大利文", "italian" := "意大利文",
    "葡萄牙语" := "葡萄牙文", "portuguese" := "葡萄牙文",
    "阿拉伯文" := "阿拉伯文", "arabic" := "阿拉伯文",
    "泰文" := "泰文", "thai" := "泰文",
    "越南文" := "越南文", "vietnamese" := "越南文"
  ]

  /** `language_patterns`, in table order: the alternatives of each pattern and the language it stands for. */
  const LanguagePatterns: seq<(seq<string>, string)> := [
    (["英语", "英文", "English", "english"], "English"),
    (["中文", "中国话", "Chinese", "chinese", "汉语", "简体中文", "繁体中文"], "中文"),
    (["日语", "日文", "Japanese", "japanese", "日本语"], "日文"),
    (["韩语", "韩文", "Korean", "korean", "朝鲜语"], "韩文"),
    (["法语", "法文", "French", "french"], "法文"),
    (["德语", "德文", "German", "german"], "德文"),
    (["西班牙语", "西班牙文", "Spanish", "spanish"], "西班牙文"),
    (["俄语", "俄文", "Russian", "russian"], "俄文"),
    (["意大利语", "意大利文", "Italian", "italian"], "意大利文"),
    (["葡萄牙语", "葡萄牙文", "Portuguese", "portuguese"], "葡萄牙文"),
    (["阿拉伯语", "阿拉伯文", "Arabic", "arabic"], "阿拉伯文"),
    (["泰语", "泰文", "Thai", "thai"], "泰文"),
    (["越南语", "越南文", "Vietnamese", "vietnamese"], "越南文")
  ]

  /** The keywords that mark a request as a translation. */
  const TranslationKeywords: seq<string> := ["翻译", "translate", "译成", "转换", "变成", "改成"]

  /** The greeting used when the request is not a translation and the model said nothing. */
  const Greeting: string := "您好！我是智能翻译助手，可以帮您翻译文档。请告诉我您的需求。"

  /** The supported languages as the questions list them: `", ".join` of `SupportedLanguages` (`SupportedLanguageListIsJoin`). */
  const SupportedLanguageList: string :=
    ("English" + ", ") + (("中文" + ", ") + (("日文" + ", ") + (("韩文" + ", ") + (("法文" + ", ") + (("德文" + ", ") + (("西班牙文" + ", ") + (("俄文" + ", ") + (("意大利文" + ", ") + (("葡萄牙文" + ", ") + (("阿拉伯文" + ", ") + (("泰文" + ", ") + "越南文")))))))))))

  /** The question asked when the fallback finds no target language, listing the supported languages. */
  const ChooseLanguageQuestion: string := "请选择目标语言：" + SupportedLanguageList

  /** The question asked when the model named a language the service cannot map, listing the supported languages. */
  const ClarifyLanguageQuestion: string := "请明确指定目标语言，支持的语言有：" + SupportedLanguageList

  /** The list in the questions is `SupportedLanguages` joined by `", "`, as the service formats it. */
  lemma SupportedLanguageListIsJoin()
    ensures SupportedLanguageList == Join(SupportedLanguages, ", ")
  {
    JoinFrom(SupportedLanguages, ", ", 11);
    JoinFrom(SupportedLanguages, ", ", 10);
    JoinFrom(SupportedLanguages, ", ", 9);
    JoinFrom(SupportedLanguages, ", ", 8);
    JoinFrom(SupportedLanguages, ", ", 7);
    JoinFrom(SupportedLanguages, ", ", 6);
    JoinFrom(SupportedLanguages, ", ", 5);
    JoinFrom(SupportedLanguages, ", ", 4);
    JoinFrom(SupportedLanguages, ", ", 3);
    JoinFrom(SupportedLanguages, ", ", 2);
    JoinFrom(SupportedLanguages, ", ", 1);
    JoinFrom(SupportedLanguages, ", ", 0);
    assert SupportedLanguages[0..] == SupportedLanguages;
  }

  /** The target-language values the validation accepts as they are. */
  function AllowedTargets(): seq<string> {
    [NeedsConfirmation] + SupportedLanguages
  }

  lemma LowerIdempotent(s: string)
    ensures Lower(Lower(s)) == Lower(s)
  {
  }

  // ---------------------------------------------------------------------------
  // _map_to_supported_language
  // ---------------------------------------------------------------------------

  /** `_map_to_supported_language`: look the lower-cased name up in the table. */
  function MapToSupportedLanguage(language: string): Option<string> {
    if Lower(language) in LanguageMapping then Some(LanguageMapping[Lower(language)]) else None
  }

  /**
   * A name maps exactly when its lower-cased form is in the table; it always
   * maps to a supported language; and the lookup ignores ASCII case.
   */
  lemma MapToSupportedLanguageShape(language: string)
    ensures MapToSupportedLanguage(language).Some? <==> Lower(language) in LanguageMapping.Keys
    ensures MapToSupportedLanguage(language).Some? ==> MapToSupportedLanguage(language).value in SupportedLanguages
    ensures MapToSupportedLanguage(Lower(language)) == MapToSupportedLanguage(language)
  {
    LowerIdempotent(language);
  }

  // ---------------------------------------------------------------------------
  // _extract_language_from_input
  // ---------------------------------------------------------------------------

  /** A pattern of alternatives matches the text anywhere, ignoring ASCII case. */
  predicate PatternMatches(userInput: string, alternatives: seq<string>) {
    exists j :: 0 <= j < |alternatives| && Contains(Lower(userInput), Lower(alternatives[j]))
  }

  /** Whether pattern `k` of the table matches the text. */
  function PatternTest(userInput: string): nat -> bool {
    (k: nat) => k < |LanguagePatterns| && PatternMatches(userInput, LanguagePatterns[k].0)
  }

  /** `_extract_language_from_input`: the language of the first pattern, in table order, that matches. */
  function ExtractLanguage(userInput: string): Option<string> {
    match FirstWhere(|LanguagePatterns|, PatternTest(userInput), 0)
    case Some(k) => Some(LanguagePatterns[k].1)
    case None => None
  }

  /**
   * A language is found exactly when some pattern matches; it is then the
   * language of the first matching pattern in table order (not the first
   * mention in the text), and it is a supported language.
   */
  lemma ExtractLanguageShape(userInput: string)
    ensures ExtractLanguage(userInput).Some? <==>
      exists k :: 0 <= k < |LanguagePatterns| && PatternMatches(userInput, LanguagePatterns[k].0)
    ensures ExtractLanguage(userInput).Some? ==>
      exists k :: 0 <= k < |LanguagePatterns| && PatternMatches(userInput, LanguagePatterns[k].0)
        && (forall j :: 0 <= j < k ==> !PatternMatches(userInput, LanguagePatterns[j].0))
        && ExtractLanguage(userInput).value == LanguagePatterns[k].1
    ensures ExtractLanguage(userInput).Some? ==> ExtractLanguage(userInput).value in SupportedLanguages
  {
    var r := FirstWhere(|LanguagePatterns|, PatternTest(userInput), 0);
    if r.Some? {
      assert PatternTest(userInput)(r.value);
      forall j | 0 <= j < r.value ensures !PatternMatches(userInput, LanguagePatterns[j].0) {
        assert !PatternTest(userInput)(j);
      }
    } else {
      forall k | 0 <= k < |LanguagePatterns| ensures !PatternMatches(userInput, LanguagePatterns[k].0) {
        assert !PatternTest(userInput)(k);
      }
    }
  }

  /**
   * Table order wins over position in the text: a request that names Chinese
   * before English still yields English, the earlier row of the table.
   */
  lemma TableOrderWins()
    ensures ExtractLanguage("把中文翻译成English") == Some("English")
  {
    var s := "把中文翻译成English";
    assert Lower(s) == "把中文翻译成english";
    assert Lower("english") == "english";
    assert Occurs(Lower(s), "english", 6);
    assert Contains(Lower(s), Lower(LanguagePatterns[0].0[3]));
    FirstWhereIs(|LanguagePatterns|, PatternTest(s), 0, 0);
  }

  /** The search ignores ASCII case: lower-casing the text first changes nothing. */
  lemma ExtractLanguageIgnoresCase(userInput: string)
    ensures ExtractLanguage(Lower(userInput)) == ExtractLanguage(userInput)
  {
    LowerIdempotent(userInput);
    FirstWhereSame(|LanguagePatterns|, PatternTest(Lower(userInput)), PatternTest(userInput), 0);
  }

  // ---------------------------------------------------------------------------
  // _fallback_analysis
  // ---------------------------------------------------------------------------

  /** The intent record: request type, document flag, target language, reply text, whether to ask, and the question. */
  datatype Intent = Intent(requestType: string, hasDocument: bool, targetLanguage: Option<string>, content: string,
                           needsClarification: bool, question: Option<string>)

  /** A document was uploaded, or a translation keyword occurs in the lower-cased text. */
  predicate IsTranslationRequest(userInput: string, hasDocument: bool) {
    hasDocument || exists k :: 0 <= k < |TranslationKeywords| && Contains(Lower(userInput), TranslationKeywords[k])
  }

  /** `_fallback_analysis`: keyword matching when the model's reply is not JSON. */
  function FallbackAnalysis(userInput: string, hasDocument: bool, llmContent: string): Intent {
    if IsTranslationRequest(userInput, hasDocument) then
      match ExtractLanguage(userInput)
      case Some(language) =>
        Intent("translation", hasDocument, Some(language), "已识别目标语言为【" + language + "】，准备开始翻译。", false, None)
      case None =>
        Intent("translation", hasDocument, Some(NeedsConfirmation), "我理解您需要翻译，请告诉我您想翻译成什么语言？",
               true, Some(ChooseLanguageQuestion))
    else
      Intent("other", hasDocument, None, if llmContent != "" then llmContent else Greeting, false, None)
  }

  /**
   * The fallback treats the request as a translation iff a document was
   * uploaded or a keyword occurs; a translation names the detected language
   * without asking, or asks with the placeholder when none is found; anything
   * else has no target language and answers with the model's text or the
   * greeting. Its target language is always one the validation accepts.
   */
  lemma FallbackAnalysisCases(userInput: string, hasDocument: bool, llmContent: string)
    ensures var r := FallbackAnalysis(userInput, hasDocument, llmContent);
      && r.hasDocument == hasDocument
      && (r.requestType == "translation" <==>
            hasDocument || exists k :: 0 <= k < |TranslationKeywords| && Contains(Lower(userInput), TranslationKeywords[k]))
      && (r.requestType == "translation" && ExtractLanguage(userInput).Some? ==>
            r.targetLanguage == ExtractLanguage(userInput) && !r.needsClarification && r.question.None?)
      && (r.requestType == "translation" && ExtractLanguage(userInput).None? ==>
            r.targetLanguage == Some(NeedsConfirmation) && r.needsClarification && r.question == Some(ChooseLanguageQuestion))
      && (r.requestType != "translation" ==>
            && r.requestType == "other" && r.targetLanguage.None? && !r.needsClarification && r.question.None?
            && r.content == (if llmContent != "" then llmContent else Greeting))
      && (r.targetLanguage.Some? ==> r.targetLanguage.value in AllowedTargets())
  {
    ExtractLanguageShape(userInput);
  }

  // ---------------------------------------------------------------------------
  // Validation after parsing (_parse_llm_json_response)
  // ---------------------------------------------------------------------------

  /** A parsed JSON value (numbers as integers). */
  datatype Json =
    | JNull
    | JBool(b: bool)
    | JNumber(n: int)
    | JString(s: string)
    | JArray(items: seq<Json>)
    | JObject(fields: map<string, Json>)

  /** Python truthiness of a parsed value. */
  predicate Truthy(j: Json) {
    match j
    case JNull => false
    case JBool(b) => b
    case JNumber(n) => n != 0
    case JString(s) => s != ""
    case JArray(items) => items != []
    case JObject(fields) => |fields| != 0
  }

  const HasDocumentKey: string := "has_document"
  const TargetLanguageKey: string := "target_language"
  const NeedsClarificationKey: string := "needs_clarification"
  const QuestionKey: string := "question"

  /** `result.get(key)`: the value, or None (JSON null) when absent. */
  function Get(record: map<string, Json>, key: string): Json {
    if key in record then record[key] else JNull
  }

  /** A target-language value the validation must replace: truthy and not an accepted string. */
  predicate Unaccepted(target: Json) {
    Truthy(target) && !(target.JString? && target.s in AllowedTargets())
  }

  /**
   * The validation: the document flag is overwritten, and an unaccepted target
   * language is mapped or replaced by the placeholder with a question. A parsed
   * value that is not an object cannot take the assignment (`TypeError`), and a
   * non-string target has no `lower` (`AttributeError`).
   */
  function Validated(parsed: Json, hasDocument: bool): Result<map<string, Json>, string> {
    if !parsed.JObject? then Err("TypeError")
    else
      var result := parsed.fields[HasDocumentKey := JBool(hasDocument)];
      var target := Get(result, TargetLanguageKey);
      if !Unaccepted(target) then Ok(result)
      else if !target.JString? then Err("AttributeError")
      else match MapToSupportedLanguage(target.s)
        case Some(mapped) => Ok(result[TargetLanguageKey := JString(mapped)])
        case None =>
          Ok(result[TargetLanguageKey := JString(NeedsConfirmation)][NeedsClarificationKey := JBool(true)]
                   [QuestionKey := JString(ClarifyLanguageQuestion)])
  }

  /** The validation as `_parse_llm_json_response` performs it, updating the parsed record in place. */
  method ValidateParsed(parsed: Json, hasDocument: bool) returns (r: Result<map<string, Json>, string>)
    ensures r == Validated(parsed, hasDocument)
  {
    if !parsed.JObject? {
      return Err("TypeError");
    }
    var result := parsed.fields;
    result := result[HasDocumentKey := JBool(hasDocument)];
    var target := Get(result, TargetLanguageKey);
    if Truthy(target) && !(target.JString? && target.s in [NeedsConfirmation] + SupportedLanguages) {
      if !target.JString? {
        return Err("AttributeError");
      }
      var mappedLang := MapToSupportedLanguage(target.s);
      if mappedLang.Some? {
        result := result[TargetLanguageKey := JString(mappedLang.value)];
      } else {
        result := result[TargetLanguageKey := JString(NeedsConfirmation)];
        result := result[NeedsClarificationKey := JBool(true)];
        result := result[QuestionKey := JString(ClarifyLanguageQuestion)];
      }
    }
    return Ok(result);
  }

  /**
   * What the validation guarantees: it fails only on a non-object or a
   * non-string unaccepted target; on success the document flag is the
   * argument, the target language is either falsy as before or an accepted
   * value, a target that can be mapped becomes its supported language, a
   * target that cannot be mapped becomes the placeholder with a question,
   * and every other key keeps its value.
   */
  lemma ValidatedShape(parsed: Json, hasDocument: bool)
    ensures Validated(parsed, hasDocument).Err? <==>
      !parsed.JObject? || (Unaccepted(Get(parsed.fields, TargetLanguageKey)) && !Get(parsed.fields, TargetLanguageKey).JString?)
    ensures Validated(parsed, hasDocument).Ok? ==>
      var before := parsed.fields;
      var after := Validated(parsed, hasDocument).value;
      && Get(after, HasDocumentKey) == JBool(hasDocument)
      && !Unaccepted(Get(after, TargetLanguageKey))
      && (!Unaccepted(Get(before, TargetLanguageKey)) ==> Get(after, TargetLanguageKey) == Get(before, TargetLanguageKey))
      && (Unaccepted(Get(before, TargetLanguageKey)) && MapToSupportedLanguage(Get(before, TargetLanguageKey).s).Some? ==>
            Get(after, TargetLanguageKey) == JString(MapToSupportedLanguage(Get(before, TargetLanguageKey).s).value))
      && (Unaccepted(Get(before, TargetLanguageKey)) && MapToSupportedLanguage(Get(before, TargetLanguageKey).s).None? ==>
            && Get(after, TargetLanguageKey) == JString(NeedsConfirmation)
            && Get(after, NeedsClarificationKey) == JBool(true)
            && Get(after, QuestionKey) == JString(ClarifyLanguageQuestion))
      && (!(Unaccepted(Get(before, TargetLanguageKey)) && MapToSupportedLanguage(Get(before, TargetLanguageKey).s).None?) ==>
            && Get(after, NeedsClarificationKey) == Get(before, NeedsClarificationKey)
            && Get(after, QuestionKey) == Get(before, QuestionKey))
      && forall key :: key !in {HasDocumentKey, TargetLanguageKey, NeedsClarificationKey, QuestionKey} ==>
           Get(after, key) == Get(before, key)
  {
    if parsed.JObject? {
      var before := parsed.fields;
      var result := before[HasDocumentKey := JBool(hasDocument)];
      var target := Get(before, TargetLanguageKey);
      assert Get(result, TargetLanguageKey) == target;
      assert Get(result, NeedsClarificationKey) == Get(before, NeedsClarificationKey);
      assert Get(result, QuestionKey) == Get(before, QuestionKey);
      if !Unaccepted(target) {
        assert Validated(parsed, hasDocument) == Ok(result);
      } else if target.JString? {
        MapToSupportedLanguageShape(target.s);
        match MapToSupportedLanguage(target.s)
        case Some(mapped) =>
          assert Validated(parsed, hasDocument) == Ok(result[TargetLanguageKey := JString(mapped)]);
        case None =>
          assert Validated(parsed, hasDocument) ==
            Ok(result[TargetLanguageKey := JString(NeedsConfirmation)][NeedsClarificationKey := JBool(true)]
                     [QuestionKey := JString(ClarifyLanguageQuestion)]);
      }
    }
  }

  /** Validating a validated record again changes nothing. */
  lemma ValidatedIdempotent(parsed: Json, hasDocument: bool)
    requires Validated(parsed, hasDocument).Ok?
    ensures Validated(JObject(Validated(parsed, hasDocument).value), hasDocument) == Validated(parsed, hasDocument)
  {
    var after := Validated(parsed, hasDocument).value;
    ValidatedShape(parsed, hasDocument);
    assert after[HasDocumentKey := JBool(hasDocument)] == after;
  }

  /** How `_parse_llm_json_response` ends: a validated record, the fallback analysis, or an exception it lets escape. */
  datatype ParseOutcome = Parsed(record: map<string, Json>) | Fallback(intent: Intent) | Raised(exception: string)

  /**
   * `_parse_llm_json_response` after the JSON text is extracted and decoded:
   * `parsed` is None when decoding raised `JSONDecodeError`.
   */
  function ParseLlmJsonResponse(parsed: Option<Json>, userInput: string, hasDocument: bool, llmContent: string): ParseOutcome {
    match parsed
    case None => Fallback(FallbackAnalysis(userInput, hasDocument, llmContent))
    case Some(j) =>
      match Validated(j, hasDocument)
      case Ok(record) => Parsed(record)
      case Err(e) => Raised(e)
  }

  /**
   * Whatever the model replied, a reply that does not escape as an exception
   * carries the document flag as given and a target language that the
   * service accepts (or none at all).
   */
  lemma ParseOutcomeAccepted(parsed: Option<Json>, userInput: string, hasDocument: bool, llmContent: string)
    ensures match ParseLlmJsonResponse(parsed, userInput, hasDocument, llmContent)
      case Parsed(record) => Get(record, HasDocumentKey) == JBool(hasDocument) && !Unaccepted(Get(record, TargetLanguageKey))
      case Fallback(intent) => intent.hasDocument == hasDocument
                               && (intent.targetLanguage.Some? ==> intent.targetLanguage.value in AllowedTargets())
      case Raised(e) => parsed.Some? && (e == "TypeError" || e == "AttributeError")
  {
    match parsed
    case None => FallbackAnalysisCases(userInput, hasDocument, llmContent);
    case Some(j) => ValidatedShape(j, hasDocument);
  }
}
