/**
 * Token accounting (src/utils/tokenizer.py). The tokenizer library's encoding
 * is abstract: any pair of total functions between text and token lists.
 */
module Tokenizer {
  import opened Wrappers

  /** A model encoding: `encode` and `decode` of the tokenizer library. */
  datatype Encoding = Encoding(encode: string -> seq<int>, decode: seq<int> -> string)

  /** `count_tokens`: the number of tokens the encoding gives the text. */
  function CountTokens(enc: Encoding, text: string): nat {
    |enc.encode(text)|
  }

  /** Python's `tokens[:m]` for any integer `m`; a negative `m` drops that many tokens from the end. */
  function PyPrefix(tokens: seq<int>, m: int): (r: seq<int>)
    ensures |r| <= |tokens| && r == tokens[..|r|]
    ensures 0 <= m ==> |r| == if m < |tokens| then m else |tokens|
  {
    if m >= |tokens| then tokens
    else if m >= 0 then tokens[..m]
    else if -m < |tokens| then tokens[..|tokens| + m]
    else []
  }

  /**
   * What a token count is used for: a text fits a budget exactly when cutting
   * its tokens to that budget keeps all of them.
   */
  lemma CountTokensFitsBudget(enc: Encoding, text: string, budget: nat)
    ensures CountTokens(enc, text) <= budget <==> PyPrefix(enc.encode(text), budget) == enc.encode(text)
  {
  }

  /** `truncate_text`: the text itself when it fits, otherwise the decoding of its first `maxTokens` tokens. */
  function TruncateText(enc: Encoding, text: string, maxTokens: int): string {
    var tokens := enc.encode(text);
    if |tokens| <= maxTokens then text else enc.decode(PyPrefix(tokens, maxTokens))
  }

  /**
   * What `truncate_text` returns: the text unchanged when its encoding has at
   * most `maxTokens` tokens, otherwise the decoding of exactly the first
   * `maxTokens` tokens.
   */
  lemma TruncateTextCases(enc: Encoding, text: string, maxTokens: nat)
    ensures CountTokens(enc, text) <= maxTokens ==> TruncateText(enc, text, maxTokens) == text
    ensures CountTokens(enc, text) > maxTokens ==>
      exists prefix :: |prefix| == maxTokens && prefix == enc.encode(text)[..maxTokens]
                       && TruncateText(enc, text, maxTokens) == enc.decode(prefix)
  {
    if CountTokens(enc, text) > maxTokens {
      var prefix := enc.encode(text)[..maxTokens];
      assert TruncateText(enc, text, maxTokens) == enc.decode(prefix);
    }
  }

  /**
   * When re-encoding the decoded prefix gives that prefix back (the encoding
   * does not merge tokens across the cut), the truncated text fits the budget
   * and truncating it a second time changes nothing.
   */
  lemma TruncateFits(enc: Encoding, text: string, maxTokens: nat)
    requires CountTokens(enc, text) > maxTokens ==>
      enc.encode(enc.decode(enc.encode(text)[..maxTokens])) == enc.encode(text)[..maxTokens]
    ensures CountTokens(enc, TruncateText(enc, text, maxTokens)) <= maxTokens
    ensures TruncateText(enc, TruncateText(enc, text, maxTokens), maxTokens) == TruncateText(enc, text, maxTokens)
  {
  }

  /** The value of a dict message's entry: a string, or any other Python value. */
  datatype DictValue = StrValue(s: string) | OtherValue

  /** A chat message as `count_tokens_for_messages` distinguishes them. */
  datatype Message =
    | ObjectMessage(content: string, name: Option<string>)  // has a `content` attribute; `name` is None when absent
    | DictMessage(items: seq<(string, DictValue)>)            // a dict, in its iteration order
    | OtherMessage(repr: string)                              // anything else, by its `str(...)`

  /** The tokens one dict entry adds: its string value's tokens, plus 1 for the key "name". */
  function ItemTokens(enc: Encoding, item: (string, DictValue)): nat {
    match item.1
    case StrValue(s) => CountTokens(enc, s) + (if item.0 == "name" then 1 else 0)
    case OtherValue => 0
  }

  /** The tokens of a dict message's entries, in order. */
  function ItemsTokens(enc: Encoding, items: seq<(string, DictValue)>): nat
    decreases |items|
  {
    if items == [] then 0 else ItemsTokens(enc, items[..|items| - 1]) + ItemTokens(enc, items[|items| - 1])
  }

  /** The tokens one message adds: a fixed overhead of 4, plus what its kind contributes. */
  function MessageTokens(enc: Encoding, m: Message): nat {
    4 + match m
        case ObjectMessage(content, name) =>
          CountTokens(enc, content) + (if name.Some? && name.value != "" then 1 else 0)
        case DictMessage(items) => ItemsTokens(enc, items)
        case OtherMessage(repr) => CountTokens(enc, repr)
  }

  /** The tokens the messages add, without the conversation's overhead. */
  function MessagesTokens(enc: Encoding, messages: seq<Message>): nat
    decreases |messages|
  {
    if messages == [] then 0
    else MessagesTokens(enc, messages[..|messages| - 1]) + MessageTokens(enc, messages[|messages| - 1])
  }

  /** Each message costs at least its fixed overhead. */
  lemma {:induction false} MessagesOverhead(enc: Encoding, messages: seq<Message>)
    ensures MessagesTokens(enc, messages) >= 4 * |messages|
    decreases |messages|
  {
    if messages != [] {
      MessagesOverhead(enc, messages[..|messages| - 1]);
    }
  }

  /** Message costs add up: splitting a conversation does not change its total. */
  lemma {:induction false} MessagesTokensAppend(enc: Encoding, a: seq<Message>, b: seq<Message>)
    ensures MessagesTokens(enc, a + b) == MessagesTokens(enc, a) + MessagesTokens(enc, b)
    decreases |b|
  {
    if b == [] {
      assert a + b == a;
    } else {
      assert (a + b)[..|a + b| - 1] == a + b[..|b| - 1];
      MessagesTokensAppend(enc, a, b[..|b| - 1]);
    }
  }

  /**
   * `count_tokens_for_messages`: 4 per message plus what each contributes,
   * plus 2 for the conversation, so an empty list costs 2.
   */
  method CountTokensForMessages(enc: Encoding, messages: seq<Message>) returns (total: nat)
    ensures total == MessagesTokens(enc, messages) + 2
    ensures total >= 4 * |messages| + 2
    ensures messages == [] ==> total == 2
  {
    total := 0;
    var i := 0;
    while i < |messages|
      invariant 0 <= i <= |messages|
      invariant total == MessagesTokens(enc, messages[..i])
    {
      var message := messages[i];
      total := total + 4;
      match message {
        case ObjectMessage(content, name) =>
          total := total + CountTokens(enc, content);
          if name.Some? && name.value != "" {
            total := total + 1;
          }
        case DictMessage(items) =>
          var j := 0;
          while j < |items|
            invariant 0 <= j <= |items|
            invariant total == MessagesTokens(enc, messages[..i]) + 4 + ItemsTokens(enc, items[..j])
          {
            var (key, value) := items[j];
            if value.StrValue? {
              total := total + CountTokens(enc, value.s);
              if key == "name" {
                total := total + 1;
              }
            }
            assert items[..j + 1][..j] == items[..j];
            j := j + 1;
          }
          assert items[..|items|] == items;
        case OtherMessage(repr) =>
          total := total + CountTokens(enc, repr);
      }
      assert messages[..i + 1][..i] == messages[..i];
      i := i + 1;
    }
    assert messages[..|messages|] == messages;
    MessagesOverhead(enc, messages);
    total := total + 2;
  }
}
