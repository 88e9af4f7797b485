/** One quote card of the quote feed: its share text, the AI transformation
    request (a random preset style or the user's own prompt), how the
    card's state follows the answer, and the label above a transformed
    quote. */
module QuoteCard {
  import opened Outcomes
  import opened QuoteTypes
  import opened AiService
  import MusicCard

  /** A preset transformation style. */
  datatype Style = Style(id: string, name: string, prompt: string)

  const DefaultStyles: seq<Style> := [
    Style("shakespeare", "Shakespeare", "Transform this quote as if written by Shakespeare"),
    Style("yoda", "Yoda", "Transform this quote in Yoda's speaking style"),
    Style("pirate", "Pirate", "Transform this quote as a pirate would say it"),
    Style("haiku", "Haiku", "Transform this quote into a haiku"),
    Style("proverb", "Ancient Proverb", "Transform this quote into an ancient proverb style")
  ]

  const RequestHead: string := "Transform this quote: \""
  const RequestTail: string := ". Keep the response concise and similar in length to the original quote. Do not use quotation marks in the response."
  const StyleLabelHead: string := "Transformed in the style of "
  const PromptLabelHead: string := "Transformed with prompt: \""

  /** The full prompt sent to the AI service for a user prompt. */
  function TransformRequest(q: Quote, prompt: string): string {
    RequestHead + q.content + "\" by " + q.author + ". " + prompt + RequestTail
  }

  /** The request opens with the fixed head and the quote's content, closes
      with the fixed instructions, and carries the prompt just before them;
      so two different prompts for one quote give two different requests. */
  lemma TransformRequestSpec(q: Quote, prompt: string)
    ensures var r := TransformRequest(q, prompt);
      |r| == |RequestHead| + |q.content| + |q.author| + |prompt| + |RequestTail| + 7
      && r[..|RequestHead|] == RequestHead
      && r[|RequestHead|..|RequestHead| + |q.content|] == q.content
      && r[|r| - |RequestTail|..] == RequestTail
      && r[|r| - |RequestTail| - |prompt|..|r| - |RequestTail|] == prompt
  {
    JoinedParts(RequestHead, q.content, "\" by ", q.author, ". ", prompt, RequestTail);
  }

  /** Where the second, sixth and last of seven joined texts sit. */
  lemma JoinedParts(h: string, c: string, s1: string, a: string, s2: string, p: string, t: string)
    ensures var r := h + c + s1 + a + s2 + p + t;
      |r| == |h| + |c| + |s1| + |a| + |s2| + |p| + |t|
      && r[..|h|] == h
      && r[|h|..|h| + |c|] == c
      && r[|r| - |t|..] == t
      && r[|r| - |t| - |p|..|r| - |t|] == p
  {
    var r := h + c + s1 + a + s2 + p + t;
    var front := h + c + s1 + a + s2;
    assert r == (front + p) + t;
    assert r[..|h|] == h;
    assert r[|h|..|h| + |c|] == c;
    assert (front + p)[|front|..] == p;
  }

  lemma TransformRequestInjective(q: Quote, p1: string, p2: string)
    requires TransformRequest(q, p1) == TransformRequest(q, p2)
    ensures p1 == p2
  {
    TransformRequestSpec(q, p1);
    TransformRequestSpec(q, p2);
  }

  /** The text shared for the quote itself: the content in double quotes,
      a dash and the author. */
  function ShareText(q: Quote): string {
    "\"" + q.content + "\" - " + q.author
  }

  /** Content and author can be read back from the share text. */
  lemma ShareTextReadsBack(q: Quote)
    ensures var t := ShareText(q);
      |t| == |q.content| + |q.author| + 5
      && t[1..1 + |q.content|] == q.content
      && t[|t| - |q.author|..] == q.author
  {
  }

  /** The card's own state. */
  datatype CardState = CardState(
    copied: bool,
    transformedCopied: bool,
    isExpanded: bool,
    transformPrompt: string,
    isLoading: bool,
    error: Option<string>,
    showTransform: bool,
    currentStyle: string,
    lastUsedPrompt: string,
    transformedText: string)

  const Initial: CardState := CardState(false, false, false, "", false, None, true, "", "", "")

  /** The call `onTransformSuccess(quoteId, text)`. */
  datatype Notice = Notice(quoteId: string, text: string)

  /** The state after a transformation finished, and the success call made. */
  datatype Transformed = Transformed(state: CardState, notice: Option<Notice>)

  /** The synchronous start of `handleTransform`. */
  function Started(s: CardState): CardState {
    s.(isLoading := true, error := None)
  }

  /** The rest of `handleTransform` once the service answered: an error that
      is present and not empty is shown; otherwise the text is kept and
      reported, the prompt remembered and the card expanded. Loading ends
      either way. */
  function Finished(s: CardState, q: Quote, prompt: string, response: AiResponse): Transformed {
    if Truthy(response.error) then
      Transformed(s.(error := response.error, isLoading := false), None)
    else
      Transformed(s.(transformedText := response.text, lastUsedPrompt := prompt, isExpanded := true, isLoading := false),
                  Some(Notice(q.id, response.text)))
  }

  /** A whole transformation started from `s`. */
  function Transform(s: CardState, q: Quote, prompt: string, response: AiResponse): Transformed {
    Finished(Started(s), q, prompt, response)
  }

  /** Loading is over afterwards. An error leaves the transformed text and
      the last prompt as they were and reports nothing; a success clears
      the error, keeps the text and the prompt, expands the card and
      reports the text for this quote. Nothing else changes. */
  lemma TransformSpec(s: CardState, q: Quote, prompt: string, response: AiResponse)
    ensures var t := Transform(s, q, prompt, response);
      !t.state.isLoading
      && (t.notice.None? <==> Truthy(response.error))
      && (Truthy(response.error) ==>
            t.state.error == response.error && t.state.transformedText == s.transformedText
            && t.state.lastUsedPrompt == s.lastUsedPrompt && t.state.isExpanded == s.isExpanded)
      && (!Truthy(response.error) ==>
            t.state.error.None? && t.state.transformedText == response.text && t.state.lastUsedPrompt == prompt
            && t.state.isExpanded && t.notice == Some(Notice(q.id, response.text)))
      && t.state.copied == s.copied && t.state.transformedCopied == s.transformedCopied
      && t.state.transformPrompt == s.transformPrompt && t.state.showTransform == s.showTransform
      && t.state.currentStyle == s.currentStyle
  {
  }

  /** Against the AI service: the quote is reported as transformed exactly
      when one of the service's attempts succeeded, and then with the text
      the service returned; otherwise the service's error is shown. */
  lemma TransformWithService(s: CardState, q: Quote, prompt: string, apiKey: string, replies: nat -> AiReply)
    ensures var response := ResponseOutcome(apiKey, replies);
      var t := Transform(s, q, prompt, response);
      (t.notice.Some? <==> exists i :: 0 <= i < MaxAttempts && AttemptResult(apiKey, replies(i)).Ok?)
      && (t.notice.Some? ==> t.state.transformedText == response.text)
      && (t.notice.None? ==> t.state.error == response.error && t.state.error.Some?)
  {
    var response := ResponseOutcome(apiKey, replies);
    ResponseOutcomeSpec(apiKey, replies);
    if response.error.Some? {
      assert response.error.value == FinalError(Some(AttemptResult(apiKey, replies(MaxAttempts - 1)).error));
      assert Truthy(response.error);
    }
  }

  /** The magic-wand button with the style `DefaultStyles[pick]` drawn: the
      card opens, the style is shown as current, and its prompt is sent. */
  function StyleTransformed(s: CardState, q: Quote, pick: nat, response: AiResponse): Transformed
    requires pick < |DefaultStyles|
  {
    Transform(s.(isExpanded := true, currentStyle := DefaultStyles[pick].name), q, DefaultStyles[pick].prompt, response)
  }

  /** The custom prompt is submitted (Enter or the send button): an empty
      prompt does nothing; otherwise it is sent and the input and the
      current style are cleared. */
  function PromptSubmitted(s: CardState, q: Quote, response: AiResponse): Transformed {
    if s.transformPrompt == "" then Transformed(s, None)
    else Finished(Started(s).(currentStyle := "", transformPrompt := ""), q, s.transformPrompt, response)
  }

  /** Clearing the input and the style before or after a transformation
      comes to the same. */
  lemma ClearedAfterTransform(s: CardState, q: Quote, prompt: string, response: AiResponse)
    ensures var t := Transform(s, q, prompt, response);
      Finished(Started(s).(currentStyle := "", transformPrompt := ""), q, prompt, response)
      == Transformed(t.state.(currentStyle := "", transformPrompt := ""), t.notice)
  {
  }

  /** An empty prompt changes nothing; any other is sent as is, and the
      input and style are cleared whatever the answer. */
  lemma PromptSubmittedSpec(s: CardState, q: Quote, response: AiResponse)
    ensures s.transformPrompt == "" ==> PromptSubmitted(s, q, response) == Transformed(s, None)
    ensures s.transformPrompt != "" ==>
      var t := PromptSubmitted(s, q, response);
      t.state.transformPrompt == "" && t.state.currentStyle == "" && !t.state.isLoading
      && (t.notice.Some? ==> t.state.lastUsedPrompt == s.transformPrompt && t.notice == Some(Notice(q.id, response.text)))
      && (t.notice.None? <==> Truthy(response.error))
  {
  }

  /** The caption above the transformed text, shown only while the card is
      open, the transformation is shown, and both a text and a prompt
      exist. */
  function Label(s: CardState): Option<string> {
    if s.isExpanded && s.showTransform && s.transformedText != "" && s.lastUsedPrompt != "" then
      Some(if s.currentStyle != "" then StyleLabelHead + s.currentStyle + ":"
           else PromptLabelHead + s.lastUsedPrompt + "\"")
    else None
  }

  /** After a successful transformation the caption names what produced
      it: the style for the wand button, the prompt for a custom one. */
  lemma LabelNamesSource(s: CardState, q: Quote, pick: nat, response: AiResponse)
    requires pick < |DefaultStyles| && s.showTransform && response.text != "" && !Truthy(response.error)
    ensures Label(StyleTransformed(s, q, pick, response).state) == Some(StyleLabelHead + DefaultStyles[pick].name + ":")
    ensures s.transformPrompt != "" ==>
      Label(PromptSubmitted(s, q, response).state) == Some(PromptLabelHead + s.transformPrompt + "\"")
  {
  }

  /** The style is set before the answer comes: when the wand button's
      request fails after a custom prompt had succeeded, the caption names
      the new style above the text that the custom prompt produced. */
  lemma FailedStyleRelabels(s: CardState, q: Quote, pick: nat, response: AiResponse)
    requires pick < |DefaultStyles| && Truthy(response.error)
    requires Label(s) == Some(PromptLabelHead + s.lastUsedPrompt + "\"")
    ensures var t := StyleTransformed(s, q, pick, response).state;
      t.transformedText == s.transformedText && t.lastUsedPrompt == s.lastUsedPrompt
      && Label(t) == Some(StyleLabelHead + DefaultStyles[pick].name + ":")
  {
  }

  /** `QuoteCard`'s state for one quote. */
  class Card {
    const quote: Quote
    var copied: bool
    var transformedCopied: bool
    var isExpanded: bool
    var transformPrompt: string
    var isLoading: bool
    var error: Option<string>
    var showTransform: bool
    var currentStyle: string
    var lastUsedPrompt: string
    var transformedText: string

    function State(): CardState
      reads this
    {
      CardState(copied, transformedCopied, isExpanded, transformPrompt, isLoading, error,
                showTransform, currentStyle, lastUsedPrompt, transformedText)
    }

    constructor (quote: Quote)
      ensures this.quote == quote && State() == Initial
    {
      this.quote := quote;
      copied, transformedCopied, isExpanded, transformPrompt, isLoading := false, false, false, "", false;
      error, showTransform, currentStyle, lastUsedPrompt, transformedText := None, true, "", "", "";
    }

    /** `handleTransform(prompt)`: the request goes to the AI service, whose
        n-th call receives `replies(n)`; `notice` is the call made to
        `onTransformSuccess`, if any. */
    method HandleTransform(prompt: string, apiKey: string, replies: nat -> AiReply) returns (notice: Option<Notice>)
      modifies this
      ensures Transformed(State(), notice) == Transform(old(State()), quote, prompt, ResponseOutcome(apiKey, replies))
    {
      isLoading := true;
      error := None;
      ghost var started := State();
      assert started == Started(old(State()));
      var response := Respond(TransformRequest(quote, prompt), apiKey, replies);
      assert State() == started;
      if Truthy(response.error) {
        error := response.error;
        notice := None;
      } else {
        transformedText := response.text;
        notice := Some(Notice(quote.id, response.text));
        lastUsedPrompt := prompt;
        isExpanded := true;
      }
      isLoading := false;
    }

    /** The answer of the AI service, without the record of its requests
        and pauses. */
    static method Respond(request: string, apiKey: string, replies: nat -> AiReply) returns (response: AiResponse)
      ensures response == ResponseOutcome(apiKey, replies)
    {
      var sent, waits;
      response, sent, waits := GenerateAIResponse(request, apiKey, replies);
    }

    /** The magic-wand button; `pick` stands for the random draw. */
    method TransformWithStyle(pick: nat, apiKey: string, replies: nat -> AiReply) returns (notice: Option<Notice>)
      requires pick < |DefaultStyles|
      modifies this
      ensures Transformed(State(), notice) == StyleTransformed(old(State()), quote, pick, ResponseOutcome(apiKey, replies))
    {
      isExpanded := true;
      currentStyle := DefaultStyles[pick].name;
      notice := HandleTransform(DefaultStyles[pick].prompt, apiKey, replies);
    }

    /** Typing in the prompt input. */
    method SetPrompt(text: string)
      modifies this
      ensures State() == old(State()).(transformPrompt := text)
    {
      transformPrompt := text;
    }

    /** Enter in the prompt input, or the send button. */
    method SubmitPrompt(apiKey: string, replies: nat -> AiReply) returns (notice: Option<Notice>)
      modifies this
      ensures Transformed(State(), notice) == PromptSubmitted(old(State()), quote, ResponseOutcome(apiKey, replies))
    {
      if transformPrompt == "" {
        return None;
      }
      var prompt := transformPrompt;
      ClearedAfterTransform(State(), quote, prompt, ResponseOutcome(apiKey, replies));
      notice := HandleTransform(prompt, apiKey, replies);
      currentStyle := "";
      transformPrompt := "";
    }

    /** The chevron that hides or shows the transformation. */
    method ToggleShowTransform()
      modifies this
      ensures State() == old(State()).(showTransform := !old(showTransform))
    {
      showTransform := !showTransform;
    }

    /** The share button of the quote: `text` is what is shared. */
    method HandleShare(hasShareSheet: bool, width: int, shareSucceeds: bool, clipboard: nat -> bool)
      returns (text: string, result: MusicCard.ShareResult)
      modifies this
      ensures text == ShareText(quote)
      ensures result == MusicCard.Share(hasShareSheet, width, shareSucceeds, clipboard)
      ensures State() == old(State()).(copied := old(copied) || result.copied)
    {
      text := ShareText(quote);
      result := MusicCard.Share(hasShareSheet, width, shareSucceeds, clipboard);
      if result.copied {
        copied := true;
      }
    }

    /** The share button of the transformed text. */
    method HandleShareTransformed(hasShareSheet: bool, width: int, shareSucceeds: bool, clipboard: nat -> bool)
      returns (text: string, result: MusicCard.ShareResult)
      modifies this
      ensures text == transformedText
      ensures result == MusicCard.Share(hasShareSheet, width, shareSucceeds, clipboard)
      ensures State() == old(State()).(transformedCopied := old(transformedCopied) || result.copied)
    {
      text := transformedText;
      result := MusicCard.Share(hasShareSheet, width, shareSucceeds, clipboard);
      if result.copied {
        transformedCopied := true;
      }
    }
  }
}
