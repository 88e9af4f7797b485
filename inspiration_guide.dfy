/** The inspiration guide: the favourite quotes, offered as text to copy.
    Nothing is rendered for an empty list. */
module InspirationGuide {
  import opened QuoteTypes

  /** The text of one quote: its title, the content in double quotes on the
      next line, a dash and the author, then a blank line. */
  function Block(q: Quote): string {
    q.title + "\n\"" + q.content + "\"\n- " + q.author + "\n\n"
  }

  /** The copied text: the blocks of all quotes, in order, with nothing
      between them. */
  function GuideText(qs: seq<Quote>): string {
    if qs == [] then "" else Block(qs[0]) + GuideText(qs[1..])
  }

  /** The total length of the separate parts of the quotes. */
  function PartsLength(qs: seq<Quote>): nat {
    if qs == [] then 0 else |qs[0].title| + |qs[0].content| + |qs[0].author| + PartsLength(qs[1..])
  }

  /** A block is its three parts plus eight characters of punctuation and
      line breaks, and it starts with the title and ends with a blank line. */
  lemma BlockShape(q: Quote)
    ensures |Block(q)| == |q.title| + |q.content| + |q.author| + 8
    ensures Block(q)[..|q.title|] == q.title
    ensures Block(q)[|q.title| + 2..|q.title| + 2 + |q.content|] == q.content
    ensures Block(q)[|Block(q)| - |q.author| - 2..] == q.author + "\n\n"
  {
  }

  /** The text of two lists one after the other is the two texts joined. */
  lemma {:induction false} GuideTextAppend(a: seq<Quote>, b: seq<Quote>)
    ensures GuideText(a + b) == GuideText(a) + GuideText(b)
  {
    if a == [] {
      assert a + b == b;
    } else {
      assert (a + b)[0] == a[0];
      assert (a + b)[1..] == a[1..] + b;
      GuideTextAppend(a[1..], b);
      calc {
        GuideText(a + b);
        Block(a[0]) + GuideText(a[1..] + b);
        Block(a[0]) + (GuideText(a[1..]) + GuideText(b));
        GuideText(a) + GuideText(b);
      }
    }
  }

  /** The text is as long as the parts plus eight characters per quote. */
  lemma {:induction false} GuideTextLength(qs: seq<Quote>)
    ensures |GuideText(qs)| == PartsLength(qs) + 8 * |qs|
  {
    if qs != [] {
      BlockShape(qs[0]);
      GuideTextLength(qs[1..]);
    }
  }

  /** Each quote's block appears in place: after the blocks of the quotes
      before it and before those of the quotes after it. */
  lemma {:induction false} BlockAt(qs: seq<Quote>, i: nat)
    requires i < |qs|
    ensures GuideText(qs) == GuideText(qs[..i]) + Block(qs[i]) + GuideText(qs[i + 1..])
  {
    var tail := [qs[i]] + qs[i + 1..];
    assert qs == qs[..i] + tail;
    GuideTextAppend(qs[..i], tail);
    assert tail[0] == qs[i] && tail[1..] == qs[i + 1..];
    assert GuideText(tail) == Block(qs[i]) + GuideText(qs[i + 1..]);
  }

  /** The guide's state; `quotes` is the list it was given. */
  class Guide {
    const quotes: seq<Quote>
    var copied: bool

    constructor (quotes: seq<Quote>)
      ensures this.quotes == quotes && !copied
    {
      this.quotes := quotes;
      copied := false;
    }

    /** The guide renders anything at all only for a non-empty list. */
    predicate Rendered()
    {
      quotes != []
    }

    /** `handleCopyText`: `written` is the text sent to the clipboard, and
        the copied flag is set only when that write succeeds
        (`clipboardOk`); a failed write is only logged. */
    method HandleCopyText(clipboardOk: bool) returns (written: string)
      requires Rendered()
      modifies this
      ensures written == GuideText(quotes)
      ensures copied == (old(copied) || clipboardOk)
    {
      written := GuideText(quotes);
      if clipboardOk {
        copied := true;
      }
    }
  }
}
