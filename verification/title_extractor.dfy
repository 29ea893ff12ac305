/**
 * `findTitleTag` of services/title_extractor.go: read an HTML token stream
 * until the text of the first `<title>` inside `<head>`, giving up at the
 * end of the stream or at `</head>`.
 *
 * The HTML tokenizer is outside the model: it is a fixed sequence of
 * tokens and a read position. After the last token it reports an error
 * token, again and again. The loop that skips to the title's text never
 * ends when no text token follows; the model reports that as `Diverges`.
 */
module TitleExtractor {
  import opened GoErrors

  /** The tokens `findTitleTag` tells apart (tag names lower-case, as the tokenizer gives them). */
  datatype Token =
    | Text(text: string)
    | StartTag(name: string)
    | EndTag(name: string)
    | OtherToken  // self-closing tag, comment, doctype

  /** What `findTitleTag` does: return a string, or loop for ever. */
  datatype Outcome = Title(title: string) | Diverges

  /** `html.Tokenizer` over a fixed token sequence. */
  class Tokenizer {
    const tokens: seq<Token>
    var pos: nat

    ghost predicate Valid()
      reads this
    {
      pos <= |tokens|
    }

    constructor (tokens: seq<Token>)
      ensures Valid() && this.tokens == tokens && pos == 0
    {
      this.tokens := tokens;
      pos := 0;
    }

    /** `z.Next()`: the next token, or `None` (the error token) once the stream is spent. */
    method Next() returns (t: Option<Token>)
      requires Valid()
      modifies this
      ensures Valid()
      ensures old(pos) < |tokens| ==> t == Some(tokens[old(pos)]) && pos == old(pos) + 1
      ensures old(pos) == |tokens| ==> t == None && pos == old(pos)
    {
      if pos < |tokens| {
        t := Some(tokens[pos]);
        pos := pos + 1;
      } else {
        t := None;
      }
    }
  }

  // ---- specification -------------------------------------------------------

  /** The outcome of reading `tokens` with the given head flag. */
  function Scan(tokens: seq<Token>, inHeader: bool): Outcome
  {
    if |tokens| == 0 then Title("")
    else match tokens[0]
      case StartTag(name) =>
        if name == "head" then Scan(tokens[1..], true)
        else if inHeader && name == "title" then Drain(tokens[1..])
        else Scan(tokens[1..], inHeader)
      case EndTag(name) =>
        if name == "head" then Title("") else Scan(tokens[1..], inHeader)
      case _ => Scan(tokens[1..], inHeader)
  }

  /** How many tokens that reading consumes. */
  function ScanLength(tokens: seq<Token>, inHeader: bool): (n: nat)
    ensures n <= |tokens|
  {
    if |tokens| == 0 then 0
    else match tokens[0]
      case StartTag(name) =>
        if name == "head" then 1 + ScanLength(tokens[1..], true)
        else if inHeader && name == "title" then 1 + DrainLength(tokens[1..])
        else 1 + ScanLength(tokens[1..], inHeader)
      case EndTag(name) =>
        if name == "head" then 1 else 1 + ScanLength(tokens[1..], inHeader)
      case _ => 1 + ScanLength(tokens[1..], inHeader)
  }

  /** The text of the first text token, or divergence when there is none. */
  function Drain(tokens: seq<Token>): Outcome
  {
    if |tokens| == 0 then Diverges
    else if tokens[0].Text? then Title(tokens[0].text)
    else Drain(tokens[1..])
  }

  /** Tokens consumed by the drain: up to and including the first text token, or all. */
  function DrainLength(tokens: seq<Token>): (n: nat)
    ensures n <= |tokens|
  {
    if |tokens| == 0 then 0
    else if tokens[0].Text? then 1
    else 1 + DrainLength(tokens[1..])
  }

  // ---- the implementation --------------------------------------------------

  /** `findTitleTag`. */
  method FindTitleTag(z: Tokenizer) returns (outcome: Outcome)
    requires z.Valid()
    modifies z
    ensures z.Valid()
    ensures outcome == Scan(old(z.tokens[z.pos..]), false)
    ensures z.pos == old(z.pos) + ScanLength(old(z.tokens[z.pos..]), false)
  {
    var inHeader := false;
    ghost var start := z.pos;
    while true
      invariant z.Valid() && start <= z.pos
      invariant Scan(z.tokens[start..], false) == Scan(z.tokens[z.pos..], inHeader)
      invariant start + ScanLength(z.tokens[start..], false) == z.pos + ScanLength(z.tokens[z.pos..], inHeader)
      decreases |z.tokens| - z.pos
    {
      ghost var rest := z.tokens[z.pos..];
      var tt := z.Next();
      if tt.None? {
        return Title("");
      }
      assert rest[1..] == z.tokens[z.pos..];
      match tt.value {
        case StartTag(name) =>
          if name == "head" {
            inHeader := true;
            continue;
          }
          if inHeader && name == "title" {
            outcome := DrainToText(z);
            return;
          }
        case EndTag(name) =>
          if name == "head" {
            return Title("");
          }
        case _ =>
      }
    }
  }

  /** The inner loop: skip tokens up to the next text token and return its text. */
  method DrainToText(z: Tokenizer) returns (outcome: Outcome)
    requires z.Valid()
    modifies z
    ensures z.Valid()
    ensures outcome == Drain(old(z.tokens[z.pos..]))
    ensures z.pos == old(z.pos) + DrainLength(old(z.tokens[z.pos..]))
  {
    ghost var start := z.pos;
    var titleType := z.Next();
    while titleType.Some? && !titleType.value.Text?
      invariant z.Valid() && start <= z.pos
      invariant titleType.Some? ==> z.pos >= 1 && titleType.value == z.tokens[z.pos - 1]
      invariant titleType.Some? ==> Drain(z.tokens[start..]) == Drain(z.tokens[z.pos - 1..])
      invariant titleType.Some? ==>
        start + DrainLength(z.tokens[start..]) == z.pos - 1 + DrainLength(z.tokens[z.pos - 1..])
      invariant titleType.None? ==> Drain(z.tokens[start..]) == Diverges
      invariant titleType.None? ==> start + DrainLength(z.tokens[start..]) == z.pos == |z.tokens|
      decreases |z.tokens| - z.pos, titleType.Some?
    {
      ghost var rest := z.tokens[z.pos - 1..];
      assert rest[1..] == z.tokens[z.pos..];
      titleType := z.Next();
    }
    if titleType.None? {
      // the source keeps asking for the next token here, for ever
      return Diverges;
    }
    return Title(titleType.value.text);
  }

  // ---- properties ----------------------------------------------------------

  /** The empty page has no title. */
  lemma EmptyInput()
    ensures Scan([], false) == Title("")
  {
  }

  /** Tokens of `<html><body><h1>Hello, World!</h1></body></html>`: no head, no title. */
  lemma NoTitleTag()
    ensures Scan([StartTag("html"), StartTag("body"), StartTag("h1"), Text("Hello, World!"),
                  EndTag("h1"), EndTag("body"), EndTag("html")], false) == Title("")
  {
    var t := [StartTag("html"), StartTag("body"), StartTag("h1"), Text("Hello, World!"),
              EndTag("h1"), EndTag("body"), EndTag("html")];
    NoHeadNoTitle(t);
  }

  /** Tokens of a page whose head holds `<title>Page Title</title>`. */
  lemma ValidTitleTag()
    ensures Scan([StartTag("html"), StartTag("head"), StartTag("title"), Text("Page Title"),
                  EndTag("title"), EndTag("head"), StartTag("body"), StartTag("h1"),
                  Text("Hello, World!"), EndTag("h1"), EndTag("body"), EndTag("html")], false)
            == Title("Page Title")
  {
    var t := [StartTag("html"), StartTag("head"), StartTag("title"), Text("Page Title"),
              EndTag("title"), EndTag("head"), StartTag("body"), StartTag("h1"),
              Text("Hello, World!"), EndTag("h1"), EndTag("body"), EndTag("html")];
    assert t[1..][0] == StartTag("head");
    assert t[1..][1..][0] == StartTag("title");
    assert t[1..][1..][1..][0] == Text("Page Title");
  }

  /** Without a head start tag no title is ever found: the result is "". */
  lemma {:induction false} NoHeadNoTitle(tokens: seq<Token>)
    requires forall i :: 0 <= i < |tokens| ==> tokens[i] != StartTag("head")
    ensures Scan(tokens, false) == Title("")
    decreases |tokens|
  {
    if |tokens| > 0 {
      NoHeadNoTitle(tokens[1..]);
    }
  }

  /** A title start tag before any head start tag is skipped like any other tag. */
  lemma TitleBeforeHeadIgnored(rest: seq<Token>)
    ensures Scan([StartTag("title")] + rest, false) == Scan(rest, false)
  {
    assert ([StartTag("title")] + rest)[1..] == rest;
  }

  /** A head end tag before any title ends the search with "". */
  lemma HeadEndStops(rest: seq<Token>, inHeader: bool)
    ensures Scan([EndTag("head")] + rest, inHeader) == Title("")
  {
  }

  /**
   * Inside the head, a title start tag yields the text of the next text
   * token, whatever non-text tokens come between.
   */
  lemma {:induction false} TitleIsNextText(skipped: seq<Token>, text: string, rest: seq<Token>)
    requires forall i :: 0 <= i < |skipped| ==> !skipped[i].Text?
    ensures Scan([StartTag("title")] + skipped + [Text(text)] + rest, true) == Title(text)
    decreases |skipped|
  {
    var t := [StartTag("title")] + skipped + [Text(text)] + rest;
    assert t[1..] == skipped + [Text(text)] + rest;
    DrainFindsText(skipped, text, rest);
  }

  /** The drain returns the first text token's text. */
  lemma {:induction false} DrainFindsText(skipped: seq<Token>, text: string, rest: seq<Token>)
    requires forall i :: 0 <= i < |skipped| ==> !skipped[i].Text?
    ensures Drain(skipped + [Text(text)] + rest) == Title(text)
    decreases |skipped|
  {
    if |skipped| > 0 {
      assert (skipped + [Text(text)] + rest)[1..] == skipped[1..] + [Text(text)] + rest;
      DrainFindsText(skipped[1..], text, rest);
    }
  }

  /** The drain diverges exactly when no text token follows. */
  lemma {:induction false} DrainDiverges(tokens: seq<Token>)
    ensures Drain(tokens) == Diverges <==> forall i :: 0 <= i < |tokens| ==> !tokens[i].Text?
    decreases |tokens|
  {
    if |tokens| > 0 {
      DrainDiverges(tokens[1..]);
      assert forall i :: 1 <= i < |tokens| ==> tokens[i] == tokens[1..][i - 1];
    }
  }
}
