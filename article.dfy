/** The page-building logic of conjure/article.py: the embeddable
    components and how they render, the split of a source file's lines
    around its markdown chunks, the assembly of the page content, and the
    table of contents. The markdown converter is a parameter `md`. */
module Article {

  import opened Outcomes
  import opened PyText

  // ---------------------------------------------------------------------
  // Components

  /** The four component classes (conjure/article.py:97-223); a URL given
      as a parsed result is held as its `geturl()` text. */
  datatype Component =
    | Image(src: string, height: int)
    | Citation(tag: string, author: string, url: string, header: string, year: string)
    | Audio(src: string, height: int, scale: int := 1, controls: bool := true, samples: int := 256)
    | Composite(parts: seq<Part>)

  /** What a composite holds: markdown text, or another component. */
  datatype Part = Prose(source: string) | Child(component: Component)

  const CannotConvert := "This component cannot be converted to markdown"

  /** `html()` of each component (conjure/article.py:116-119, 142-151,
      185-193). A composite joins its parts' renderings with newlines
      (conjure/article.py:212-220). */
  function Html(c: Component, md: string -> string): (r: string)
    ensures c.Composite? && c.parts == [] ==> r == ""
    ensures c.Composite? && c.parts != [] ==> PartHtml(c.parts[0], md) <= r
    ensures c.Composite? && |c.parts| == 1 ==> r == PartHtml(c.parts[0], md)
    decreases c, 1
  {
    match c
    case Image(src, _) => ImageHtml(src)
    case Citation(tag, author, url, header, year) => CitationHtml(tag, author, url, header, year)
    case Audio(src, height, scale, controls, samples) => AudioHtml(src, height, scale, controls, samples)
    case Composite(parts) =>
      var rendered := seq(|parts|, i requires 0 <= i < |parts| => PartHtml(parts[i], md));
      JoinFirst("\n", rendered);
      Join("\n", rendered)
  }

  /** One part of a composite: text goes through markdown, a component
      through `html()`. */
  function PartHtml(p: Part, md: string -> string): (r: string)
    ensures p.Prose? ==> r == md(p.source)
    ensures p.Child? ==> r == Html(p.component, md)
    decreases p, 0
  {
    match p
    case Prose(text) => md(text)
    case Child(c) => Html(c, md)
  }

  /** `r` begins with the opening text `open` and ends with `close`, and
      the two do not overlap. */
  predicate Encloses(r: string, open: string, close: string) {
    |open| + |close| <= |r| && r[..|open|] == open && r[|r| - |close|..] == close
  }

  /** The text `open`, then `mid`, then `close`. */
  function Enclosed(open: string, mid: string, close: string): (r: string)
    ensures Encloses(r, open, close)
    ensures |r| == |open| + |mid| + |close|
  {
    var r := open + mid + close;
    assert r[..|open|] == open;
    assert r[|r| - |close|..] == close;
    r
  }

  /** The image tag, as its f-string builds it. */
  function ImageHtml(src: string): (r: string)
    ensures Encloses(r, ImageOpen(src), ImageClose)
  {
    Enclosed(ImageOpen(src), ">", ImageClose)
  }

  function ImageOpen(src: string): string {
    "\n        <img src=\"" + src + "\""
  }

  const ImageClose := "</img>\n        "

  /** The citation block, as its f-string builds it. */
  function CitationHtml(tag: string, author: string, url: string, header: string, year: string): (r: string)
    ensures Encloses(r, CitationOpen(tag), CitationClose)
  {
    Enclosed(CitationOpen(tag),
             "\n            author=\"" + author
             + "\"\n            url=\"" + url
             + "\"\n            header=\"" + header
             + "\"\n            year=\"" + year
             + "\">\n        ",
             CitationClose)
  }

  function CitationOpen(tag: string): string {
    "\n        <citation-block\n            tag=\"" + tag + "\""
  }

  const CitationClose := "</citation-block>\n        "

  /** The audio view, as its f-string builds it: the word `controls` fills
      the slot after the attributes when `controls` is set. */
  function AudioHtml(src: string, height: int, scale: int, controls: bool, samples: int): (r: string)
    ensures Encloses(r, AudioOpen(src), AudioClose)
  {
    Enclosed(AudioOpen(src), AudioAttributes(height, scale, samples) + AudioSlot(controls) + "\n        ", AudioClose)
  }

  function AudioSlot(controls: bool): string {
    if controls then "controls" else ""
  }

  function AudioOpen(src: string): string {
    "\n        <audio-view\n            src=\"" + src + "\""
  }

  function AudioAttributes(height: int, scale: int, samples: int): string {
    "\n            height=\"" + IntToString(height)
    + "\"\n            samples=\"" + IntToString(samples)
    + "\"\n            scale=\"" + IntToString(scale)
    + "\"\n            "
  }

  const AudioClose := "></audio-view>"

  /** `markdown()`: no component converts to markdown. */
  function Markdown(c: Component): (r: Result<string>)
    ensures r == Err(NotImplementedError(CannotConvert))
  {
    Err(NotImplementedError(CannotConvert))
  }

  /** `render(target)`, the same for all four classes: it succeeds exactly
      for `html`, with the component's html; for `markdown` it raises
      `NotImplementedError`; every other target raises `ValueError`. */
  function Render(c: Component, target: string, md: string -> string): (r: Result<string>)
    ensures r.Ok? <==> target == "html"
    ensures r.Ok? ==> r.value == Html(c, md)
    ensures target == "markdown" ==> r == Err(NotImplementedError(CannotConvert))
    ensures target != "html" && target != "markdown" ==> r.Err? && r.error.ValueError?
  {
    if target == "html" then Ok(Html(c, md))
    else if target == "markdown" then Markdown(c)
    else Err(ValueError("Unknown render type \"" + target + "\""))
  }

  /** `big` is `small` with `word` inserted somewhere. */
  ghost predicate InsertedAt(big: string, small: string, word: string) {
    exists k :: 0 <= k <= |small| && big == small[..k] + word + small[k..]
  }

  /** The html of an audio view with controls is the one without, with the
      word `controls` in the attribute slot, and nothing else differs. */
  lemma AudioControls(src: string, height: int, scale: int, samples: int, md: string -> string)
    ensures InsertedAt(Html(Audio(src, height, scale, true, samples), md),
                       Html(Audio(src, height, scale, false, samples), md), "controls")
  {
    var open, attributes := AudioOpen(src), AudioAttributes(height, scale, samples);
    var nl := "\n        ";
    SlotRegroup(open, attributes, AudioSlot(true), nl, AudioClose);
    SlotRegroup(open, attributes, AudioSlot(false), nl, AudioClose);
    assert AudioSlot(false) == [];
    InsertedBetween(open + attributes, "controls", nl + AudioClose);
  }

  /** Text enclosed around a slot is the text before the slot, the slot,
      then the text after it. */
  lemma SlotRegroup(open: string, before: string, slot: string, after: string, close: string)
    ensures Enclosed(open, before + slot + after, close) == (open + before) + slot + (after + close)
  {}

  lemma InsertedBetween(head: string, word: string, tail: string)
    ensures InsertedAt(head + word + tail, head + [] + tail, word)
  {
    var small := head + [] + tail;
    assert small[..|head|] == head && small[|head|..] == tail;
  }

  /** A composite's html is the newline-join of its parts' renderings, so
      the html of two composites put together is theirs joined by one
      newline. */
  lemma CompositeAppend(ps: seq<Part>, qs: seq<Part>, md: string -> string)
    requires ps != [] && qs != []
    ensures Html(Composite(ps + qs), md) == Html(Composite(ps), md) + "\n" + Html(Composite(qs), md)
  {
    var a := seq(|ps|, i requires 0 <= i < |ps| => PartHtml(ps[i], md));
    var b := seq(|qs|, i requires 0 <= i < |qs| => PartHtml(qs[i], md));
    var ab := seq(|ps + qs|, i requires 0 <= i < |ps + qs| => PartHtml((ps + qs)[i], md));
    assert ab == a + b;
    JoinAppend("\n", a, b);
  }

  // ---------------------------------------------------------------------
  // classify_chunks

  datatype ChunkType = Code | MarkdownChunk

  /** A chunk `chunk_article` found: its rendered markup and the lines
      it spans, as the tokenizer numbers them (from 1). */
  datatype Chunk = Chunk(markup: string, start: nat, end: nat)

  datatype Item = Item(kind: ChunkType, content: string)

  /** The items the loop of `classify_chunks` yields for the remaining
      `chunks` once `current` lines are consumed: the source lines before a
      chunk (when it starts past `current`), the chunk's markup, and after
      the last chunk the rest of the file. */
  function Gap(lines: seq<string>, current: nat, start: nat): seq<Item> {
    if start > current then [CodeLines(lines, current, start - 1)] else []
  }

  /** A code item: `'\n'.join(lines[a:b])`. */
  function CodeLines(lines: seq<string>, a: nat, b: nat): Item {
    Item(Code, Join("\n", Slice(lines, a, b)))
  }

  function Segments(lines: seq<string>, chunks: seq<Chunk>, current: nat): (r: seq<Item>)
    ensures |chunks| + 1 <= |r| <= 2 * |chunks| + 1
    decreases |chunks|
  {
    if chunks == [] then [CodeLines(lines, current, |lines|)]
    else
      Gap(lines, current, chunks[0].start) + [Item(MarkdownChunk, chunks[0].markup)]
      + Segments(lines, chunks[1..], chunks[0].end)
  }

  /** `classify_chunks` (conjure/article.py:248-265) on the file's lines
      and its chunks. */
  method ClassifyChunks(lines: seq<string>, chunks: seq<Chunk>) returns (items: seq<Item>)
    ensures items == Segments(lines, chunks, 0)
  {
    var current: nat := 0;
    items := [];
    for i := 0 to |chunks|
      invariant items + Segments(lines, chunks[i..], current) == Segments(lines, chunks, 0)
    {
      var c := chunks[i];
      SegmentsStep(lines, chunks, i, current);
      ghost var before := items;
      ghost var gap := Gap(lines, current, c.start);
      if c.start > current {
        items := items + [CodeLines(lines, current, c.start - 1)];
        current := c.start;
      }
      assert items == before + gap;
      items := items + [Item(MarkdownChunk, c.markup)];
      current := c.end;
      Regroup(before, gap, [Item(MarkdownChunk, c.markup)], Segments(lines, chunks[i + 1..], c.end));
    }
    assert chunks[|chunks|..] == [];
    items := items + [CodeLines(lines, current, |lines|)];
  }

  /** One turn of the loop: the segments from chunk `i` on. */
  lemma SegmentsStep(lines: seq<string>, chunks: seq<Chunk>, i: nat, current: nat)
    requires i < |chunks|
    ensures Segments(lines, chunks[i..], current)
            == Gap(lines, current, chunks[i].start) + [Item(MarkdownChunk, chunks[i].markup)]
               + Segments(lines, chunks[i + 1..], chunks[i].end)
  {
    assert chunks[i..][0] == chunks[i];
    assert chunks[i..][1..] == chunks[i + 1..];
  }

  /** The contents of the markdown items, in order. */
  function MarkdownContents(items: seq<Item>): seq<string> {
    if items == [] then []
    else (if items[0].kind == MarkdownChunk then [items[0].content] else []) + MarkdownContents(items[1..])
  }

  lemma {:induction false} MarkdownContentsAppend(a: seq<Item>, b: seq<Item>)
    ensures MarkdownContents(a + b) == MarkdownContents(a) + MarkdownContents(b)
  {
    if a == [] {
      assert a + b == b;
    } else {
      assert (a + b)[0] == a[0];
      assert (a + b)[1..] == a[1..] + b;
      MarkdownContentsAppend(a[1..], b);
    }
  }

  function Markups(chunks: seq<Chunk>): (r: seq<string>)
    ensures |r| == |chunks|
  {
    if chunks == [] then [] else [chunks[0].markup] + Markups(chunks[1..])
  }

  /** Exactly one markdown item per chunk, in chunk order, holding the
      chunk's markup. */
  lemma {:induction false} OneMarkdownPerChunk(lines: seq<string>, chunks: seq<Chunk>, current: nat)
    ensures MarkdownContents(Segments(lines, chunks, current)) == Markups(chunks)
    decreases |chunks|
  {
    if chunks == [] {
      var r := Segments(lines, chunks, current);
      assert MarkdownContents(r[1..]) == [];
    } else {
      var c := chunks[0];
      var before := Gap(lines, current, c.start);
      var rest := Segments(lines, chunks[1..], c.end);
      MarkdownContentsAppend(before + [Item(MarkdownChunk, c.markup)], rest);
      MarkdownContentsAppend(before, [Item(MarkdownChunk, c.markup)]);
      assert MarkdownContents(before) == [];
      assert MarkdownContents([Item(MarkdownChunk, c.markup)]) == [c.markup];
      OneMarkdownPerChunk(lines, chunks[1..], c.end);
    }
  }

  /** The line the last chunk ends on, `current` when there is none. */
  function LastEnd(chunks: seq<Chunk>, current: nat): nat {
    if chunks == [] then current else chunks[|chunks| - 1].end
  }

  /** The last item is always code: the file's lines from where the last
      chunk ends. */
  lemma {:induction false} LastItemIsRest(lines: seq<string>, chunks: seq<Chunk>, current: nat)
    ensures var r := Segments(lines, chunks, current);
            r[|r| - 1] == Item(Code, Join("\n", Slice(lines, LastEnd(chunks, current), |lines|)))
    decreases |chunks|
  {
    if chunks != [] {
      LastItemIsRest(lines, chunks[1..], chunks[0].end);
      if |chunks| > 1 {
        assert chunks[1..][|chunks| - 2] == chunks[|chunks| - 1];
      }
    }
  }

  /** The code before a chunk appears exactly when the chunk starts past
      the current line, and it is the lines from there up to the chunk's
      start, less one. */
  lemma CodeBeforeChunk(lines: seq<string>, chunks: seq<Chunk>, current: nat)
    requires chunks != []
    ensures var r := Segments(lines, chunks, current);
            var c := chunks[0];
            if c.start > current then
              r[0] == Item(Code, Join("\n", Slice(lines, current, c.start - 1))) && r[1] == Item(MarkdownChunk, c.markup)
            else
              r[0] == Item(MarkdownChunk, c.markup)
  {}

  // ---------------------------------------------------------------------
  // conjure_article: the page content

  /** What one item adds to the page (conjure/article.py:331-336): its
      stripped text, in a code block for code, between newlines for
      markdown; blank code adds nothing, markdown always adds a line. */
  const CodeOpen := "\n<code-block language=\"python\">"
  const CodeClose := "</code-block>\n"

  function Piece(item: Item): (r: string)
    ensures r == [] <==> item.kind == Code && AllSpace(item.content)
    ensures item.kind == MarkdownChunk ==> |r| == |Strip(item.content)| + 2
  {
    var text := Strip(item.content);
    match item.kind
    case Code =>
      if |text| > 0 then CodeOpen + text + CodeClose else ""
    case MarkdownChunk =>
      "\n" + text + "\n"
  }

  /** The content string the loop builds: the pieces in item order. */
  function Assemble(items: seq<Item>): string {
    Concat(Piece, items)
  }

  /** The content-building loop of `conjure_article`
      (conjure/article.py:326-336). */
  method AssembleContent(items: seq<Item>) returns (content: string)
    ensures content == Assemble(items)
  {
    content := "";
    for i := 0 to |items|
      invariant content == Assemble(items[..i])
    {
      ghost var before := content;
      var text := Strip(items[i].content);
      if items[i].kind == Code && |text| > 0 {
        content := content + (CodeOpen + text + CodeClose);
      } else if items[i].kind == MarkdownChunk {
        content := content + ("\n" + text + "\n");
      }
      assert content == before + Piece(items[i]);
      ConcatSnoc(Piece, items, i);
    }
    assert items[..|items|] == items;
  }

  /** Every item's piece sits in the content, in item order: in particular
      the text of every markdown item, between newlines. */
  lemma AssembleSplit(items: seq<Item>, i: nat)
    requires i < |items|
    ensures Assemble(items) == Assemble(items[..i]) + Piece(items[i]) + Assemble(items[i + 1..])
    ensures items[i].kind == MarkdownChunk ==>
              Piece(items[i]) == "\n" + Strip(items[i].content) + "\n"
  {
    ConcatSplit(Piece, items, i);
  }

  /** Dropping blank code items leaves the content unchanged. */
  function DropBlankCode(items: seq<Item>): (r: seq<Item>)
    ensures |r| <= |items|
  {
    if items == [] then []
    else if items[0].kind == Code && AllSpace(items[0].content) then DropBlankCode(items[1..])
    else [items[0]] + DropBlankCode(items[1..])
  }

  lemma {:induction false} BlankCodeAddsNothing(items: seq<Item>)
    ensures Assemble(DropBlankCode(items)) == Assemble(items)
  {
    if items != [] {
      BlankCodeAddsNothing(items[1..]);
      if !(items[0].kind == Code && AllSpace(items[0].content)) {
        assert ([items[0]] + DropBlankCode(items[1..]))[1..] == DropBlankCode(items[1..]);
      }
    }
  }

  // ---------------------------------------------------------------------
  // generate_table_of_contents: the entry filter

  /** A heading the header pattern matched: the anchor id, the digit of its
      `h` tag, and its title. */
  datatype Heading = Heading(id: string, level: nat, title: string)

  /** `int(tag[-1:]) - 1`. */
  function Indent(h: Heading): int {
    h.level - 1
  }

  /** The entry line for a heading (conjure/article.py:311). */
  function Entry(h: Heading): (r: string)
    ensures var n := if h.level > 0 then h.level - 1 else 0;
            && n + 3 < |r| && (forall i :: 0 <= i < n ==> r[i] == '\t') && r[n..n + 3] == " - "
            && r[|r| - 1] == '\n'
  {
    Tabs(Indent(h)) + " - [" + h.title + "](#" + h.id + ")\n"
  }

  /** The headings the loop keeps: those indented at most `maxDepth`. */
  function Kept(headings: seq<Heading>, maxDepth: int): (r: seq<Heading>)
    ensures |r| <= |headings|
    ensures forall h :: h in r <==> h in headings && Indent(h) <= maxDepth
  {
    if headings == [] then []
    else if Indent(headings[0]) > maxDepth then Kept(headings[1..], maxDepth)
    else [headings[0]] + Kept(headings[1..], maxDepth)
  }

  /** A deeper limit never keeps fewer entries. */
  lemma {:induction false} KeptGrowsWithDepth(headings: seq<Heading>, d1: int, d2: int)
    requires d1 <= d2
    ensures |Kept(headings, d1)| <= |Kept(headings, d2)|
  {
    if headings != [] {
      KeptGrowsWithDepth(headings[1..], d1, d2);
    }
  }

  function Entries(headings: seq<Heading>): string {
    Concat(Entry, headings)
  }

  /** The markdown source of the table of contents before the entries. */
  function TocHeader(title: string): string {
    "\n# " + title + "\n\n<caption>Table of Contents</caption>\n\n"
  }

  /** The entry loop of `generate_table_of_contents`
      (conjure/article.py:295-314) on the headings the header pattern
      finds; the result is the markdown converter applied to the source. */
  method TableOfContents(headings: seq<Heading>, title: string, md: string -> string, maxDepth: int := 2)
    returns (toc: string)
    ensures toc == md(TocHeader(title) + Entries(Kept(headings, maxDepth)))
  {
    var source := TocHeader(title);
    for i := 0 to |headings|
      invariant source + Entries(Kept(headings[i..], maxDepth)) == TocHeader(title) + Entries(Kept(headings, maxDepth))
    {
      var h := headings[i];
      TocStep(source, headings, i, maxDepth);
      var indent := h.level - 1;
      if indent > maxDepth {
        continue;
      }
      var entry := Entry(h);
      source := source + entry;
    }
    assert headings[|headings|..] == [];
    assert Entries(Kept(headings[|headings|..], maxDepth)) == "";
    assert source == TocHeader(title) + Entries(Kept(headings, maxDepth));
    toc := md(source);
  }

  /** One turn of the entry loop: a kept heading's entry moves from the
      entries still to come onto the source. */
  lemma TocStep(source: string, headings: seq<Heading>, i: nat, maxDepth: int)
    requires i < |headings|
    ensures source + Entries(Kept(headings[i..], maxDepth))
            == (if Indent(headings[i]) > maxDepth then source else source + Entry(headings[i]))
               + Entries(Kept(headings[i + 1..], maxDepth))
  {
    var h := headings[i];
    var rest := Kept(headings[i + 1..], maxDepth);
    KeptStep(headings, i, maxDepth);
    if Indent(h) <= maxDepth {
      EntriesCons(h, rest);
      Regroup(source, Entry(h), Entries(rest), []);
    }
  }

  lemma KeptStep(headings: seq<Heading>, i: nat, maxDepth: int)
    requires i < |headings|
    ensures Kept(headings[i..], maxDepth)
            == (if Indent(headings[i]) > maxDepth then [] else [headings[i]]) + Kept(headings[i + 1..], maxDepth)
  {
    assert headings[i..][0] == headings[i];
    assert headings[i..][1..] == headings[i + 1..];
  }

  lemma EntriesCons(h: Heading, hs: seq<Heading>)
    ensures Entries([h] + hs) == Entry(h) + Entries(hs)
  {
    assert ([h] + hs)[1..] == hs;
  }

  /** The title text `f'# {title}'` prints: `None` when there is none. */
  function TitleText(title: Option<string>): string {
    match title
    case None => "None"
    case Some(t) => t
  }

  /** `conjure_article` (conjure/article.py:318-339) up to the file it
      writes: the content from the classified chunks, and the table of
      contents for the headings found in it. */
  method ConjureArticle(lines: seq<string>, chunks: seq<Chunk>, headings: seq<Heading>,
                        title: Option<string>, md: string -> string, maxDepth: int := 1)
    returns (content: string, toc: string)
    ensures content == Assemble(Segments(lines, chunks, 0))
    ensures toc == md(TocHeader(TitleText(title)) + Entries(Kept(headings, maxDepth)))
  {
    var items := ClassifyChunks(lines, chunks);
    content := AssembleContent(items);
    toc := TableOfContents(headings, TitleText(title), md, maxDepth);
  }
}
