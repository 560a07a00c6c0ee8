/**
  The language repair of `serena-project-doctor`: `_replace_languages_block` rewrites the languages
  block of a project configuration line by line, and `repair_languages` uses it to add languages.
 */
module Languages {
  import opened Wrappers

  type Language = string

  datatype Ending = Lf | CrLf | Cr | Unended

  /**
    What a line is to the two patterns and to the YAML reader. `Header` has the supported form,
    `ComplexHeader` starts like it but goes on otherwise, `QuotedHeader` names the key in a way that
    the patterns do not see. `Item` matches the item pattern, `BareItem` is a list item that does not.
    `Blank("")` is an empty line, any other `Blank` one of spaces only.
   */
  datatype Content =
    | Header(inline: Option<seq<Language>>)
    | ComplexHeader
    | QuotedHeader(list: Option<seq<Language>>)
    | Item(language: Language)
    | BareItem
    | Nested(text: string)
    | Key(text: string)
    | Comment(text: string)
    | Blank(spaces: string)

  datatype Line = Line(content: Content, ending: Ending)

  /** A text as `splitlines(keepends=True)` splits it. */
  type Document = seq<Line>

  /** The documents that are split texts: only the last line may lack an ending, and is then not
      empty; a carriage return before an empty line's line feed would have been one ending with it. */
  predicate Canonical(doc: Document) {
    && (forall i | 0 <= i < |doc| - 1 :: doc[i].ending != Unended)
    && (forall i | 0 <= i < |doc| - 1 :: doc[i].ending == Cr ==> doc[i + 1] != Line(Blank(""), Lf))
    && (doc != [] ==> doc[|doc| - 1] != Line(Blank(""), Unended))
  }

  // ---------------------------------------------------------------------------------
  // Reading
  // ---------------------------------------------------------------------------------

  /** What the configuration says under `languages`; `Odd` is anything but a list of strings. */
  datatype Value = Missing | Null | List(languages: seq<Language>) | Odd | Invalid

  datatype Place = Outside | InBlock | AfterInline

  datatype Reading = Reading(value: Value, place: Place)

  const Start := Reading(Missing, Outside)

  /** The YAML reader, line by line; of several keys the last counts. */
  function Read1(r: Reading, c: Content): Reading {
    if r.value.Invalid? then r
    else match c
      case Header(None) => Reading(Null, InBlock)
      case Header(Some(list)) => Reading(List(list), AfterInline)
      case QuotedHeader(None) => Reading(Null, InBlock)
      case QuotedHeader(Some(list)) => Reading(List(list), AfterInline)
      case ComplexHeader => Reading(Odd, InBlock)
      case Item(language) =>
        if r.place.Outside? then r
        else if r.place.AfterInline? then r.(value := Invalid)
        else if r.value.Null? then r.(value := List([language]))
        else if r.value.List? then r.(value := List(r.value.languages + [language]))
        else r
      case BareItem => if r.place.Outside? then r else r.(value := Odd)
      case Nested(_) => if r.place.Outside? then r else r.(value := Odd)
      case Key(_) => r.(place := Outside)
      case Comment(_) => r
      case Blank(_) => r
  }

  function Reads(r: Reading, doc: Document): Reading
    decreases |doc|
  {
    if doc == [] then r else Reads(Read1(r, doc[0].content), doc[1..])
  }

  function Configured(doc: Document): Value {
    Reads(Start, doc).value
  }

  lemma {:induction false} ReadsJoin(r: Reading, a: Document, b: Document)
    ensures Reads(r, a + b) == Reads(Reads(r, a), b)
    decreases |a|
  {
    if a == [] {
      assert a + b == b;
    } else {
      assert (a + b)[0] == a[0] && (a + b)[1..] == a[1..] + b;
      ReadsJoin(Read1(r, a[0].content), a[1..], b);
    }
  }

  // ---------------------------------------------------------------------------------
  // Rewriting
  // ---------------------------------------------------------------------------------

  predicate MatchesHeader(c: Content) {
    c.Header? || c.ComplexHeader?
  }

  /** The index of the first line that the header pattern matches, or the number of lines. */
  function FindHeader(doc: Document): (n: nat)
    ensures n <= |doc| && (forall i | 0 <= i < n :: !MatchesHeader(doc[i].content))
    ensures n < |doc| ==> MatchesHeader(doc[n].content)
  {
    if doc == [] || MatchesHeader(doc[0].content) then 0 else 1 + FindHeader(doc[1..])
  }

  /** How many item lines the document starts with. */
  function CountItems(doc: Document): (n: nat)
    ensures n <= |doc| && (forall i | 0 <= i < n :: doc[i].content.Item?)
    ensures n < |doc| ==> !doc[n].content.Item?
  {
    if doc == [] || !doc[0].content.Item? then 0 else 1 + CountItems(doc[1..])
  }

  predicate HasCrLf(doc: Document) {
    exists i | 0 <= i < |doc| :: doc[i].ending == CrLf
  }

  function NewlineOf(doc: Document): Ending {
    if HasCrLf(doc) then CrLf else Lf
  }

  function Items(languages: seq<Language>, newline: Ending): Document {
    seq(|languages|, i requires 0 <= i < |languages| => Line(Item(languages[i]), newline))
  }

  function Block(languages: seq<Language>, newline: Ending): Document {
    [Line(Header(None), newline)] + Items(languages, newline)
  }

  /** The text ends with an empty line in the document's own newline. */
  predicate EndsBlank(doc: Document, newline: Ending) {
    |doc| >= 2 && doc[|doc| - 1] == Line(Blank(""), newline) && doc[|doc| - 2].ending == newline
  }

  /** A newline written after a bare carriage return completes it instead of adding an empty line. */
  predicate Merges(doc: Document, newline: Ending) {
    doc != [] && doc[|doc| - 1].ending == Cr && newline == Lf
  }

  /** What the appended block is written after. */
  function Prefix(doc: Document, newline: Ending): Document {
    if doc == [] then doc
    else
      var last := doc[|doc| - 1];
      var ended := if last.ending == Unended then doc[|doc| - 1 := last.(ending := newline)] else doc;
      if EndsBlank(ended, newline) then ended
      else if Merges(ended, newline) then ended[|doc| - 1 := last.(ending := CrLf)]
      else ended + [Line(Blank(""), newline)]
  }

  datatype Error = ComplexForm | ValidationFailed | NotAList | DecisionFailed | Concurrent
  datatype Result<T> = Ok(value: T) | Err(error: Error)

  /** What follows the items of the first block. */
  function TailOf(doc: Document): Document
    requires FindHeader(doc) < |doc|
  {
    doc[FindHeader(doc) + 1 + CountItems(doc[FindHeader(doc) + 1..])..]
  }

  /** The block put between what was before and after the old one, if it then reads as written. */
  function Splice(before: Document, languages: seq<Language>, newline: Ending, tail: Document): Result<Document> {
    var candidate := before + Block(languages, newline) + tail;
    if Configured(candidate) != List(languages) then Err(ValidationFailed) else Ok(candidate)
  }

  function ReplaceBlock(doc: Document, languages: seq<Language>): Result<Document> {
    var newline := NewlineOf(doc);
    var h := FindHeader(doc);
    if h == |doc| then Ok(Prefix(doc, newline) + Block(languages, newline))
    else if doc[h].content.ComplexHeader? then Err(ComplexForm)
    else Splice(doc[..h], languages, newline, TailOf(doc))
  }

  // ---------------------------------------------------------------------------------
  // Put-get
  // ---------------------------------------------------------------------------------

  lemma {:induction false} ReadItems(languages: seq<Language>, newline: Ending, before: seq<Language>)
    ensures
      var r := Reading(if before == [] then Null else List(before), InBlock);
      var after := before + languages;
      Reads(r, Items(languages, newline)) == Reading(if after == [] then Null else List(after), InBlock)
    decreases |languages|
  {
    if languages == [] {
      assert before + languages == before;
    } else {
      var items := Items(languages, newline);
      assert items[0] == Line(Item(languages[0]), newline) && items[1..] == Items(languages[1..], newline);
      ReadItems(languages[1..], newline, before + [languages[0]]);
      assert before + [languages[0]] + languages[1..] == before + languages;
      assert before == [] ==> before + [languages[0]] == [languages[0]];
    }
  }

  /** A block reads as its languages, after anything that is valid. */
  lemma ReadBlock(r: Reading, languages: seq<Language>, newline: Ending)
    requires !r.value.Invalid?
    ensures Reads(r, Block(languages, newline)) == Reading(if languages == [] then Null else List(languages), InBlock)
  {
    var block := Block(languages, newline);
    assert block[0] == Line(Header(None), newline) && block[1..] == Items(languages, newline);
    ReadItems(languages, newline, []);
    assert [] + languages == languages;
  }

  lemma {:induction false} ReadIgnoresEndings(r: Reading, a: Document, b: Document)
    requires |a| == |b| && forall i | 0 <= i < |a| :: a[i].content == b[i].content
    ensures Reads(r, a) == Reads(r, b)
    decreases |a|
  {
    if a != [] {
      ReadIgnoresEndings(Read1(r, a[0].content), a[1..], b[1..]);
    }
  }

  /** The lines before an appended block are those of the document, and at most one blank line. */
  lemma PrefixKeepsLines(doc: Document, newline: Ending)
    ensures
      var p := Prefix(doc, newline);
      && |doc| <= |p| <= |doc| + 1
      && (forall i | 0 <= i < |doc| :: p[i].content == doc[i].content)
      && (forall i | 0 <= i < |doc| - 1 :: p[i] == doc[i])
      && (|p| > |doc| ==> p[|doc|].content == Blank(""))
  {
  }

  lemma PrefixReadsAlike(doc: Document, newline: Ending, r: Reading)
    ensures Reads(r, Prefix(doc, newline)) == Reads(r, doc)
  {
    PrefixKeepsLines(doc, newline);
    var p := Prefix(doc, newline);
    ReadIgnoresEndings(r, p[..|doc|], doc);
    assert p == p[..|doc|] + p[|doc|..];
    ReadsJoin(r, p[..|doc|], p[|doc|..]);
    if |p| > |doc| {
      assert p[|doc|..] == [p[|doc|]] && p[|doc|..][1..] == [];
    }
  }

  /** Reading back gives exactly the written list. */
  lemma PutGet(doc: Document, languages: seq<Language>)
    requires ReplaceBlock(doc, languages).Ok? && languages != [] && !Configured(doc).Invalid?
    ensures Configured(ReplaceBlock(doc, languages).value) == List(languages)
  {
    if FindHeader(doc) == |doc| {
      var newline := NewlineOf(doc);
      PrefixReadsAlike(doc, newline, Start);
      ReadsJoin(Start, Prefix(doc, newline), Block(languages, newline));
      ReadBlock(Reads(Start, doc), languages, newline);
    }
  }

  // ---------------------------------------------------------------------------------
  // When the rewrite is accepted
  // ---------------------------------------------------------------------------------

  predicate NamesTheKey(c: Content) {
    MatchesHeader(c) || c.QuotedHeader?
  }

  predicate NoKey(doc: Document) {
    forall i | 0 <= i < |doc| :: !NamesTheKey(doc[i].content)
  }

  /** What follows the items does not go on with the block. */
  predicate EndsTheBlock(tail: Document) {
    tail == [] || tail[0].content.Key?
    || ((tail[0].content.Comment? || tail[0].content.Blank?) && EndsTheBlock(tail[1..]))
  }

  lemma {:induction false} ReadOutside(value: Value, tail: Document)
    requires NoKey(tail)
    ensures Reads(Reading(value, Outside), tail) == Reading(value, Outside)
    decreases |tail|
  {
    if tail != [] {
      assert !NamesTheKey(tail[0].content);
      assert forall i | 0 <= i < |tail[1..]| :: tail[1..][i] == tail[i + 1];
      ReadOutside(value, tail[1..]);
    }
  }

  /** Once the block has got another element, it never reads as the old list again. */
  lemma {:induction false} SpoiltStaysSpoilt(r: Reading, languages: seq<Language>, tail: Document)
    requires NoKey(tail)
    requires r.value.Odd? || r.value.Invalid? || (r.value.List? && |r.value.languages| > |languages|)
    ensures Reads(r, tail).value != List(languages)
    decreases |tail|
  {
    if tail != [] {
      assert !NamesTheKey(tail[0].content);
      assert forall i | 0 <= i < |tail[1..]| :: tail[1..][i] == tail[i + 1];
      SpoiltStaysSpoilt(Read1(r, tail[0].content), languages, tail[1..]);
    }
  }

  lemma {:induction false} TailKeepsTheList(languages: seq<Language>, tail: Document)
    requires NoKey(tail)
    ensures Reads(Reading(List(languages), InBlock), tail).value == List(languages) <==> EndsTheBlock(tail)
    decreases |tail|
  {
    if tail != [] {
      var r := Reading(List(languages), InBlock);
      assert !NamesTheKey(tail[0].content);
      assert forall i | 0 <= i < |tail[1..]| :: tail[1..][i] == tail[i + 1];
      if tail[0].content.Key? {
        ReadOutside(List(languages), tail[1..]);
      } else if tail[0].content.Comment? || tail[0].content.Blank? {
        TailKeepsTheList(languages, tail[1..]);
      } else {
        SpoiltStaysSpoilt(Read1(r, tail[0].content), languages, tail[1..]);
      }
    }
  }

  lemma BlockReadsInPlace(doc: Document, languages: seq<Language>, newline: Ending)
    requires FindHeader(doc) < |doc| && languages != [] && !Reads(Start, doc[..FindHeader(doc)]).value.Invalid?
    ensures Reads(Start, doc[..FindHeader(doc)] + Block(languages, newline) + TailOf(doc))
      == Reads(Reading(List(languages), InBlock), TailOf(doc))
  {
    var before, block := doc[..FindHeader(doc)], Block(languages, newline);
    ReadsJoin(Start, before + block, TailOf(doc));
    ReadsJoin(Start, before, block);
    ReadBlock(Reads(Start, before), languages, newline);
  }

  /** An existing block is rewritten exactly when its header has the supported form, something is
      written, and the lines after its items do not go on with the list. */
  lemma AcceptedExactly(doc: Document, languages: seq<Language>)
    requires FindHeader(doc) < |doc| && !Reads(Start, doc[..FindHeader(doc)]).value.Invalid? && NoKey(TailOf(doc))
    ensures ReplaceBlock(doc, languages).Ok? <==>
              !doc[FindHeader(doc)].content.ComplexHeader? && languages != [] && EndsTheBlock(TailOf(doc))
  {
    var newline := NewlineOf(doc);
    var before := doc[..FindHeader(doc)];
    if languages != [] {
      BlockReadsInPlace(doc, languages, newline);
      TailKeepsTheList(languages, TailOf(doc));
    } else {
      ReadsJoin(Start, before + Block([], newline), TailOf(doc));
      ReadsJoin(Start, before, Block([], newline));
      ReadBlock(Reads(Start, before), [], newline);
      NothingReadsAsEmpty(Reading(Null, InBlock), TailOf(doc));
    }
  }

  lemma {:induction false} NothingReadsAsEmpty(r: Reading, tail: Document)
    requires NoKey(tail) && r.value != List([])
    ensures Reads(r, tail).value != List([])
    decreases |tail|
  {
    if tail != [] {
      assert !NamesTheKey(tail[0].content);
      assert forall i | 0 <= i < |tail[1..]| :: tail[1..][i] == tail[i + 1];
      NothingReadsAsEmpty(Read1(r, tail[0].content), tail[1..]);
    }
  }

  // ---------------------------------------------------------------------------------
  // Lines outside the block
  // ---------------------------------------------------------------------------------

  /** The document without its block. */
  function OutsideLines(doc: Document): Document {
    if FindHeader(doc) < |doc| then doc[..FindHeader(doc)] + TailOf(doc) else doc
  }

  lemma FindHeaderAt(before: Document, header: Line, rest: Document)
    requires (forall i | 0 <= i < |before| :: !MatchesHeader(before[i].content)) && MatchesHeader(header.content)
    ensures FindHeader(before + [header] + rest) == |before|
  {
    var doc := before + [header] + rest;
    assert doc[|before|] == header;
    assert forall i | 0 <= i < |before| :: doc[i] == before[i];
  }

  lemma CountItemsAt(items: Document, rest: Document)
    requires (forall i | 0 <= i < |items| :: items[i].content.Item?) && (rest == [] || !rest[0].content.Item?)
    ensures CountItems(items + rest) == |items|
  {
    var doc := items + rest;
    assert forall i | 0 <= i < |items| :: doc[i] == items[i];
    if rest != [] {
      assert doc[|items|] == rest[0];
    }
  }

  /** The first block of a document that was put together around one is that block. */
  lemma BlockIsFound(before: Document, languages: seq<Language>, newline: Ending, tail: Document)
    requires forall i | 0 <= i < |before| :: !MatchesHeader(before[i].content)
    requires tail == [] || !tail[0].content.Item?
    ensures
      var doc := before + Block(languages, newline) + tail;
      FindHeader(doc) == |before| && doc[|before|] == Line(Header(None), newline)
      && TailOf(doc) == tail && doc[..|before|] == before
  {
    var doc := before + Block(languages, newline) + tail;
    var items := Items(languages, newline);
    assert doc == before + [Line(Header(None), newline)] + (items + tail);
    FindHeaderAt(before, Line(Header(None), newline), items + tail);
    CountItemsAt(items, tail);
    assert doc[|before| + 1..] == items + tail;
    assert (items + tail)[|items|..] == tail;
  }

  lemma TailStartsOtherwise(doc: Document)
    requires FindHeader(doc) < |doc|
    ensures TailOf(doc) == [] || !TailOf(doc)[0].content.Item?
  {
  }

  lemma OutsideOfSpliced(before: Document, languages: seq<Language>, newline: Ending, tail: Document)
    requires forall i | 0 <= i < |before| :: !MatchesHeader(before[i].content)
    requires tail == [] || !tail[0].content.Item?
    ensures OutsideLines(before + Block(languages, newline) + tail) == before + tail
  {
    BlockIsFound(before, languages, newline, tail);
  }

  /** Rewriting an existing block keeps every line outside it, in order. */
  lemma OutsideLinesStay(doc: Document, languages: seq<Language>)
    requires ReplaceBlock(doc, languages).Ok? && FindHeader(doc) < |doc|
    ensures OutsideLines(ReplaceBlock(doc, languages).value) == OutsideLines(doc)
  {
    var before, newline, tail := doc[..FindHeader(doc)], NewlineOf(doc), TailOf(doc);
    TailStartsOtherwise(doc);
    OutsideOfSpliced(before, languages, newline, tail);
    assert ReplaceBlock(doc, languages).value == before + Block(languages, newline) + tail;
  }

  lemma AppendedBlockIsFound(p: Document, languages: seq<Language>, newline: Ending)
    requires forall i | 0 <= i < |p| :: !MatchesHeader(p[i].content)
    ensures
      var d := p + Block(languages, newline);
      && FindHeader(d) == |p| && d[|p|] == Line(Header(None), newline)
      && TailOf(d) == [] && d[..|p|] == p && OutsideLines(d) == p
  {
    assert p + Block(languages, newline) + [] == p + Block(languages, newline);
    BlockIsFound(p, languages, newline, []);
    assert p + [] == p;
  }

  lemma PrefixHasNoHeader(doc: Document, newline: Ending)
    requires FindHeader(doc) == |doc|
    ensures forall i | 0 <= i < |Prefix(doc, newline)| :: !MatchesHeader(Prefix(doc, newline)[i].content)
  {
  }

  /** Appending a block keeps every line of the document, in order, up to the ending of the last. */
  lemma AppendedBlockKeepsLines(doc: Document, languages: seq<Language>)
    requires FindHeader(doc) == |doc|
    ensures
      var d := ReplaceBlock(doc, languages).value;
      && ReplaceBlock(doc, languages).Ok? && |doc| <= |OutsideLines(d)| <= |doc| + 1
      && (forall i | 0 <= i < |doc| :: OutsideLines(d)[i].content == doc[i].content)
      && (forall i | 0 <= i < |doc| - 1 :: OutsideLines(d)[i] == doc[i])
  {
    PrefixKeepsLines(doc, NewlineOf(doc));
    PrefixHasNoHeader(doc, NewlineOf(doc));
    AppendedBlockIsFound(Prefix(doc, NewlineOf(doc)), languages, NewlineOf(doc));
  }

  /** The newline of a text: CRLF exactly if some line ends so. */
  ghost predicate IsNewlineOf(newline: Ending, doc: Document) {
    newline == if exists i :: 0 <= i < |doc| && doc[i].ending == CrLf then CrLf else Lf
  }

  /**
    The first line that starts like a header decides: if it goes on in another form, the text is
    refused; if it is a plain header, the block is rewritten or the result does not validate; a text
    without such a line, also one that names the key in quotes, gets a new block.
   */
  lemma FirstHeaderDecides(doc: Document, languages: seq<Language>, k: nat)
    requires k <= |doc| && forall i | 0 <= i < k :: !doc[i].content.Header? && !doc[i].content.ComplexHeader?
    requires k < |doc| ==> doc[k].content.Header? || doc[k].content.ComplexHeader?
    ensures
      var result := ReplaceBlock(doc, languages);
      && (k < |doc| && doc[k].content.ComplexHeader? ==> result == Err(ComplexForm))
      && (k < |doc| && doc[k].content.Header? ==> result.Ok? || result == Err(ValidationFailed))
      && (k == |doc| ==> result.Ok?)
  {
    assert FindHeader(doc) == k;
  }

  lemma ItemsAt(before: Document, languages: seq<Language>, newline: Ending, tail: Document)
    ensures
      var doc := before + Block(languages, newline) + tail;
      forall i | 0 <= i < |languages| :: doc[|before| + 1 + i] == Line(Item(languages[i]), newline)
  {
    var doc, block := before + Block(languages, newline) + tail, Block(languages, newline);
    forall i | 0 <= i < |languages| ensures doc[|before| + 1 + i] == Line(Item(languages[i]), newline) {
      assert block[i + 1] == Items(languages, newline)[i];
      assert doc[|before| + 1 + i] == block[i + 1];
    }
  }

  /** The first header of the document is a plain one, followed by one item for each language. */
  predicate HasBlock(doc: Document, languages: seq<Language>, newline: Ending) {
    var h := FindHeader(doc);
    && h + |languages| < |doc| && doc[h] == Line(Header(None), newline)
    && forall i | 0 <= i < |languages| :: doc[h + 1 + i] == Line(Item(languages[i]), newline)
  }

  lemma SplicedHasBlock(before: Document, languages: seq<Language>, newline: Ending, tail: Document)
    requires forall i | 0 <= i < |before| :: !MatchesHeader(before[i].content)
    requires tail == [] || !tail[0].content.Item?
    ensures HasBlock(before + Block(languages, newline) + tail, languages, newline)
  {
    BlockIsFound(before, languages, newline, tail);
    ItemsAt(before, languages, newline, tail);
  }

  /** The block that is written is in the text's newline. */
  lemma WrittenBlock(doc: Document, languages: seq<Language>, newline: Ending)
    requires ReplaceBlock(doc, languages).Ok? && IsNewlineOf(newline, doc)
    ensures HasBlock(ReplaceBlock(doc, languages).value, languages, newline)
  {
    if FindHeader(doc) == |doc| {
      var p := Prefix(doc, newline);
      PrefixHasNoHeader(doc, newline);
      SplicedHasBlock(p, languages, newline, []);
      assert p + Block(languages, newline) + [] == p + Block(languages, newline);
    } else {
      TailStartsOtherwise(doc);
      SplicedHasBlock(doc[..FindHeader(doc)], languages, newline, TailOf(doc));
    }
  }

  /** The document with its last line ended. */
  function Completed(doc: Document, ending: Ending): Document
    requires doc != []
  {
    doc[|doc| - 1 := doc[|doc| - 1].(ending := ending)]
  }

  /**
    What stands before an appended block: nothing before the first block of an empty text; otherwise the
    text, ended, and exactly one empty line, which is not added where there is one already. A bare
    carriage return at the end is completed instead if the newline is a line feed.
   */
  lemma AppendedAfterAnEmptyLine(doc: Document, languages: seq<Language>, newline: Ending)
    requires Canonical(doc) && IsNewlineOf(newline, doc)
    requires forall i | 0 <= i < |doc| :: !doc[i].content.Header? && !doc[i].content.ComplexHeader?
    ensures
      var result, n := ReplaceBlock(doc, languages), |doc|;
      && result.Ok?
      && OutsideLines(result.value)
        == if n == 0 then []
           else if doc[n - 1].ending == Cr && newline == Lf then Completed(doc, CrLf)
           else if n > 1 && doc[n - 1] == Line(Blank(""), newline) && doc[n - 2].ending == newline then doc
           else (if doc[n - 1].ending == Unended then Completed(doc, newline) else doc) + [Line(Blank(""), newline)]
  {
    assert FindHeader(doc) == |doc| && NewlineOf(doc) == newline;
    PrefixHasNoHeader(doc, newline);
    AppendedBlockIsFound(Prefix(doc, newline), languages, newline);
  }

  lemma PrefixIsCanonical(doc: Document, newline: Ending)
    requires Canonical(doc) && newline == NewlineOf(doc)
    ensures Canonical(Prefix(doc, newline)) && AllEnded(Prefix(doc, newline))
  {
    PrefixKeepsLines(doc, newline);
    if doc != [] && newline == Lf {
      assert doc[|doc| - 1].ending != CrLf;
    }
  }

  predicate AllEnded(doc: Document) {
    forall i | 0 <= i < |doc| :: doc[i].ending != Unended
  }

  lemma CanonicalAroundBlock(before: Document, languages: seq<Language>, newline: Ending, tail: Document)
    requires Canonical(before) && Canonical(tail) && newline in {Lf, CrLf} && AllEnded(before)
    ensures Canonical(before + Block(languages, newline) + tail)
  {
    var block := Block(languages, newline);
    assert (before + block)[|before + block| - 1] == block[|languages|];
  }

  /** The text of a rewritten document splits into the very same lines again. */
  lemma RewriteKeepsLines(doc: Document, languages: seq<Language>)
    requires Canonical(doc) && ReplaceBlock(doc, languages).Ok?
    ensures Canonical(ReplaceBlock(doc, languages).value)
  {
    var newline := NewlineOf(doc);
    if FindHeader(doc) == |doc| {
      var p := Prefix(doc, newline);
      PrefixIsCanonical(doc, newline);
      CanonicalAroundBlock(p, languages, newline, []);
      assert p + Block(languages, newline) + [] == p + Block(languages, newline);
    } else {
      CanonicalAroundBlock(doc[..FindHeader(doc)], languages, newline, TailOf(doc));
    }
  }

  // ---------------------------------------------------------------------------------
  // Put-put
  // ---------------------------------------------------------------------------------

  lemma CrLfOfParts(a: Document, b: Document)
    ensures HasCrLf(a + b) <==> HasCrLf(a) || HasCrLf(b)
  {
    assert forall i | 0 <= i < |a| :: (a + b)[i] == a[i];
    assert forall i | 0 <= i < |b| :: (a + b)[|a| + i] == b[i];
  }

  lemma BlockCrLf(languages: seq<Language>, newline: Ending)
    ensures HasCrLf(Block(languages, newline)) <==> newline == CrLf
  {
    assert Block(languages, newline)[0].ending == newline;
  }

  /** Writing a block in the document's newline does not change what its newline is. */
  lemma NewlineStays(doc: Document, before: Document, tail: Document, languages: seq<Language>)
    requires HasCrLf(before) || HasCrLf(tail) ==> HasCrLf(doc)
    ensures NewlineOf(before + Block(languages, NewlineOf(doc)) + tail) == NewlineOf(doc)
  {
    var block := Block(languages, NewlineOf(doc));
    CrLfOfParts(before + block, tail);
    CrLfOfParts(before, block);
    BlockCrLf(languages, NewlineOf(doc));
  }

  lemma PartsHaveNoMoreCrLf(doc: Document)
    requires FindHeader(doc) < |doc|
    ensures HasCrLf(doc[..FindHeader(doc)]) || HasCrLf(TailOf(doc)) ==> HasCrLf(doc)
  {
  }

  lemma PutPutInPlace(doc: Document, first: seq<Language>, second: seq<Language>)
    requires FindHeader(doc) < |doc| && ReplaceBlock(doc, first).Ok?
    ensures ReplaceBlock(ReplaceBlock(doc, first).value, second) == ReplaceBlock(doc, second)
  {
    var before, tail := doc[..FindHeader(doc)], TailOf(doc);
    TailStartsOtherwise(doc);
    BlockIsFound(before, first, NewlineOf(doc), tail);
    PartsHaveNoMoreCrLf(doc);
    NewlineStays(doc, before, tail, first);
  }

  lemma PrefixCrLf(doc: Document, newline: Ending)
    requires newline == NewlineOf(doc)
    ensures HasCrLf(Prefix(doc, newline)) <==> HasCrLf(doc) || Merges(doc, newline)
  {
    if doc != [] {
      var p := Prefix(doc, newline);
      var k := |doc| - 1;
      assert forall i | 0 <= i < k :: p[i] == doc[i];
      if HasCrLf(doc) {
        var i :| 0 <= i < |doc| && doc[i].ending == CrLf;
        assert p[i].ending == CrLf;
      } else if Merges(doc, newline) {
        assert p[k].ending == CrLf;
      }
    }
  }

  lemma AppendedNewline(doc: Document, languages: seq<Language>)
    ensures
      var newline := NewlineOf(doc);
      NewlineOf(Prefix(doc, newline) + Block(languages, newline)) == (if Merges(doc, newline) then CrLf else newline)
  {
    var newline := NewlineOf(doc);
    PrefixCrLf(doc, newline);
    CrLfOfParts(Prefix(doc, newline), Block(languages, newline));
    BlockCrLf(languages, newline);
  }

  lemma AppendedReads(doc: Document, languages: seq<Language>, newline: Ending, other: Ending)
    requires languages != [] && !Configured(doc).Invalid?
    ensures Configured(Prefix(doc, newline) + Block(languages, other)) == List(languages)
  {
    PrefixReadsAlike(doc, newline, Start);
    ReadsJoin(Start, Prefix(doc, newline), Block(languages, other));
    ReadBlock(Reads(Start, doc), languages, other);
  }

  lemma AppendedAgain(doc: Document, first: seq<Language>, second: seq<Language>)
    requires FindHeader(doc) == |doc| && second != [] && !Configured(doc).Invalid?
    ensures
      var newline := NewlineOf(doc);
      var again := if Merges(doc, newline) then CrLf else newline;
      ReplaceBlock(ReplaceBlock(doc, first).value, second) == Ok(Prefix(doc, newline) + Block(second, again))
  {
    var newline := NewlineOf(doc);
    var p := Prefix(doc, newline);
    var d := ReplaceBlock(doc, first).value;
    PrefixHasNoHeader(doc, newline);
    AppendedBlockIsFound(p, first, newline);
    AppendedNewline(doc, first);
    var again := NewlineOf(d);
    assert p + Block(second, again) + [] == p + Block(second, again);
    AppendedReads(doc, second, newline, again);
  }

  /**
    On an arbitrary text the last write wins, except exactly for a text without a block that ends in
    a bare carriage return and has no CRLF, where completing that ending changes the newline the
    second write uses.
   */
  lemma PutPut(doc: Document, first: seq<Language>, second: seq<Language>)
    requires ReplaceBlock(doc, first).Ok? && second != [] && !Configured(doc).Invalid?
    ensures ReplaceBlock(ReplaceBlock(doc, first).value, second) == ReplaceBlock(doc, second) <==>
              FindHeader(doc) < |doc| || !Merges(doc, NewlineOf(doc))
  {
    if FindHeader(doc) < |doc| {
      PutPutInPlace(doc, first, second);
    } else {
      AppendedAgain(doc, first, second);
      var newline := NewlineOf(doc);
      if Merges(doc, newline) {
        var p := Prefix(doc, newline);
        assert (p + Block(second, CrLf))[|p|] == Line(Header(None), CrLf);
        assert (p + Block(second, Lf))[|p|] == Line(Header(None), Lf);
      }
    }
  }

  /** Such a text. */
  lemma PutPutFailsAfterABareReturn(language: Language)
    ensures
      var doc := [Line(Key("name"), Cr)];
      && Canonical(doc) && ReplaceBlock(doc, [language]).Ok?
      && ReplaceBlock(ReplaceBlock(doc, [language]).value, [language]) != ReplaceBlock(doc, [language])
  {
    var doc := [Line(Key("name"), Cr)];
    assert doc[1..] == [];
    assert FindHeader(doc) == 1;
    assert Reads(Start, doc) == Reads(Read1(Start, doc[0].content), []);
    assert !HasCrLf(doc);
    PutPut(doc, [language], [language]);
  }

  // ---------------------------------------------------------------------------------
  // Texts that are read from a file
  // ---------------------------------------------------------------------------------

  /** `read_text`: every ending becomes a line feed. */
  function Translated(doc: Document): Document {
    seq(|doc|, i requires 0 <= i < |doc| => if doc[i].ending == Unended then doc[i] else doc[i].(ending := Lf))
  }

  predicate LfOnly(doc: Document) {
    forall i | 0 <= i < |doc| :: doc[i].ending == Lf || doc[i].ending == Unended
  }

  /** What is read has line feeds only and says the same; a file of line feeds is read as it is. */
  lemma TranslationReadsAlike(doc: Document)
    ensures LfOnly(Translated(doc)) && Configured(Translated(doc)) == Configured(doc)
    ensures Translated(doc) == doc <==> LfOnly(doc)
    ensures Canonical(doc) ==> Canonical(Translated(doc))
  {
    ReadIgnoresEndings(Start, Translated(doc), doc);
    if LfOnly(doc) {
      assert Translated(doc) == doc;
    }
    if Translated(doc) == doc {
      forall i | 0 <= i < |doc| ensures doc[i].ending == Lf || doc[i].ending == Unended {
        assert Translated(doc)[i] == doc[i];
      }
    }
  }

  /** A rewritten text of line feeds has line feeds only. */
  lemma LineFeedsStay(doc: Document, languages: seq<Language>)
    requires LfOnly(doc) && ReplaceBlock(doc, languages).Ok?
    ensures LfOnly(ReplaceBlock(doc, languages).value)
  {
    assert NewlineOf(doc) == Lf;
    PrefixKeepsLines(doc, Lf);
    var block := Block(languages, Lf);
    assert forall i | 0 <= i < |block| :: block[i].ending == Lf;
  }

  /** On what the program reads from a file and writes back, the last write wins without exception. */
  lemma PutPutThroughTheFile(file: Document, first: seq<Language>, second: seq<Language>)
    requires ReplaceBlock(Translated(file), first).Ok? && second != [] && !Configured(file).Invalid?
    ensures
      var written := ReplaceBlock(Translated(file), first).value;
      ReplaceBlock(Translated(written), second) == ReplaceBlock(Translated(file), second)
  {
    var doc := Translated(file);
    TranslationReadsAlike(file);
    LineFeedsStay(doc, first);
    TranslationReadsAlike(ReplaceBlock(doc, first).value);
    PutPut(doc, first, second);
  }

  lemma TranslatedParts(doc: Document, h: nat, end: nat)
    requires h <= end <= |doc|
    ensures Translated(doc)[..h] == Translated(doc[..h]) && Translated(doc)[end..] == Translated(doc[end..])
    ensures Translated(doc[..h] + doc[end..]) == Translated(doc[..h]) + Translated(doc[end..])
  {
  }

  predicate SameContents(a: Document, b: Document) {
    |a| == |b| && forall i | 0 <= i < |a| :: a[i].content == b[i].content
  }

  lemma TranslatedContents(doc: Document)
    ensures SameContents(Translated(doc), doc)
  {
  }

  lemma TailFrom(doc: Document, end: nat)
    requires FindHeader(doc) < |doc| && end == |doc| - |TailOf(doc)|
    ensures FindHeader(doc) < end && TailOf(doc) == doc[end..]
  {
  }

  /** Where the block of a document ends. */
  lemma SameParts(a: Document, b: Document) returns (end: nat)
    requires SameContents(a, b) && FindHeader(b) < |b|
    ensures FindHeader(a) == FindHeader(b) < end <= |b| == |a|
    ensures TailOf(a) == a[end..] && TailOf(b) == b[end..]
  {
    end := |b| - |TailOf(b)|;
    TailFrom(a, end);
    TailFrom(b, end);
  }

  lemma TranslationKeepsOutside(doc: Document)
    requires FindHeader(doc) < |doc|
    ensures FindHeader(Translated(doc)) == FindHeader(doc)
    ensures OutsideLines(Translated(doc)) == Translated(OutsideLines(doc))
  {
    TranslatedContents(doc);
    var end := SameParts(Translated(doc), doc);
    TranslatedParts(doc, FindHeader(doc), end);
  }

  // ---------------------------------------------------------------------------------
  // Repair
  // ---------------------------------------------------------------------------------

  /** The approved languages that are not configured. */
  function MissingFrom(approved: seq<Language>, configured: seq<Language>): seq<Language> {
    if approved == [] then []
    else (if approved[0] in configured then [] else [approved[0]]) + MissingFrom(approved[1..], configured)
  }

  lemma {:induction false} MissingHolds(approved: seq<Language>, configured: seq<Language>, l: Language)
    ensures l in MissingFrom(approved, configured) <==> l in approved && l !in configured
  {
    if approved != [] {
      MissingHolds(approved[1..], configured, l);
      assert approved == [approved[0]] + approved[1..];
    }
  }

  lemma {:induction false} NothingMissing(approved: seq<Language>, configured: seq<Language>)
    requires forall l | l in approved :: l in configured
    ensures MissingFrom(approved, configured) == []
  {
    if approved != [] {
      NothingMissing(approved[1..], configured);
    }
  }

  /** The locked part of `repair_languages` on an existing configuration file. `now` is the file just
      before the write. Both are read in text mode. Yields the new file and the added languages. */
  function Repair(file: Document, approved: seq<Language>, now: Document): Result<(Document, seq<Language>)> {
    match Configured(file)
    case List(configured) =>
      var missing := MissingFrom(approved, configured);
      if missing == [] then Ok((file, []))
      else (match ReplaceBlock(Translated(file), configured + missing)
            case Err(e) => Err(e)
            case Ok(updated) =>
              if Translated(now) != Translated(file) then Err(Concurrent) else Ok((updated, missing)))
    case _ => Err(NotAList)
  }

  /** What is missing is each approved language that is not configured, as often as it is approved. */
  lemma {:induction false} MissingCounts(approved: seq<Language>, configured: seq<Language>, l: Language)
    ensures multiset(MissingFrom(approved, configured))[l] == if l in configured then 0 else multiset(approved)[l]
  {
    if approved != [] {
      MissingCounts(approved[1..], configured, l);
      assert approved == [approved[0]] + approved[1..];
    }
  }

  /** ... in the order of approval. */
  lemma {:induction false} MissingJoins(a: seq<Language>, b: seq<Language>, configured: seq<Language>)
    ensures MissingFrom(a + b, configured) == MissingFrom(a, configured) + MissingFrom(b, configured)
  {
    if a == [] {
      assert a + b == b;
    } else {
      MissingJoins(a[1..], b, configured);
      assert (a + b)[0] == a[0] && (a + b)[1..] == a[1..] + b;
      Reassociate(if a[0] in configured then [] else [a[0]], MissingFrom(a[1..], configured), MissingFrom(b, configured));
    }
  }

  /**
    When a repair fails and when it writes. Without a list it is refused; with nothing missing the file
    stays; otherwise it fails like the rewrite, or because the file reads differently by now, and only
    then writes the rewritten text.
   */
  lemma RepairDecision(file: Document, approved: seq<Language>, now: Document, configured: seq<Language>)
    requires Configured(file).List? ==> configured == Configured(file).languages
    ensures
      var result := Repair(file, approved, now);
      var missing := MissingFrom(approved, configured);
      var rewrite := ReplaceBlock(Translated(file), configured + missing);
      var complete := forall l | l in approved :: l in configured;
      && (!Configured(file).List? ==> result == Err(NotAList))
      && (Configured(file).List? && complete ==> result == Ok((file, [])))
      && (Configured(file).List? && !complete && rewrite.Err? ==> result == Err(rewrite.error))
      && (Configured(file).List? && !complete && rewrite.Ok? ==>
            result == if Translated(now) == Translated(file) then Ok((rewrite.value, missing)) else Err(Concurrent))
  {
    if forall l | l in approved :: l in configured {
      NothingMissing(approved, configured);
    } else {
      var l :| l in approved && l !in configured;
      MissingHolds(approved, configured, l);
    }
  }

  /** A repair only ever appends approved languages, and a second one changes nothing. */
  lemma RepairAppendsOnce(file: Document, approved: seq<Language>, now: Document, later: Document)
    requires Repair(file, approved, now).Ok?
    ensures
      var (fixed, added) := Repair(file, approved, now).value;
      && Configured(fixed) == List(Configured(file).languages + added)
      && (forall l | l in added :: l in approved && l !in Configured(file).languages)
      && (forall l | l in approved :: l in Configured(fixed).languages)
      && Repair(fixed, approved, later) == Ok((fixed, []))
  {
    var configured := Configured(file).languages;
    var (fixed, added) := Repair(file, approved, now).value;
    assert configured + [] == configured;
    if MissingFrom(approved, configured) != [] {
      TranslationReadsAlike(file);
      PutGet(Translated(file), configured + added);
    }
    forall l ensures l in added <==> l in MissingFrom(approved, configured) {
    }
    forall l | l in approved ensures l in Configured(fixed).languages {
      MissingHolds(approved, configured, l);
    }
    forall l | l in added ensures l in approved && l !in configured {
      MissingHolds(approved, configured, l);
    }
    NothingMissing(approved, configured + added);
  }

  lemma RewriteThroughTheFile(file: Document, languages: seq<Language>)
    requires ReplaceBlock(Translated(file), languages).Ok? && FindHeader(file) < |file|
    ensures
      var fixed := ReplaceBlock(Translated(file), languages).value;
      && OutsideLines(fixed) == Translated(OutsideLines(file))
      && (OutsideLines(fixed) == OutsideLines(file) <==> LfOnly(OutsideLines(file)))
  {
    TranslationKeepsOutside(file);
    TranslationReadsAlike(OutsideLines(file));
    OutsideLinesStay(Translated(file), languages);
  }

  lemma AppendThroughTheFile(file: Document, languages: seq<Language>)
    requires FindHeader(file) == |file|
    ensures
      var fixed := ReplaceBlock(Translated(file), languages);
      && fixed.Ok? && |file| <= |OutsideLines(fixed.value)| <= |file| + 1
      && (forall i | 0 <= i < |file| :: OutsideLines(fixed.value)[i].content == file[i].content)
  {
    TranslatedContents(file);
    AppendedBlockKeepsLines(Translated(file), languages);
  }

  /**
    What a repair that adds something does to the rest of the file: every line is kept but gets a line
    feed. With a block, the lines outside it are exactly as before if and only if they ended in line
    feeds; the lines of a CRLF file are all rewritten.
   */
  lemma RepairRewritesEndings(file: Document, approved: seq<Language>, now: Document)
    requires Repair(file, approved, now).Ok? && Repair(file, approved, now).value.1 != []
    ensures
      var fixed := Repair(file, approved, now).value.0;
      && LfOnly(fixed)
      && (FindHeader(file) < |file| ==>
            && OutsideLines(fixed) == Translated(OutsideLines(file))
            && (OutsideLines(fixed) == OutsideLines(file) <==> LfOnly(OutsideLines(file))))
      && (FindHeader(file) == |file| ==>
            && |file| <= |OutsideLines(fixed)| <= |file| + 1
            && (forall i | 0 <= i < |file| :: OutsideLines(fixed)[i].content == file[i].content))
  {
    var languages := Configured(file).languages + MissingFrom(approved, Configured(file).languages);
    assert Repair(file, approved, now).value.0 == ReplaceBlock(Translated(file), languages).value;
    TranslationReadsAlike(file);
    LineFeedsStay(Translated(file), languages);
    if FindHeader(file) < |file| {
      RewriteThroughTheFile(file, languages);
    } else {
      AppendThroughTheFile(file, languages);
    }
  }

  // ---------------------------------------------------------------------------------
  // The programs
  // ---------------------------------------------------------------------------------

  method RewriteBlock(doc: Document, languages: seq<Language>) returns (result: Result<Document>)
    ensures result == ReplaceBlock(doc, languages)
  {
    var newline := NewlineOf(doc);
    var index := 0;
    while index < |doc| && !MatchesHeader(doc[index].content)
      invariant 0 <= index <= |doc| && forall i | 0 <= i < index :: !MatchesHeader(doc[i].content)
    {
      index := index + 1;
    }
    assert index == FindHeader(doc);
    if index == |doc| {
      return Ok(Prefix(doc, newline) + Block(languages, newline));
    }
    if doc[index].content.ComplexHeader? { return Err(ComplexForm); }
    var end := index + 1;
    while end < |doc| && doc[end].content.Item?
      invariant index < end <= |doc| && forall i | index < i < end :: doc[i].content.Item?
    {
      end := end + 1;
    }
    ghost var rest := doc[index + 1..];
    assert end == index + 1 + CountItems(rest) by {
      assert forall i | 0 <= i < end - index - 1 :: rest[i] == doc[index + 1 + i];
      if end < |doc| { assert rest[end - index - 1] == doc[end]; }
    }
    var candidate := doc[..index] + Block(languages, newline) + doc[end..];
    if Configured(candidate) != List(languages) { return Err(ValidationFailed); }
    result := Ok(candidate);
  }

  method CollectMissing(approved: seq<Language>, configured: seq<Language>) returns (missing: seq<Language>)
    ensures missing == MissingFrom(approved, configured)
  {
    missing := [];
    for i := 0 to |approved|
      invariant missing + MissingFrom(approved[i..], configured) == MissingFrom(approved, configured)
    {
      assert approved[i..] == [approved[i]] + approved[i + 1..];
      ghost var rest := MissingFrom(approved[i + 1..], configured);
      if approved[i] !in configured {
        assert (missing + [approved[i]]) + rest == missing + ([approved[i]] + rest);
        missing := missing + [approved[i]];
      } else {
        assert [] + rest == rest;
      }
    }
    assert missing + [] == missing;
  }

  /** The configuration file of one project, with the endings it has on disk. */
  class ProjectConfig {
    var text: Document

    constructor (text: Document)
      ensures this.text == text
    {
      this.text := text;
    }

    /** `interference` is what another program left in the file before the second read, if anything. */
    method RepairLanguages(approved: seq<Language>, interference: Option<Document>)
      returns (result: Result<(bool, seq<Language>)>)
      modifies this
      ensures
        var now := if interference.Some? then interference.value else old(text);
        match Repair(old(text), approved, now)
        case Ok((fixed, added)) =>
          result == Ok((added != [], added)) && text == (if added == [] then old(text) else fixed)
        case Err(e) =>
          result == Err(e) && text == (if e == Concurrent then now else old(text))
    {
      var configured := Configured(text);
      if !configured.List? { return Err(NotAList); }
      var missing := CollectMissing(approved, configured.languages);
      if missing == [] { return Ok((false, [])); }
      var original := Translated(text);
      var updated := RewriteBlock(original, configured.languages + missing);
      if updated.Err? { return Err(updated.error); }
      if interference.Some? { text := interference.value; }
      if Translated(text) != original { return Err(Concurrent); }
      text := updated.value;
      result := Ok((true, missing));
    }
  }
}
