/// Extraction of note blocks from a response (notes.rs): the regular expression as a language, as a scanner, and the
/// printer it inverts.

module NotesExtract {
  import opened Core
  import opened Sessions
  import opened Texts

  const OPEN := "[NOTE:"
  const CLOSE := "[/NOTE]"

  /// The first two capture groups.
  datatype Head = Head(title: string, tagText: Option<string>)

  /// The three capture groups.
  datatype Block = Block(head: Head, content: string)

  datatype Capture = Capture(start: nat, end: nat, block: Block)

  // ----- The language of the expression -----

  function RenderHead(h: Head): string {
    OPEN + h.title + (if h.tagText.Some? then ":" + h.tagText.value else "") + "]"
  }

  function Render(b: Block): string {
    RenderHead(b.head) + b.content + CLOSE
  }

  predicate TitleChars(s: string) {
    forall i | 0 <= i < |s| :: s[i] != ':' && s[i] != ']'
  }

  predicate NoBracket(s: string) {
    forall i | 0 <= i < |s| :: s[i] != ']'
  }

  predicate OneLine(s: string) {
    forall i | 0 <= i < |s| :: s[i] != '\n'
  }

  /// What the groups may hold: \[NOTE:([^:\]]+)(?::([^\]]+))?\](.*?)\[/NOTE\], where the dot is any character but a
  /// newline.
  predicate HeadInLanguage(h: Head) {
    && h.title != "" && TitleChars(h.title)
    && (h.tagText.Some? ==> h.tagText.value != "" && NoBracket(h.tagText.value))
  }

  ghost predicate StandsAt(text: string, start: nat, end: nat, b: Block) {
    start <= end <= |text| && text[start..end] == Render(b) && HeadInLanguage(b.head) && OneLine(b.content)
  }

  // ----- The scanner -----

  lemma FirstOfSlice(text: string, i: nat, j: nat)
    requires i < j <= |text|
    ensures text[i..j] == [text[i]] + text[i + 1..j]
  {
  }

  /// The first position from i on that ends a title.
  function TitleEnd(text: string, i: nat): (j: nat)
    requires i <= |text|
    ensures i <= j <= |text| && TitleChars(text[i..j])
    ensures j < |text| ==> text[j] == ':' || text[j] == ']'
    decreases |text| - i
  {
    if i == |text| || text[i] == ':' || text[i] == ']' then i
    else
      var j := TitleEnd(text, i + 1);
      FirstOfSlice(text, i, j);
      j
  }

  function BracketFrom(text: string, i: nat): (j: nat)
    requires i <= |text|
    ensures i <= j <= |text| && NoBracket(text[i..j])
    ensures j < |text| ==> text[j] == ']'
    decreases |text| - i
  {
    if i == |text| || text[i] == ']' then i
    else
      var j := BracketFrom(text, i + 1);
      FirstOfSlice(text, i, j);
      j
  }

  /// The first closing tag from i on, in the same line.
  function CloseFrom(text: string, i: nat): (at: Option<nat>)
    requires i <= |text|
    ensures at.Some? ==>
      && i <= at.value && OccursAt(text, CLOSE, at.value) && OneLine(text[i..at.value])
      && forall j | i <= j < at.value :: !OccursAt(text, CLOSE, j)
    decreases |text| - i
  {
    if OccursAt(text, CLOSE, i) then Some(i)
    else if i == |text| || text[i] == '\n' then None
    else
      var at := CloseFrom(text, i + 1);
      assert at.Some? ==> text[i..at.value] == [text[i]] + text[i + 1..at.value];
      at
  }

  /// The opening tag, up to and with its bracket, and the position behind it.
  function HeadAt(text: string, i: nat): (found: Option<(Head, nat)>)
    ensures found.Some? ==> i < found.value.1 <= |text|
  {
    if !OccursAt(text, OPEN, i) then None
    else
      var from := i + |OPEN|;
      var titleEnd := TitleEnd(text, from);
      if titleEnd == from || titleEnd == |text| then None
      else if text[titleEnd] == ']' then Some((Head(text[from..titleEnd], None), titleEnd + 1))
      else
        var tagsEnd := BracketFrom(text, titleEnd + 1);
        if tagsEnd == titleEnd + 1 || tagsEnd == |text| then None
        else Some((Head(text[from..titleEnd], Some(text[titleEnd + 1..tagsEnd])), tagsEnd + 1))
  }

  function MatchAt(text: string, i: nat): Option<Capture> {
    match HeadAt(text, i)
    case None => None
    case Some((head, from)) =>
      match CloseFrom(text, from)
      case None => None
      case Some(close) => Some(Capture(i, close + |CLOSE|, Block(head, text[from..close])))
  }

  // ----- The scanner decides the language -----

  lemma Halves(text: string, i: nat, j: nat, k: nat)
    requires i <= j <= k <= |text|
    ensures text[i..k] == text[i..j] + text[j..k]
  {
  }

  lemma FrontOf(text: string, i: nat, end: nat, a: string, b: string)
    requires i <= end <= |text| && text[i..end] == a + b
    ensures i + |a| <= end && text[i..i + |a|] == a && text[i + |a|..end] == b
  {
    assert text[i..i + |a|] == text[i..end][..|a|];
    assert text[i + |a|..end] == text[i..end][|a|..];
  }

  lemma HeadIsSound(text: string, i: nat)
    requires HeadAt(text, i).Some?
    ensures
      var (head, from) := HeadAt(text, i).value;
      text[i..from] == RenderHead(head) && HeadInLanguage(head)
  {
    var titleEnd := TitleEnd(text, i + |OPEN|);
    if text[titleEnd] == ':' {
      AssembleHead(text, i, titleEnd, BracketFrom(text, titleEnd + 1));
    } else {
      AssembleHead(text, i, titleEnd, titleEnd);
    }
  }

  lemma AssembleHead(text: string, i: nat, titleEnd: nat, bracket: nat)
    requires OccursAt(text, OPEN, i) && i + |OPEN| <= titleEnd <= bracket < |text| && text[bracket] == ']'
    requires titleEnd < bracket ==> text[titleEnd] == ':'
    ensures
      var tagText := if titleEnd < bracket then Some(text[titleEnd + 1..bracket]) else None;
      text[i..bracket + 1] == RenderHead(Head(text[i + |OPEN|..titleEnd], tagText))
  {
    Halves(text, i, i + |OPEN|, titleEnd);
    Halves(text, i, titleEnd, bracket);
    Halves(text, i, bracket, bracket + 1);
    assert text[bracket..bracket + 1] == "]";
    if titleEnd < bracket {
      Halves(text, titleEnd, titleEnd + 1, bracket);
      assert text[titleEnd..titleEnd + 1] == ":";
    }
  }

  lemma HeadIsComplete(text: string, i: nat, end: nat, h: Head)
    requires i <= end <= |text| && text[i..end] == RenderHead(h) && HeadInLanguage(h)
    ensures HeadAt(text, i) == Some((h, end))
  {
    hide RenderHead, OccursAt, TitleEnd, BracketFrom, TitleChars, NoBracket;
    HeadPieces(text, i, end, h);
    var from := i + |OPEN|;
    var titleEnd := from + |h.title|;
    TitleEndIs(text, from, titleEnd);
    if h.tagText.Some? {
      BracketIs(text, titleEnd + 1, end - 1);
    }
  }

  lemma FourParts(text: string, i: nat, end: nat, a: string, b: string, c: string, d: string)
    requires i <= end <= |text| && text[i..end] == a + b + c + d
    ensures
      var j, k := i + |a| + |b|, i + |a| + |b| + |c|;
      k <= end && text[i..i + |a|] == a && text[i + |a|..j] == b && text[j..k] == c && text[k..end] == d
  {
    FrontOf(text, i, end, a + b + c, d);
    FrontOf(text, i, end - |d|, a + b, c);
    FrontOf(text, i, end - |d| - |c|, a, b);
  }

  /// The pieces of a rendered opening tag, by position.
  lemma HeadPieces(text: string, i: nat, end: nat, h: Head)
    requires i <= end <= |text| && text[i..end] == RenderHead(h)
    ensures
      var from := i + |OPEN|;
      var titleEnd := from + |h.title|;
      && OccursAt(text, OPEN, i) && titleEnd < end && text[from..titleEnd] == h.title && text[end - 1] == ']'
      && (if h.tagText.Some?
          then titleEnd + 1 < end && text[titleEnd] == ':' && text[titleEnd + 1..end - 1] == h.tagText.value
          else titleEnd == end - 1)
  {
    var tagPart := if h.tagText.Some? then ":" + h.tagText.value else "";
    var titleEnd := i + |OPEN| + |h.title|;
    FourParts(text, i, end, OPEN, h.title, tagPart, "]");
    assert text[end - 1] == text[titleEnd + |tagPart|..end][0];
    if h.tagText.Some? {
      FrontOf(text, titleEnd, end - 1, ":", h.tagText.value);
      assert text[titleEnd] == text[titleEnd..titleEnd + 1][0];
    }
  }

  /// What the scanner finds stands in the text, with the shortest content: no closing tag inside it.
  lemma MatchIsSound(text: string, i: nat)
    requires MatchAt(text, i).Some?
    ensures
      var c := MatchAt(text, i).value;
      c.start == i && i < c.end && StandsAt(text, i, c.end, c.block) && !Contains(c.block.content, CLOSE)
  {
    hide HeadAt, CloseFrom, RenderHead;
    var (head, from) := HeadAt(text, i).value;
    var end := MatchAt(text, i).value.end;
    HeadIsSound(text, i);
    BodyIsSound(text, from, end);
    Halves(text, i, from, end - |CLOSE|);
    Halves(text, i, end - |CLOSE|, end);
  }

  lemma BodyIsSound(text: string, from: nat, end: nat)
    requires from <= |text| && CloseFrom(text, from).Some? && end == CloseFrom(text, from).value + |CLOSE|
    ensures end <= |text| && text[end - |CLOSE|..end] == CLOSE && !Contains(text[from..end - |CLOSE|], CLOSE)
  {
    var content := text[from..end - |CLOSE|];
    forall j: nat | j <= |content| ensures !OccursAt(content, CLOSE, j) {
      if OccursAt(content, CLOSE, j) {
        assert content[j..j + |CLOSE|] == text[from + j..from + j + |CLOSE|];
        assert OccursAt(text, CLOSE, from + j);
      }
    }
  }

  lemma {:induction false} TitleEndIs(text: string, i: nat, j: nat)
    requires i <= j < |text| && TitleChars(text[i..j]) && (text[j] == ':' || text[j] == ']')
    ensures TitleEnd(text, i) == j
    decreases j - i
  {
    if i < j {
      assert text[i..j][0] == text[i] && text[i + 1..j] == text[i..j][1..];
      TitleEndIs(text, i + 1, j);
    }
  }

  lemma {:induction false} BracketIs(text: string, i: nat, j: nat)
    requires i <= j < |text| && NoBracket(text[i..j]) && text[j] == ']'
    ensures BracketFrom(text, i) == j
    decreases j - i
  {
    if i < j {
      assert text[i..j][0] == text[i] && text[i + 1..j] == text[i..j][1..];
      BracketIs(text, i + 1, j);
    }
  }

  lemma {:induction false} CloseIsFound(text: string, i: nat, j: nat)
    requires i <= j && OccursAt(text, CLOSE, j) && OneLine(text[i..j])
    ensures CloseFrom(text, i).Some? && CloseFrom(text, i).value <= j
    decreases j - i
  {
    if i < j && !OccursAt(text, CLOSE, i) {
      assert text[i..j][0] == text[i] && text[i + 1..j] == text[i..j][1..];
      CloseIsFound(text, i + 1, j);
    }
  }

  /// Wherever a block stands, the scanner finds one with the same title and tags and no longer content; so whatever the
  /// expression prefers besides the shortest content makes no difference. Without a closing tag in its content, the
  /// block itself is found.
  lemma MatchIsComplete(text: string, i: nat, end: nat, b: Block)
    requires StandsAt(text, i, end, b)
    ensures MatchAt(text, i).Some?
    ensures
      var c := MatchAt(text, i).value;
      && c.block.head == b.head && |c.block.content| <= |b.content|
      && (!Contains(b.content, CLOSE) ==> c == Capture(i, end, b))
  {
    assert Render(b) == RenderHead(b.head) + (b.content + CLOSE);
    FrontOf(text, i, end, RenderHead(b.head), b.content + CLOSE);
    var from, close := i + |RenderHead(b.head)|, end - |CLOSE|;
    FrontOf(text, from, end, b.content, CLOSE);
    HeadIsComplete(text, i, from, b.head);
    CloseIsFound(text, from, close);
    if !Contains(b.content, CLOSE) {
      FirstClose(text, from, close);
    }
  }

  /// Two occurrences of a tag never overlap: its first character occurs in it only once.
  lemma NoOverlap(text: string, tag: string, p: nat, q: nat)
    requires tag != "" && forall i | 0 < i < |tag| :: tag[i] != tag[0]
    requires OccursAt(text, tag, p) && OccursAt(text, tag, q) && p < q
    ensures p + |tag| <= q
  {
    AtIndex(text, tag, q, 0);
    if q < p + |tag| {
      AtIndex(text, tag, p, q - p);
    }
  }

  lemma AtIndex(text: string, tag: string, p: nat, i: nat)
    requires OccursAt(text, tag, p) && i < |tag|
    ensures text[p + i] == tag[i]
  {
    assert text[p..p + |tag|][i] == text[p + i];
  }

  lemma Shift(text: string, i: nat, end: nat, p: nat, q: nat)
    requires i <= end <= |text| && p <= q <= end - i
    ensures text[i..end][p..q] == text[i + p..i + q]
  {
    assert forall k | 0 <= k < q - p :: text[i..end][p..q][k] == text[i + p..i + q][k];
  }

  lemma OccursInSlice(text: string, part: string, from: nat, until: nat, p: nat)
    requires from <= p && p + |part| <= until <= |text| && OccursAt(text, part, p)
    ensures Contains(text[from..until], part)
  {
    Shift(text, from, until, p - from, p - from + |part|);
    assert OccursAt(text[from..until], part, p - from);
  }

  /// A closing tag cannot begin inside content free of it and end in the tag that follows.
  lemma FirstClose(text: string, from: nat, close: nat)
    requires from <= close && OccursAt(text, CLOSE, close) && OneLine(text[from..close])
      && !Contains(text[from..close], CLOSE)
    ensures CloseFrom(text, from) == Some(close)
  {
    CloseIsFound(text, from, close);
    var found := CloseFrom(text, from).value;
    if found < close {
      NoOverlap(text, CLOSE, found, close);
      OccursInSlice(text, CLOSE, from, close, found);
    }
  }

  // ----- All matches, left to right -----

  function FindFrom(text: string, i: nat): (found: Option<Capture>)
    requires i <= |text|
    decreases |text| - i
  {
    if MatchAt(text, i).Some? then MatchAt(text, i)
    else if i == |text| then None
    else FindFrom(text, i + 1)
  }

  lemma {:induction false} FindIsFirst(text: string, i: nat)
    requires i <= |text|
    ensures
      match FindFrom(text, i)
      case None => forall j: nat | i <= j <= |text| :: MatchAt(text, j).None?
      case Some(c) =>
        && i <= c.start < c.end <= |text| && MatchAt(text, c.start) == Some(c)
        && forall j: nat | i <= j < c.start :: MatchAt(text, j).None?
    decreases |text| - i
  {
    hide MatchAt;
    if MatchAt(text, i).Some? {
      MatchIsSound(text, i);
    } else if i < |text| {
      FindIsFirst(text, i + 1);
    }
  }

  /// The matches from i on; each search starts where the previous match ended.
  function Captures(text: string, i: nat): seq<Capture>
    requires i <= |text|
    decreases |text| - i
  {
    match FindFrom(text, i)
    case None => []
    case Some(c) => if i < c.end <= |text| then [c] + Captures(text, c.end) else []
  }

  /// No block is missed: wherever one stands, its start lies in some match.
  lemma {:induction false} NoBlockIsMissed(text: string, from: nat, i: nat, end: nat, b: Block)
    requires from <= i && StandsAt(text, i, end, b)
    ensures exists k | 0 <= k < |Captures(text, from)| ::
      Captures(text, from)[k].start <= i < Captures(text, from)[k].end
    decreases |text| - from
  {
    hide MatchAt;
    MatchIsComplete(text, i, end, b);
    FindIsFirst(text, from);
    var c := FindFrom(text, from).value;
    if i < c.end {
      assert Captures(text, from)[0] == c;
    } else {
      NoBlockIsMissed(text, c.end, i, end, b);
      var k :| 0 <= k < |Captures(text, c.end)| && Captures(text, c.end)[k].start <= i < Captures(text, c.end)[k].end;
      assert Captures(text, from)[k + 1] == Captures(text, c.end)[k];
    }
  }

  // ----- From captures to notes -----

  function NonEmptyTrimmed(parts: seq<string>): seq<string> {
    if parts == [] then []
    else
      var earlier, last := NonEmptyTrimmed(parts[..|parts| - 1]), Trim(parts[|parts| - 1]);
      if last == "" then earlier else earlier + [last]
  }

  function ParseTags(tagText: Option<string>): seq<string> {
    match tagText
    case None => []
    case Some(text) => NonEmptyTrimmed(SplitOn(text, ','))
  }

  /// A block with blank content is passed over.
  function NotesOf(blocks: seq<Block>): seq<Note> {
    if blocks == [] then []
    else
      var earlier, last := NotesOf(blocks[..|blocks| - 1]), blocks[|blocks| - 1];
      var content := Trim(last.content);
      if content == "" then earlier else earlier + [Note(last.head.title, content, ParseTags(last.head.tagText))]
  }

  function BlocksOf(captures: seq<Capture>): (blocks: seq<Block>)
    ensures |blocks| == |captures| && forall i | 0 <= i < |blocks| :: blocks[i] == captures[i].block
  {
    seq(|captures|, i requires 0 <= i < |captures| => captures[i].block)
  }

  function NotesIn(response: string): seq<Note> {
    NotesOf(BlocksOf(Captures(response, 0)))
  }

  method ExtractNotesFromResponse(session: Session, response: string) returns (count: nat)
    modifies session`notes
    ensures session.notes == SaveAll(old(session.notes), NotesIn(response)) && count == |NotesIn(response)|
  {
    count := 0;
    var at: nat := 0;
    var next := FindFrom(response, 0);
    ghost var done: seq<Block> := [];
    while next.Some?
      invariant at <= |response| && next == FindFrom(response, at)
      invariant BlocksOf(Captures(response, 0)) == done + BlocksOf(Captures(response, at))
      invariant session.notes == SaveAll(old(session.notes), NotesOf(done)) && count == |NotesOf(done)|
      decreases |response| - at
    {
      hide FindFrom;
      FindIsFirst(response, at);
      var c := next.value;
      var tags := ParseTags(c.block.head.tagText);
      var content := Trim(c.block.content);
      NextCapture(response, at, done);
      TakeBlock(session.notes, old(session.notes), done, c.block);
      if content != "" {
        session.SaveNote(c.block.head.title, content, tags);
        count := count + 1;
      }
      done := done + [c.block];
      at := c.end;
      next := FindFrom(response, at);
    }
    assert done + [] == done;
  }

  lemma NextCapture(response: string, at: nat, done: seq<Block>)
    requires at <= |response| && FindFrom(response, at).Some?
    ensures
      var c := FindFrom(response, at).value;
      at < c.end <= |response|
        && done + BlocksOf(Captures(response, at)) == done + [c.block] + BlocksOf(Captures(response, c.end))
  {
    hide FindFrom, MatchAt, BlocksOf;
    FindIsFirst(response, at);
    var c := FindFrom(response, at).value;
    var later := Captures(response, c.end);
    assert Captures(response, at) == [c] + later;
    FirstBlock(c, later);
    assert done + ([c.block] + BlocksOf(later)) == done + [c.block] + BlocksOf(later);
  }

  lemma FirstBlock(c: Capture, rest: seq<Capture>)
    ensures BlocksOf([c] + rest) == [c.block] + BlocksOf(rest)
  {
  }

  lemma TakeBlock(notes: seq<Note>, before: seq<Note>, done: seq<Block>, b: Block)
    requires notes == SaveAll(before, NotesOf(done))
    ensures
      var note := Note(b.head.title, Trim(b.content), ParseTags(b.head.tagText));
      if note.content == "" then NotesOf(done + [b]) == NotesOf(done)
      else
        && |NotesOf(done + [b])| == |NotesOf(done)| + 1
        && SaveAll(before, NotesOf(done + [b])) == Saved(notes, note)
  {
    assert (done + [b])[..|done|] == done;
    var note := Note(b.head.title, Trim(b.content), ParseTags(b.head.tagText));
    assert (NotesOf(done) + [note])[..|NotesOf(done)|] == NotesOf(done);
  }

  // ----- Printing and reading back -----

  /// Blocks with text between them.
  function Document(fillers: seq<string>, blocks: seq<Block>): string
    requires |fillers| == |blocks| + 1
  {
    if blocks == [] then fillers[0] else fillers[0] + Render(blocks[0]) + Document(fillers[1..], blocks[1..])
  }

  predicate Printable(b: Block) {
    HeadInLanguage(b.head) && OneLine(b.content) && !Contains(b.content, CLOSE)
  }

  /// No match starts in a filler, not even one that runs into the block behind it.
  lemma NoMatchInFiller(text: string, from: nat, start: nat, j: nat)
    requires from <= j < start <= |text| && !Contains(text[from..start], OPEN)
    requires start == |text| || OccursAt(text, OPEN, start)
    ensures MatchAt(text, j).None?
  {
    if OccursAt(text, OPEN, j) {
      if start < |text| {
        NoOverlap(text, OPEN, j, start);
      }
      OccursInSlice(text, OPEN, from, start, j);
    }
  }

  lemma NextBlock(text: string, from: nat, start: nat, end: nat, b: Block)
    requires from <= start && StandsAt(text, start, end, b) && Printable(b) && !Contains(text[from..start], OPEN)
    ensures FindFrom(text, from) == Some(Capture(start, end, b))
  {
    hide MatchAt, FindFrom;
    MatchIsComplete(text, start, end, b);
    OpenOf(text, start, end, b);
    forall j: nat | from <= j < start ensures MatchAt(text, j).None? {
      NoMatchInFiller(text, from, start, j);
    }
    FindIsFirst(text, from);
  }

  lemma OpenOf(text: string, start: nat, end: nat, b: Block)
    requires start <= end <= |text| && text[start..end] == Render(b)
    ensures OccursAt(text, OPEN, start)
  {
    FrontOf(text, start, end, RenderHead(b.head), b.content + CLOSE);
    HeadPieces(text, start, start + |RenderHead(b.head)|, b.head);
  }

  lemma NoMoreBlocks(text: string, from: nat)
    requires from <= |text| && !Contains(text[from..], OPEN)
    ensures FindFrom(text, from).None?
  {
    hide MatchAt, FindFrom;
    assert text[from..|text|] == text[from..];
    FindIsFirst(text, from);
    if FindFrom(text, from).Some? {
      NoMatchInFiller(text, from, |text|, FindFrom(text, from).value.start);
    }
  }

  /// Reading back what was printed gives exactly the blocks, in order.
  lemma {:induction false} ReadingInvertsPrinting(text: string, from: nat, fillers: seq<string>, blocks: seq<Block>)
    requires |fillers| == |blocks| + 1 && from <= |text| && text[from..] == Document(fillers, blocks)
    requires forall i | 0 <= i < |fillers| :: !Contains(fillers[i], OPEN)
    requires forall i | 0 <= i < |blocks| :: Printable(blocks[i])
    ensures BlocksOf(Captures(text, from)) == blocks
    decreases |blocks|
  {
    hide MatchAt, FindFrom, Render;
    if blocks == [] {
      NoMoreBlocks(text, from);
    } else {
      var start := from + |fillers[0]|;
      var end := start + |Render(blocks[0])|;
      var rest := Document(fillers[1..], blocks[1..]);
      assert text[from..|text|] == text[from..];
      FrontOf(text, from, |text|, fillers[0] + Render(blocks[0]), rest);
      FrontOf(text, from, end, fillers[0], Render(blocks[0]));
      NextBlock(text, from, start, end, blocks[0]);
      FindIsFirst(text, from);
      assert text[end..] == text[end..|text|];
      ReadingInvertsPrinting(text, end, fillers[1..], blocks[1..]);
      assert Captures(text, from) == [Capture(start, end, blocks[0])] + Captures(text, end);
    }
  }

  // ----- Notes -----

  /// The notes the printed form can carry.
  predicate PlainNote(n: Note) {
    && n.title != "" && TitleChars(n.title)
    && n.content != "" && Trimmed(n.content) && OneLine(n.content) && !Contains(n.content, CLOSE)
    && forall i | 0 <= i < |n.tags| :: PlainTag(n.tags[i])
  }

  predicate PlainTag(tag: string) {
    tag != "" && Trimmed(tag) && FreeOf(tag, ',') && NoBracket(tag)
  }

  function BlockOf(n: Note): Block {
    Block(Head(n.title, if n.tags == [] then None else Some(JoinWith(n.tags, ","))), n.content)
  }

  lemma {:induction false} PlainTagsStay(tags: seq<string>)
    requires forall i | 0 <= i < |tags| :: PlainTag(tags[i])
    ensures NonEmptyTrimmed(tags) == tags
  {
    hide Trim, Trimmed;
    if tags != [] {
      PlainTagsStay(tags[..|tags| - 1]);
      var _, _ := TrimParts(tags[|tags| - 1]);
    }
  }

  lemma {:induction false} JoinedTags(tags: seq<string>)
    requires tags != [] && forall i | 0 <= i < |tags| :: PlainTag(tags[i])
    ensures JoinWith(tags, ",") != "" && NoBracket(JoinWith(tags, ","))
  {
    if |tags| > 1 {
      JoinedTags(tags[..|tags| - 1]);
    }
  }

  /// A plain note survives being printed as a block and read as a note.
  lemma PlainNoteReadsBack(n: Note)
    requires PlainNote(n)
    ensures Printable(BlockOf(n)) && Trim(BlockOf(n).content) == n.content
      && ParseTags(BlockOf(n).head.tagText) == n.tags
  {
    var _, _ := TrimParts(n.content);
    if n.tags != [] {
      JoinedTags(n.tags);
      SplitOfJoin(n.tags, ',');
      PlainTagsStay(n.tags);
    }
  }

  function Printed(notes: seq<Note>): (blocks: seq<Block>)
    ensures |blocks| == |notes| && forall i | 0 <= i < |notes| :: blocks[i] == BlockOf(notes[i])
  {
    seq(|notes|, i requires 0 <= i < |notes| => BlockOf(notes[i]))
  }

  lemma {:induction false} PlainNotesReadBack(notes: seq<Note>)
    requires forall i | 0 <= i < |notes| :: PlainNote(notes[i])
    ensures NotesOf(Printed(notes)) == notes
  {
    if notes != [] {
      var front := notes[..|notes| - 1];
      assert Printed(notes)[..|notes| - 1] == Printed(front);
      PlainNotesReadBack(front);
      PlainNoteReadsBack(notes[|notes| - 1]);
    }
  }

  /// Extraction inverts printing: a text of printed notes, with anything but an opening tag between them, yields
  /// exactly these notes in order.
  lemma ExtractionInvertsPrinting(fillers: seq<string>, notes: seq<Note>)
    requires |fillers| == |notes| + 1 && forall i | 0 <= i < |fillers| :: !Contains(fillers[i], OPEN)
    requires forall i | 0 <= i < |notes| :: PlainNote(notes[i])
    ensures NotesIn(Document(fillers, Printed(notes))) == notes
  {
    var text := Document(fillers, Printed(notes));
    forall i | 0 <= i < |notes| ensures Printable(Printed(notes)[i]) {
      PlainNoteReadsBack(notes[i]);
    }
    assert text[0..] == text;
    ReadingInvertsPrinting(text, 0, fillers, Printed(notes));
    PlainNotesReadBack(notes);
  }

  /// Notes with new titles are appended as they are.
  lemma {:induction false} SaveAllNew(notes: seq<Note>, found: seq<Note>)
    requires UniqueTitles(notes + found)
    ensures SaveAll(notes, found) == notes + found
  {
    if found != [] {
      var front, last := found[..|found| - 1], found[|found| - 1];
      var all, most := notes + found, notes + front;
      assert all == most + [last];
      assert forall i | 0 <= i < |most| :: most[i] == all[i];
      forall i, j | 0 <= i < j < |most| ensures most[i].title != most[j].title {
        assert all[i].title != all[j].title;
      }
      SaveAllNew(notes, front);
      forall i | 0 <= i < |most| ensures most[i].title != last.title {
        assert all[i].title != all[|most|].title;
      }
    } else {
      assert notes + found == notes;
    }
  }
}
