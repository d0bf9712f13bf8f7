/// Compaction of the structured notes (notes.rs).

module NotesCompact {
  import opened Core
  import opened Sessions
  import opened Texts

  datatype NoteCompactionConfig = NoteCompactionConfig(maxNotes: nat, keepRecent: nat, enabled: bool) {
    predicate NeedsCompaction(noteCount: nat) {
      enabled && noteCount > maxNotes
    }
  }

  const STALE_TITLES := ["_compacted", "_compact_summary", "_compact_actions", "_compact_decisions",
    "_compact_questions"]

  /// The drain of the older notes reaches past the end of the list.
  datatype Panic = DrainOutOfRange(end: nat, len: nat)

  datatype Category = Summaries | Actions | Decisions | Questions | Uncategorized

  const FORMAT_TAGS := ["summary", "action_items", "decisions", "open_questions"]

  function CategoryOf(note: Note): Category {
    if "summary" in note.tags then Summaries
    else if "action_items" in note.tags then Actions
    else if "decisions" in note.tags then Decisions
    else if "open_questions" in note.tags then Questions
    else Uncategorized
  }

  function Line(note: Note): string {
    "- " + note.title + ": " + note.content
  }

  function Lines(notes: seq<Note>, category: Category): seq<string> {
    if notes == [] then []
    else
      var earlier, last := Lines(notes[..|notes| - 1], category), notes[|notes| - 1];
      if CategoryOf(last) == category then earlier + [Line(last)] else earlier
  }

  function Section(heading: string, lines: seq<string>): seq<string> {
    if lines == [] then [] else [heading + ":\n" + JoinWith(lines, "\n")]
  }

  function Sections(older: seq<Note>): seq<string> {
    Section("Summaries", Lines(older, Summaries)) + Section("Actions", Lines(older, Actions))
    + Section("Decisions", Lines(older, Decisions)) + Section("Questions", Lines(older, Questions))
    + Section("Other", Lines(older, Uncategorized))
  }

  function CompactedNote(older: seq<Note>, keep: nat): Note {
    var header := "Compacted " + Decimal(|older|) + " notes (" + Decimal(keep) + " kept recent). Details:\n\n";
    Note("_compacted", header + JoinWith(Sections(older), "\n\n"), ["_system"])
  }

  function Keep(n: nat, config: NoteCompactionConfig): (keep: nat)
    ensures keep <= n
  {
    if config.keepRecent < n then config.keepRecent else n
  }

  predicate Fires(n: nat, config: NoteCompactionConfig) {
    config.NeedsCompaction(n) && Keep(n, config) < n
  }

  /// The code removes the stale compaction notes after it has computed how many notes to drain.
  method CompactWithConfig(session: Session, config: NoteCompactionConfig) returns (r: Result<nat, Panic>)
    modifies session`notes
    ensures
      var notes, rest := old(session.notes), Without(old(session.notes), STALE_TITLES);
      var keep := Keep(|notes|, config);
      var olderCount := |notes| - keep;
      if !Fires(|notes|, config) then r == Ok(0) && session.notes == notes
      else if olderCount > |rest| then r == Err(DrainOutOfRange(olderCount, |rest|)) && session.notes == rest
      else r == Ok(olderCount) && session.notes == [CompactedNote(rest[..olderCount], keep)] + rest[olderCount..]
  {
    if !config.NeedsCompaction(|session.notes|) {
      return Ok(0);
    }
    var total := |session.notes|;
    var keep := Keep(total, config);
    var olderCount := total - keep;
    if olderCount == 0 {
      return Ok(0);
    }
    DeleteTitles(session, STALE_TITLES);
    if olderCount > |session.notes| {
      return Err(DrainOutOfRange(olderCount, |session.notes|));
    }
    var older := session.notes[..olderCount];
    session.notes := session.notes[olderCount..];
    var allParts := Categorize(older);
    if allParts != [] {
      var header := "Compacted " + Decimal(|older|) + " notes (" + Decimal(keep) + " kept recent). Details:\n\n";
      session.notes := [Note("_compacted", header + JoinWith(allParts, "\n\n"), ["_system"])] + session.notes;
    } else {
      SomeSection(older);
      assert false;
    }
    r := Ok(|older|);
  }

  method DeleteTitles(session: Session, titles: seq<string>)
    modifies session`notes
    ensures session.notes == Without(old(session.notes), titles)
  {
    ghost var before := session.notes;
    WithoutNone(before);
    for i := 0 to |titles|
      invariant session.notes == Without(before, titles[..i])
    {
      WithoutEach(before, titles[..i], titles[i]);
      assert titles[..i + 1] == titles[..i] + [titles[i]];
      var _ := session.DeleteNote(titles[i]);
    }
    assert titles[..|titles|] == titles;
  }

  /// The branch for other known format tags is never taken.
  method Categorize(older: seq<Note>) returns (allParts: seq<string>)
    ensures allParts == Sections(older)
  {
    var summaries, actions, decisions, questions, others := [], [], [], [], [];
    for i := 0 to |older|
      invariant summaries == Lines(older[..i], Summaries) && actions == Lines(older[..i], Actions)
      invariant decisions == Lines(older[..i], Decisions) && questions == Lines(older[..i], Questions)
      invariant others == Lines(older[..i], Uncategorized)
    {
      assert older[..i + 1][..i] == older[..i];
      var note := older[i];
      var line := "- " + note.title + ": " + note.content;
      if "summary" in note.tags {
        summaries := summaries + [line];
      } else if "action_items" in note.tags {
        actions := actions + [line];
      } else if "decisions" in note.tags {
        decisions := decisions + [line];
      } else if "open_questions" in note.tags {
        questions := questions + [line];
      } else if exists tag | tag in note.tags :: tag in FORMAT_TAGS {
        assert false;
      } else {
        others := others + [line];
      }
    }
    assert older[..|older|] == older;
    allParts := Section("Summaries", summaries) + Section("Actions", actions) + Section("Decisions", decisions)
      + Section("Questions", questions) + Section("Other", others);
  }

  // ----- Nothing drained is lost -----

  lemma SomeSection(older: seq<Note>)
    requires older != []
    ensures Sections(older) != []
  {
    var category := CategoryOf(older[|older| - 1]);
    assert Lines(older, category) != [];
  }

  lemma {:induction false} LineIsListed(older: seq<Note>, k: nat)
    requires k < |older|
    ensures exists j | 0 <= j < |Lines(older, CategoryOf(older[k]))| ::
      Lines(older, CategoryOf(older[k]))[j] == Line(older[k])
  {
    var front, category := older[..|older| - 1], CategoryOf(older[k]);
    if k == |older| - 1 {
      assert Lines(older, category)[|Lines(front, category)|] == Line(older[k]);
    } else {
      LineIsListed(front, k);
      var j :| 0 <= j < |Lines(front, category)| && Lines(front, category)[j] == Line(older[k]);
      assert Lines(older, category)[j] == Line(older[k]);
    }
  }

  function LabelOf(category: Category): string {
    match category
    case Summaries => "Summaries"
    case Actions => "Actions"
    case Decisions => "Decisions"
    case Questions => "Questions"
    case Uncategorized => "Other"
  }

  lemma SectionContains(heading: string, lines: seq<string>, j: nat)
    requires j < |lines|
    ensures Section(heading, lines) != [] && Contains(Section(heading, lines)[0], lines[j])
  {
    JoinContains(lines, "\n", j);
    ContainsInside(heading + ":\n", JoinWith(lines, "\n"), "", lines[j]);
    assert heading + ":\n" + JoinWith(lines, "\n") + "" == Section(heading, lines)[0];
  }

  lemma FirstsOfParts<T>(a: seq<T>, b: seq<T>, c: seq<T>, d: seq<T>, e: seq<T>)
    ensures
      var whole := a + b + c + d + e;
      && (a != [] ==> whole[0] == a[0]) && (b != [] ==> whole[|a|] == b[0])
      && (c != [] ==> whole[|a| + |b|] == c[0]) && (d != [] ==> whole[|a| + |b| + |c|] == d[0])
      && (e != [] ==> whole[|a| + |b| + |c| + |d|] == e[0])
  {
  }

  lemma SectionIsListed(older: seq<Note>, category: Category) returns (i: nat)
    requires Lines(older, category) != []
    ensures i < |Sections(older)| && Sections(older)[i] == Section(LabelOf(category), Lines(older, category))[0]
  {
    hide Lines;
    var a, b := Section("Summaries", Lines(older, Summaries)), Section("Actions", Lines(older, Actions));
    var c, d := Section("Decisions", Lines(older, Decisions)), Section("Questions", Lines(older, Questions));
    var e := Section("Other", Lines(older, Uncategorized));
    FirstsOfParts(a, b, c, d, e);
    i := match category
      case Summaries => 0
      case Actions => |a|
      case Decisions => |a| + |b|
      case Questions => |a| + |b| + |c|
      case Uncategorized => |a| + |b| + |c| + |d|;
  }

  /// Every drained note is found again, title and content, in the text of the _compacted note.
  lemma NothingDrainedIsLost(older: seq<Note>, keep: nat, k: nat)
    requires k < |older|
    ensures Contains(CompactedNote(older, keep).content, Line(older[k]))
  {
    var category := CategoryOf(older[k]);
    LineIsListed(older, k);
    var j :| 0 <= j < |Lines(older, category)| && Lines(older, category)[j] == Line(older[k]);
    SectionContains(LabelOf(category), Lines(older, category), j);
    var i := SectionIsListed(older, category);
    JoinContains(Sections(older), "\n\n", i);
    var header := "Compacted " + Decimal(|older|) + " notes (" + Decimal(keep) + " kept recent). Details:\n\n";
    ContainsIsTransitive(JoinWith(Sections(older), "\n\n"), Sections(older)[i], Line(older[k]));
    ContainsInside(header, JoinWith(Sections(older), "\n\n"), "", Line(older[k]));
    assert header + JoinWith(Sections(older), "\n\n") + "" == CompactedNote(older, keep).content;
  }

  /// The categories partition the drained notes.
  lemma {:induction false} CategoriesPartition(older: seq<Note>)
    ensures |Lines(older, Summaries)| + |Lines(older, Actions)| + |Lines(older, Decisions)|
      + |Lines(older, Questions)| + |Lines(older, Uncategorized)| == |older|
  {
    if older != [] {
      CategoriesPartition(older[..|older| - 1]);
    }
  }

  // ----- What is kept -----

  predicate NoStale(notes: seq<Note>) {
    Without(notes, STALE_TITLES) == notes
  }

  lemma {:induction false} WithoutConcat(a: seq<Note>, b: seq<Note>, titles: seq<string>)
    ensures Without(a + b, titles) == Without(a, titles) + Without(b, titles)
  {
    if b == [] {
      assert a + b == a;
    } else {
      assert (a + b)[..|a + b| - 1] == a + b[..|b| - 1];
      WithoutConcat(a, b[..|b| - 1], titles);
    }
  }

  lemma {:induction false} FullLengthMeansNoneStale(notes: seq<Note>, titles: seq<string>)
    ensures |Without(notes, titles)| == |notes| <==> Without(notes, titles) == notes
  {
    if notes != [] {
      FullLengthMeansNoneStale(notes[..|notes| - 1], titles);
    }
  }

  /// With k stale notes the call needs k <= keep, and then keeps the last keep - k notes that are not stale. The recent
  /// notes all stay exactly when there was no stale note; the recent notes that are not stale themselves all stay
  /// exactly when no stale note stands before the boundary.
  lemma RecentPreservedExactly(notes: seq<Note>, config: NoteCompactionConfig)
    requires Fires(|notes|, config)
    ensures
      var rest, keep := Without(notes, STALE_TITLES), Keep(|notes|, config);
      var stale, olderCount := |notes| - |rest|, |notes| - keep;
      && (olderCount > |rest| <==> stale > keep)
      && (stale <= keep ==>
            && |rest[olderCount..]| == keep - stale
            && (rest[olderCount..] == notes[olderCount..] <==> stale == 0)
            && (rest[olderCount..] == Without(notes[olderCount..], STALE_TITLES) <==> NoStale(notes[..olderCount])))
  {
    var olderCount := |notes| - Keep(|notes|, config);
    var front, recent := notes[..olderCount], notes[olderCount..];
    assert notes == front + recent;
    WithoutConcat(front, recent, STALE_TITLES);
    FullLengthMeansNoneStale(notes, STALE_TITLES);
    FullLengthMeansNoneStale(front, STALE_TITLES);
  }

  /// What a compaction leaves: one _compacted note in front, no other stale note.
  ghost predicate Compacted(notes: seq<Note>) {
    notes != [] && notes[0].title == "_compacted" && NoStale(notes[1..])
  }

  lemma CompactionLeaves(notes: seq<Note>, older: seq<Note>, n: nat, keep: nat)
    requires n <= |Without(notes, STALE_TITLES)|
    ensures Compacted([CompactedNote(older, keep)] + Without(notes, STALE_TITLES)[n..])
  {
    var rest := Without(notes, STALE_TITLES);
    var after := [CompactedNote(older, keep)] + rest[n..];
    assert after[1..] == rest[n..];
    WithoutUnaffected(rest[n..], STALE_TITLES);
  }

  /// Titles stay unique.
  lemma CompactionKeepsUnique(notes: seq<Note>, older: seq<Note>, n: nat, keep: nat)
    requires UniqueTitles(notes) && n <= |Without(notes, STALE_TITLES)|
    ensures UniqueTitles([CompactedNote(older, keep)] + Without(notes, STALE_TITLES)[n..])
  {
    WithoutKeepsUnique(notes, STALE_TITLES);
    FirstIsNew(Without(notes, STALE_TITLES)[n..], CompactedNote(older, keep));
  }

  lemma FirstIsNew(rest: seq<Note>, first: Note)
    requires UniqueTitles(rest) && forall i | 0 <= i < |rest| :: rest[i].title != first.title
    ensures UniqueTitles([first] + rest)
  {
  }

  /// Saving a note that is not a stale one leaves the compacted note in front and brings no other stale note.
  lemma SavingKeepsCompacted(notes: seq<Note>, note: Note)
    requires Compacted(notes) && note.title !in STALE_TITLES
    ensures Compacted(Saved(notes, note))
  {
    assert STALE_TITLES[0] == "_compacted";
    hide STALE_TITLES, Without;
    var after := Saved(notes, note);
    forall i | 0 <= i < |after| - 1 ensures after[1..][i].title !in STALE_TITLES {
      if i + 1 < |notes| {
        NotStale(notes[1..], i);
      }
    }
    WithoutUnaffected(after[1..], STALE_TITLES);
  }

  lemma NotStale(notes: seq<Note>, i: nat)
    requires NoStale(notes) && i < |notes|
    ensures notes[i].title !in STALE_TITLES
  {
    hide STALE_TITLES;
  }

  lemma {:induction false} SavingAllKeepsCompacted(notes: seq<Note>, found: seq<Note>)
    requires Compacted(notes) && forall i | 0 <= i < |found| :: found[i].title !in STALE_TITLES
    ensures Compacted(SaveAll(notes, found))
  {
    hide Compacted;
    if found != [] {
      SavingAllKeepsCompacted(notes, found[..|found| - 1]);
      SavingKeepsCompacted(SaveAll(notes, found[..|found| - 1]), found[|found| - 1]);
    }
  }

  /// Every later compaction therefore keeps one note fewer than keep_recent, whatever has been saved since the last
  /// one, and fails when keep_recent is 0.
  lemma LaterCompactionsLoseOne(left: seq<Note>, found: seq<Note>, config: NoteCompactionConfig)
    requires Compacted(left) && forall i | 0 <= i < |found| :: found[i].title !in STALE_TITLES
    requires Fires(|SaveAll(left, found)|, config)
    ensures
      var notes := SaveAll(left, found);
      var rest, keep := Without(notes, STALE_TITLES), Keep(|notes|, config);
      var olderCount := |notes| - keep;
      && (olderCount > |rest| <==> config.keepRecent == 0)
      && (config.keepRecent > 0 ==> rest[olderCount..] == notes[olderCount + 1..])
  {
    hide SaveAll, Compacted, Without, NoStale;
    SavingAllKeepsCompacted(left, found);
    OnlyTheFirstIsStale(SaveAll(left, found));
  }

  lemma OnlyTheFirstIsStale(notes: seq<Note>)
    requires Compacted(notes)
    ensures notes != [] && Without(notes, STALE_TITLES) == notes[1..]
  {
    assert STALE_TITLES[0] == "_compacted";
    hide STALE_TITLES, Without;
    FirstRemoved(notes, STALE_TITLES);
  }

  function Plain(title: string): Note {
    Note(title, "", [])
  }

  lemma TwoOfThree()
    ensures
      var notes := [Plain("_compacted"), Plain("a"), Plain("b")];
      Compacted(notes) && Without(notes, STALE_TITLES) == [Plain("a"), Plain("b")]
  {
    var notes := [Plain("_compacted"), Plain("a"), Plain("b")];
    assert notes[1..] == [Plain("a"), Plain("b")];
    FullLengthMeansNoneStale(notes[1..], STALE_TITLES);
    FirstRemoved(notes, STALE_TITLES);
  }

  /// Of these three notes the most recent one is to be kept; but no note is.
  lemma RecentNoteIsLost()
    ensures
      var notes, config := [Plain("_compacted"), Plain("a"), Plain("b")], NoteCompactionConfig(2, 1, true);
      && Fires(|notes|, config)
      && Without(notes, STALE_TITLES)[|notes| - Keep(|notes|, config)..] == []
  {
    TwoOfThree();
  }

  /// Of these three notes none is to be kept; three are to be drained from the two that are left.
  lemma DrainIsOutOfRange()
    ensures
      var notes, config := [Plain("_compacted"), Plain("a"), Plain("b")], NoteCompactionConfig(2, 0, true);
      Fires(|notes|, config) && |notes| - Keep(|notes|, config) > |Without(notes, STALE_TITLES)|
  {
    TwoOfThree();
  }

  lemma FirstRemoved(notes: seq<Note>, titles: seq<string>)
    requires notes != [] && titles != [] && notes[0].title == titles[0]
    ensures Without(notes, titles) == Without(notes[1..], titles)
  {
    assert notes == [notes[0]] + notes[1..];
    WithoutConcat([notes[0]], notes[1..], titles);
    AllRemoved([notes[0]], titles);
  }

  // ----- Notes extracted while a history is compacted -----

  const COMPACTION_TITLES := ["_compaction_summary", "_compaction_actions", "_compaction_decisions",
    "_compaction_questions"]

  const ACTION_PATTERNS := ["need to", "should", "todo", "must", "follow up", "action item"]
  const DECISION_PATTERNS := ["decided", "chose", "will use", "agreed", "going with", "let's use"]
  const MOST_FINDINGS := 5

  datatype Kind = Topic | Action | Decision | Question

  predicate MentionsAny(text: string, patterns: seq<string>) {
    exists p | p in patterns :: Contains(text, p)
  }

  /// The lines of one message that count as findings of a kind; `lower` is the lower-casing of the runtime.
  function LinesFound(lines: seq<string>, kind: Kind, lower: string -> string): seq<string>
    requires !kind.Topic?
  {
    if lines == [] then []
    else
      var earlier, line := LinesFound(lines[..|lines| - 1], kind, lower), lines[|lines| - 1];
      var counts := match kind
        case Action => MentionsAny(lower(line), ACTION_PATTERNS) && Trim(line) != ""
        case Decision => MentionsAny(lower(line), DECISION_PATTERNS) && Trim(line) != ""
        case Question => Trim(line) != "" && Trim(line)[|Trim(line)| - 1] == '?';
      if counts then earlier + [Trim(line)] else earlier
  }

  predicate Speaks(role: MessageRole, kind: Kind) {
    match kind
    case Topic => role == User
    case Action => role == Assistant
    case Decision => role == Assistant || role == User
    case Question => role == User
  }

  function FoundInMessage(m: SessionEntry, kind: Kind, lower: string -> string): seq<string> {
    var lines := TextLines(m.content);
    if !Speaks(m.role, kind) then []
    else if kind.Topic? then (if lines != [] && lines[0] != "" then [lines[0]] else [])
    else LinesFound(lines, kind, lower)
  }

  function FoundIn(messages: seq<SessionEntry>, kind: Kind, lower: string -> string): seq<string> {
    if messages == [] then []
    else FoundIn(messages[..|messages| - 1], kind, lower) + FoundInMessage(messages[|messages| - 1], kind, lower)
  }

  function FirstFive(found: seq<string>): seq<string> {
    if |found| > MOST_FINDINGS then found[..MOST_FINDINGS] else found
  }

  /// The texts found in the discarded messages, one for each format.
  datatype Findings = Findings(
    summary: Option<string>, actions: Option<string>, decisions: Option<string>, questions: Option<string>)
  {
    function Text(i: nat): Option<string>
      requires i < 4
    {
      if i == 0 then summary else if i == 1 then actions else if i == 2 then decisions else questions
    }
  }

  function Listed(found: seq<string>, heading: string, separator: string): Option<string> {
    if found == [] then None else Some(heading + JoinWith(FirstFive(found), separator))
  }

  function FindingsIn(messages: seq<SessionEntry>, lower: string -> string): Findings {
    Findings(
      Listed(FoundIn(messages, Topic, lower), "Discussed: ", "; "),
      Listed(FoundIn(messages, Action, lower), "", "\n"),
      Listed(FoundIn(messages, Decision, lower), "", "\n"),
      Listed(FoundIn(messages, Question, lower), "", "\n"))
  }

  lemma {:induction false} LinesFoundAreLines(lines: seq<string>, kind: Kind, lower: string -> string, j: nat)
    returns (k: nat)
    requires !kind.Topic? && j < |LinesFound(lines, kind, lower)|
    ensures k < |lines| && LinesFound(lines, kind, lower)[j] == Trim(lines[k])
  {
    hide MentionsAny;
    var front := lines[..|lines| - 1];
    if j < |LinesFound(front, kind, lower)| {
      k := LinesFoundAreLines(front, kind, lower, j);
    } else {
      k := |lines| - 1;
    }
  }

  /// Nothing is made up: every finding stands word for word in a discarded message of a role that may speak for it.
  lemma {:induction false} FindingsAreVerbatim(messages: seq<SessionEntry>, kind: Kind, lower: string -> string, j: nat)
    returns (i: nat)
    requires j < |FoundIn(messages, kind, lower)|
    ensures i < |messages| && Speaks(messages[i].role, kind)
      && Contains(messages[i].content, FoundIn(messages, kind, lower)[j])
    decreases |messages|
  {
    hide LinesFound, TextLines;
    var n := |messages| - 1;
    var earlier := FoundIn(messages[..n], kind, lower);
    if j < |earlier| {
      i := FindingsAreVerbatim(messages[..n], kind, lower, j);
    } else {
      i := n;
      OneMessageIsVerbatim(messages[n], kind, lower, j - |earlier|);
    }
  }

  lemma OneMessageIsVerbatim(m: SessionEntry, kind: Kind, lower: string -> string, j: nat)
    requires j < |FoundInMessage(m, kind, lower)|
    ensures Speaks(m.role, kind) && Contains(m.content, FoundInMessage(m, kind, lower)[j])
  {
    hide LinesFound, TextLines, Trim;
    if kind.Topic? {
      LineStandsInText(m.content, 0);
    } else {
      var k := LinesFoundAreLines(TextLines(m.content), kind, lower, j);
      LineStandsInText(m.content, k);
    }
  }

  /// The first n findings as notes.
  function FoundNotes(found: Findings, n: nat): (notes: seq<Note>)
    requires n <= 4
    ensures |notes| <= n
  {
    if n == 0 then []
    else if found.Text(n - 1).None? then FoundNotes(found, n - 1)
    else
      var tags := [FORMAT_TAGS[n - 1], "_system"];
      FoundNotes(found, n - 1) + [Note(COMPACTION_TITLES[n - 1], found.Text(n - 1).value, tags)]
  }

  function Extracted(notes: seq<Note>, found: Findings): seq<Note> {
    Without(notes, COMPACTION_TITLES) + FoundNotes(found, 4)
  }

  method ExtractCompactionNotes(session: Session, oldMessages: seq<SessionEntry>, lower: string -> string)
    returns (count: nat)
    modifies session`notes
    ensures session.notes == Extracted(old(session.notes), FindingsIn(oldMessages, lower))
    ensures count == |FoundNotes(FindingsIn(oldMessages, lower), 4)|
  {
    ghost var before := session.notes;
    DeleteTitles(session, COMPACTION_TITLES);
    var found := FindingsIn(oldMessages, lower);
    hide FindingsIn;
    count := 0;
    for i := 0 to 4
      invariant session.notes == Without(before, COMPACTION_TITLES) + FoundNotes(found, i)
      invariant count == |FoundNotes(found, i)|
    {
      if found.Text(i).Some? {
        SaveFinding(session, found, i, before);
        count := count + 1;
      }
    }
  }

  method SaveFinding(session: Session, found: Findings, n: nat, ghost before: seq<Note>)
    requires n < 4 && found.Text(n).Some?
    requires session.notes == Without(before, COMPACTION_TITLES) + FoundNotes(found, n)
    modifies session`notes
    ensures session.notes == Without(before, COMPACTION_TITLES) + FoundNotes(found, n + 1)
  {
    NewTitle(before, found, n);
    ghost var rest, more := Without(before, COMPACTION_TITLES), FoundNotes(found, n);
    session.SaveNote(COMPACTION_TITLES[n], found.Text(n).value, [FORMAT_TAGS[n], "_system"]);
    ghost var note := Note(COMPACTION_TITLES[n], found.Text(n).value, [FORMAT_TAGS[n], "_system"]);
    assert rest + more + [note] == rest + (more + [note]);
  }

  ghost predicate IsTitle(title: string, n: nat)
    requires n <= 4
  {
    exists j | 0 <= j < n :: title == COMPACTION_TITLES[j]
  }

  lemma {:induction false} FoundTitles(found: Findings, n: nat)
    requires n <= 4
    ensures forall i | 0 <= i < |FoundNotes(found, n)| :: IsTitle(FoundNotes(found, n)[i].title, n)
  {
    if n > 0 {
      FoundTitles(found, n - 1);
      var front := FoundNotes(found, n - 1);
      forall i | 0 <= i < |front| ensures IsTitle(front[i].title, n) {
        assert IsTitle(front[i].title, n - 1);
      }
      assert IsTitle(COMPACTION_TITLES[n - 1], n);
    }
  }

  lemma TitlesDiffer(i: nat, j: nat)
    requires i < j < 4
    ensures COMPACTION_TITLES[i] != COMPACTION_TITLES[j]
  {
  }

  lemma NewTitle(before: seq<Note>, found: Findings, n: nat)
    requires n < 4
    ensures TitleAt(Without(before, COMPACTION_TITLES) + FoundNotes(found, n), COMPACTION_TITLES[n]).None?
  {
    FoundTitles(found, n);
    forall i | 0 <= i < |FoundNotes(found, n)| ensures FoundNotes(found, n)[i].title != COMPACTION_TITLES[n] {
      assert IsTitle(FoundNotes(found, n)[i].title, n);
      var j :| 0 <= j < n && FoundNotes(found, n)[i].title == COMPACTION_TITLES[j];
      TitlesDiffer(j, n);
    }
    AbsentTitle(Without(before, COMPACTION_TITLES), FoundNotes(found, n), COMPACTION_TITLES[n]);
  }

  lemma AbsentTitle(a: seq<Note>, b: seq<Note>, title: string)
    requires forall i | 0 <= i < |a| :: a[i].title != title
    requires forall i | 0 <= i < |b| :: b[i].title != title
    ensures TitleAt(a + b, title).None?
  {
  }

  lemma ReplacedByNext(notes: seq<Note>, first: Findings, second: Findings)
    ensures Extracted(Extracted(notes, first), second) == Extracted(notes, second)
    ensures Without(Extracted(notes, first), COMPACTION_TITLES) == Without(notes, COMPACTION_TITLES)
  {
    FoundTitles(first, 4);
    RemovedAgain(notes, FoundNotes(first, 4), COMPACTION_TITLES);
  }

  function ExtractedAll(notes: seq<Note>, rounds: seq<Findings>): seq<Note> {
    if rounds == [] then notes else Extracted(ExtractedAll(notes, rounds[..|rounds| - 1]), rounds[|rounds| - 1])
  }

  /// However often a history is compacted, only the notes of the last time remain, and every other note stays as it
  /// was.
  lemma {:induction false} NotesDoNotAccumulate(notes: seq<Note>, rounds: seq<Findings>)
    ensures rounds != [] ==> ExtractedAll(notes, rounds) == Extracted(notes, rounds[|rounds| - 1])
    ensures Without(ExtractedAll(notes, rounds), COMPACTION_TITLES) == Without(notes, COMPACTION_TITLES)
  {
    if rounds != [] {
      var front, last := rounds[..|rounds| - 1], rounds[|rounds| - 1];
      NotesDoNotAccumulate(notes, front);
      if front != [] {
        ReplacedByNext(notes, front[|front| - 1], last);
      }
      ReplacedByNext(notes, last, last);
    }
  }

  lemma RemovedAgain(notes: seq<Note>, added: seq<Note>, titles: seq<string>)
    requires forall i | 0 <= i < |added| :: added[i].title in titles
    ensures Without(Without(notes, titles) + added, titles) == Without(notes, titles)
  {
    WithoutConcat(Without(notes, titles), added, titles);
    WithoutUnaffected(Without(notes, titles), titles);
    AllRemoved(added, titles);
  }

  lemma {:induction false} AllRemoved(notes: seq<Note>, titles: seq<string>)
    requires forall i | 0 <= i < |notes| :: notes[i].title in titles
    ensures Without(notes, titles) == []
  {
    if notes != [] {
      AllRemoved(notes[..|notes| - 1], titles);
    }
  }
}
