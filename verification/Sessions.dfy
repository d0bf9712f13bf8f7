/// The stored session of kestrel-session (types.rs): its history and its notes.

module Sessions {
  import opened Core
  import opened ContextBudget

  datatype Note = Note(title: string, content: string, tags: seq<string>)

  ghost predicate UniqueTitles(notes: seq<Note>) {
    forall i, j | 0 <= i < j < |notes| :: notes[i].title != notes[j].title
  }

  /// The position of the first note with this title.
  function TitleAt(notes: seq<Note>, title: string): (at: Option<nat>)
    ensures at.Some? ==>
      at.value < |notes| && notes[at.value].title == title && forall i | 0 <= i < at.value :: notes[i].title != title
    ensures at.None? ==> forall i | 0 <= i < |notes| :: notes[i].title != title
  {
    if notes == [] then None
    else
      var earlier := TitleAt(notes[..|notes| - 1], title);
      if earlier.Some? then earlier
      else if notes[|notes| - 1].title == title then Some(|notes| - 1)
      else None
  }

  /// A note is updated in place by title, or appended.
  function Saved(notes: seq<Note>, note: Note): (saved: seq<Note>)
    ensures UniqueTitles(notes) ==> UniqueTitles(saved)
  {
    var at := TitleAt(notes, note.title);
    if at.Some? then notes[at.value := note] else notes + [note]
  }

  /// The notes after saving these, one after the other.
  function SaveAll(notes: seq<Note>, found: seq<Note>): seq<Note> {
    if found == [] then notes else Saved(SaveAll(notes, found[..|found| - 1]), found[|found| - 1])
  }

  /// The notes whose title is none of these, in order.
  function Without(notes: seq<Note>, titles: seq<string>): (rest: seq<Note>)
    ensures |rest| <= |notes|
    ensures forall i | 0 <= i < |rest| :: rest[i] in notes && rest[i].title !in titles
  {
    if notes == [] then []
    else
      var earlier, last := Without(notes[..|notes| - 1], titles), notes[|notes| - 1];
      if last.title in titles then earlier else earlier + [last]
  }

  lemma {:induction false} WithoutNone(notes: seq<Note>)
    ensures Without(notes, []) == notes
  {
    if notes != [] {
      WithoutNone(notes[..|notes| - 1]);
    }
  }

  /// Deleting titles one after the other removes exactly the notes that have one of them.
  lemma {:induction false} WithoutEach(notes: seq<Note>, titles: seq<string>, title: string)
    ensures Without(Without(notes, titles), [title]) == Without(notes, titles + [title])
  {
    if notes != [] {
      var front, last := notes[..|notes| - 1], notes[|notes| - 1];
      WithoutEach(front, titles, title);
      if last.title !in titles {
        assert (Without(front, titles) + [last])[..|Without(front, titles)|] == Without(front, titles);
      }
    }
  }

  lemma {:induction false} WithoutKeepsUnique(notes: seq<Note>, titles: seq<string>)
    requires UniqueTitles(notes)
    ensures UniqueTitles(Without(notes, titles))
  {
    if notes != [] {
      var front, last := notes[..|notes| - 1], notes[|notes| - 1];
      WithoutKeepsUnique(front, titles);
      forall i | 0 <= i < |Without(front, titles)| ensures Without(front, titles)[i].title != last.title {
        assert Without(front, titles)[i] in front;
      }
    }
  }

  /// Removing titles that do not occur changes nothing.
  lemma {:induction false} WithoutUnaffected(notes: seq<Note>, titles: seq<string>)
    requires forall i | 0 <= i < |notes| :: notes[i].title !in titles
    ensures Without(notes, titles) == notes
  {
    if notes != [] {
      WithoutUnaffected(notes[..|notes| - 1], titles);
    }
  }

  /// The last entries, behind a leading system message.
  function Truncated(messages: seq<SessionEntry>, maxMessages: nat): seq<SessionEntry> {
    if |messages| <= maxMessages then messages
    else (if LeadingSystem(messages) then [messages[0]] else []) + messages[|messages| - maxMessages..]
  }

  class Session {
    var messages: seq<SessionEntry>
    var notes: seq<Note>

    constructor ()
      ensures messages == [] && notes == []
    {
      messages, notes := [], [];
    }

    /// add_user_message and its siblings.
    method AddMessage(entry: SessionEntry)
      modifies this`messages
      ensures messages == old(messages) + [entry]
    {
      messages := messages + [entry];
    }

    method Truncate(maxMessages: nat)
      modifies this`messages
      ensures messages == Truncated(old(messages), maxMessages)
    {
      if |messages| <= maxMessages {
        return;
      }
      var system := if messages[0].role == System then Some(messages[0]) else None;
      var truncated := messages[|messages| - maxMessages..];
      if system.Some? {
        truncated := [system.value] + truncated;
      }
      messages := truncated;
    }

    method Reset()
      modifies this`messages
      ensures messages == []
    {
      messages := [];
    }

    /// The title stays unique; every other note keeps its place.
    method SaveNote(title: string, content: string, tags: seq<string>)
      modifies this`notes
      ensures notes == Saved(old(notes), Note(title, content, tags))
    {
      var at := TitleAt(notes, title);
      if at.Some? {
        notes := notes[at.value := notes[at.value].(content := content, tags := tags)];
      } else {
        notes := notes + [Note(title, content, tags)];
      }
    }

    method DeleteNote(title: string) returns (deleted: bool)
      modifies this`notes
      ensures notes == Without(old(notes), [title]) && (deleted <==> |notes| < |old(notes)|)
    {
      var before := |notes|;
      notes := Without(notes, [title]);
      deleted := |notes| < before;
    }
  }
}
