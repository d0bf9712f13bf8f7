/// Joining, searching and trimming of text.

module Texts {
  import opened Core

  function JoinWith(parts: seq<string>, separator: string): string {
    if parts == [] then ""
    else if |parts| == 1 then parts[0]
    else JoinWith(parts[..|parts| - 1], separator) + separator + parts[|parts| - 1]
  }

  lemma OccursInside(before: string, part: string, after: string)
    ensures OccursAt(before + part + after, part, |before|) && Contains(before + part + after, part)
  {
    assert OccursAt(before + part + after, part, |before|);
  }

  lemma ContainsInside(before: string, text: string, after: string, part: string)
    requires Contains(text, part)
    ensures Contains(before + text + after, part)
  {
    var i: nat :| i <= |text| && OccursAt(text, part, i);
    var whole := before + text + after;
    assert whole[|before| + i..|before| + i + |part|] == text[i..i + |part|];
    assert OccursAt(whole, part, |before| + i);
  }

  /// Every joined part occurs in the whole.
  lemma {:induction false} JoinContains(parts: seq<string>, separator: string, k: nat)
    requires k < |parts|
    ensures Contains(JoinWith(parts, separator), parts[k])
  {
    var front := parts[..|parts| - 1];
    if |parts| == 1 {
      OccursInside("", parts[0], "");
      assert "" + parts[0] + "" == parts[0];
    } else if k == |parts| - 1 {
      OccursInside(JoinWith(front, separator) + separator, parts[k], "");
      assert JoinWith(front, separator) + separator + parts[k] + "" == JoinWith(parts, separator);
    } else {
      JoinContains(front, separator, k);
      ContainsInside("", JoinWith(front, separator), separator + parts[|parts| - 1], parts[k]);
      assert "" + JoinWith(front, separator) + (separator + parts[|parts| - 1]) == JoinWith(parts, separator);
    }
  }

  function Decimal(n: nat): string {
    var digit := ['0' + (n % 10) as char];
    if n < 10 then digit else Decimal(n / 10) + digit
  }

  // ----- Trimming -----

  /// The characters with the Unicode property White_Space.
  predicate IsWhite(c: char) {
    var u := c as int;
    || 0x9 <= u <= 0xD || u == 0x20 || u == 0x85 || u == 0xA0 || u == 0x1680 || 0x2000 <= u <= 0x200A
    || u == 0x2028 || u == 0x2029 || u == 0x202F || u == 0x205F || u == 0x3000
  }

  predicate AllWhite(s: string) {
    forall i | 0 <= i < |s| :: IsWhite(s[i])
  }

  function TrimStart(s: string): string {
    if s != "" && IsWhite(s[0]) then TrimStart(s[1..]) else s
  }

  function TrimEnd(s: string): string {
    if s != "" && IsWhite(s[|s| - 1]) then TrimEnd(s[..|s| - 1]) else s
  }

  function Trim(s: string): string {
    TrimEnd(TrimStart(s))
  }

  predicate Trimmed(s: string) {
    s == "" || (!IsWhite(s[0]) && !IsWhite(s[|s| - 1]))
  }

  lemma {:induction false} TrimStartParts(s: string) returns (before: string)
    ensures s == before + TrimStart(s) && AllWhite(before)
    ensures TrimStart(s) == "" || !IsWhite(TrimStart(s)[0])
  {
    before := "";
    if s != "" && IsWhite(s[0]) {
      before := TrimStartParts(s[1..]);
      before := [s[0]] + before;
    }
  }

  lemma {:induction false} TrimEndParts(s: string) returns (after: string)
    ensures s == TrimEnd(s) + after && AllWhite(after)
    ensures TrimEnd(s) == "" || !IsWhite(TrimEnd(s)[|TrimEnd(s)| - 1])
  {
    after := "";
    if s != "" && IsWhite(s[|s| - 1]) {
      after := TrimEndParts(s[..|s| - 1]);
      after := after + [s[|s| - 1]];
    }
  }

  /// Trimming takes white space off both ends and nothing else; a trimmed text stays as it is.
  lemma TrimParts(s: string) returns (before: string, after: string)
    ensures s == before + Trim(s) + after && AllWhite(before) && AllWhite(after) && Trimmed(Trim(s))
    ensures Trimmed(s) ==> Trim(s) == s
  {
    before := TrimStartParts(s);
    after := TrimEndParts(TrimStart(s));
    if Trim(s) != "" {
      assert TrimStart(s)[0] == Trim(s)[0];
    }
  }

  // ----- Splitting -----

  function SplitOn(s: string, separator: char): (parts: seq<string>)
    ensures |parts| > 0
  {
    if s == "" then [""]
    else
      var front, last := SplitOn(s[..|s| - 1], separator), s[|s| - 1];
      if last == separator then front + [""] else front[..|front| - 1] + [front[|front| - 1] + [last]]
  }

  predicate FreeOf(s: string, c: char) {
    forall i | 0 <= i < |s| :: s[i] != c
  }

  lemma {:induction false} SplitExtends(s: string, part: string, separator: char)
    requires FreeOf(part, separator)
    ensures
      var front := SplitOn(s, separator);
      SplitOn(s + part, separator) == front[..|front| - 1] + [front[|front| - 1] + part]
  {
    var front := SplitOn(s, separator);
    var piece := front[|front| - 1];
    if part == "" {
      assert s + part == s && piece + part == piece;
    } else {
      var most, last := part[..|part| - 1], part[|part| - 1];
      assert (s + part)[..|s + part| - 1] == s + most && (s + part)[|s + part| - 1] == last;
      SplitExtends(s, most, separator);
      assert piece + most + [last] == piece + part;
    }
  }

  lemma SplitAtSeparator(s: string, separator: char)
    ensures SplitOn(s + [separator], separator) == SplitOn(s, separator) + [""]
  {
    assert (s + [separator])[..|s|] == s;
  }

  lemma SplitBehindSeparator(s: string, part: string, separator: char)
    requires FreeOf(part, separator)
    ensures SplitOn(s + [separator] + part, separator) == SplitOn(s, separator) + [part]
  {
    var front := SplitOn(s, separator);
    SplitAtSeparator(s, separator);
    SplitExtends(s + [separator], part, separator);
    assert (front + [""])[..|front|] == front && "" + part == part;
  }

  /// Splitting undoes joining with a separator that occurs in no part.
  lemma {:induction false} SplitOfJoin(parts: seq<string>, separator: char)
    requires parts != [] && forall i | 0 <= i < |parts| :: FreeOf(parts[i], separator)
    ensures SplitOn(JoinWith(parts, [separator]), separator) == parts
  {
    assert SplitOn("", separator) == [""];
    hide SplitOn;
    if |parts| == 1 {
      SplitExtends("", parts[0], separator);
      assert "" + parts[0] == parts[0];
    } else {
      var front, last := parts[..|parts| - 1], parts[|parts| - 1];
      SplitOfJoin(front, separator);
      SplitBehindSeparator(JoinWith(front, [separator]), last, separator);
      assert front + [last] == parts;
    }
  }

  lemma JoinOneMore(parts: seq<string>, last: string, separator: string)
    requires parts != []
    ensures JoinWith(parts + [last], separator) == JoinWith(parts, separator) + separator + last
  {
    assert (parts + [last])[..|parts|] == parts;
  }

  lemma JoinLastLonger(parts: seq<string>, c: char, separator: string)
    requires parts != []
    ensures JoinWith(parts[..|parts| - 1] + [parts[|parts| - 1] + [c]], separator) == JoinWith(parts, separator) + [c]
  {
    var front, last := parts[..|parts| - 1], parts[|parts| - 1];
    assert parts == front + [last];
    if front == [] {
      assert front + [last + [c]] == [last + [c]];
    } else {
      JoinOneMore(front, last, separator);
      JoinOneMore(front, last + [c], separator);
      assert JoinWith(front, separator) + separator + last + [c]
        == JoinWith(front, separator) + separator + (last + [c]);
    }
  }

  /// Joining undoes splitting.
  lemma {:induction false} JoinOfSplit(s: string, separator: char)
    ensures JoinWith(SplitOn(s, separator), [separator]) == s
  {
    if s != "" {
      var front, last := s[..|s| - 1], s[|s| - 1];
      var parts := SplitOn(front, separator);
      JoinOfSplit(front, separator);
      assert s == front + [last];
      if last == separator {
        JoinOneMore(parts, "", [separator]);
        assert front + [separator] + "" == front + [separator];
      } else {
        JoinLastLonger(parts, last, [separator]);
      }
    }
  }

  // ----- Lines -----

  function WithoutReturn(line: string): string {
    if line != "" && line[|line| - 1] == '\r' then line[..|line| - 1] else line
  }

  /// str::lines: split at "\n" or "\r\n"; an empty rest behind the last line end is no line.
  function TextLines(s: string): (lines: seq<string>) {
    var parts := SplitOn(s, '\n');
    var last := parts[|parts| - 1];
    seq(|parts| - 1, i requires 0 <= i < |parts| - 1 => WithoutReturn(parts[i])) + (if last == "" then [] else [last])
  }

  lemma ContainsIsTransitive(whole: string, middle: string, part: string)
    requires Contains(whole, middle) && Contains(middle, part)
    ensures Contains(whole, part)
  {
    var i: nat :| i <= |whole| && OccursAt(whole, middle, i);
    assert whole == whole[..i] + middle + whole[i + |middle|..];
    ContainsInside(whole[..i], middle, whole[i + |middle|..], part);
  }

  lemma ContainsPrefix(a: string, b: string)
    ensures Contains(a + b, a)
  {
    OccursInside("", a, b);
    assert "" + a + b == a + b;
  }

  /// Every line, trimmed or not, stands in the text.
  lemma LineStandsInText(s: string, k: nat)
    requires k < |TextLines(s)|
    ensures Contains(s, TextLines(s)[k]) && Contains(s, Trim(TextLines(s)[k]))
  {
    var parts, line := SplitOn(s, '\n'), TextLines(s)[k];
    JoinOfSplit(s, '\n');
    JoinContains(parts, "\n", k);
    assert ['\n'] == "\n";
    if line != parts[k] {
      assert parts[k] == line + "\r";
      ContainsPrefix(line, "\r");
      ContainsIsTransitive(s, parts[k], line);
    }
    var before, after := TrimParts(line);
    OccursInside(before, Trim(line), after);
    ContainsIsTransitive(s, line, Trim(line));
  }
}
