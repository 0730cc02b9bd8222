/** The string operations the sources lean on: `indexOf`, `split("\n")`, `join`, `strip`. */
module Text {
  datatype Found = Nowhere | At(index: nat)

  predicate MatchesAt(text: string, needle: string, i: nat) {
    i + |needle| <= |text| && text[i..i + |needle|] == needle
  }

  predicate Contains(text: string, needle: string) {
    exists i | 0 <= i <= |text| :: MatchesAt(text, needle, i)
  }

  /** The first place at or after `from` where the needle stands. */
  function IndexOf(text: string, needle: string, from: nat): (r: Found)
    ensures r.At? ==> from <= r.index && MatchesAt(text, needle, r.index)
    ensures r.At? ==> forall j: nat | from <= j < r.index :: !MatchesAt(text, needle, j)
    ensures r.Nowhere? ==> forall j: nat | from <= j :: !MatchesAt(text, needle, j)
    decreases |text| - from
  {
    if from + |needle| > |text| then Nowhere
    else if MatchesAt(text, needle, from) then At(from)
    else IndexOf(text, needle, from + 1)
  }

  lemma MatchedChar(text: string, needle: string, i: nat, k: nat)
    requires MatchesAt(text, needle, i) && k < |needle|
    ensures text[i + k] == needle[k]
  {
    assert text[i..i + |needle|][k] == text[i + k];
  }

  lemma MatchStays(text: string, more: string, needle: string, i: nat)
    requires i + |needle| <= |text|
    ensures MatchesAt(text + more, needle, i) <==> MatchesAt(text, needle, i)
  {
    assert (text + more)[i..i + |needle|] == text[i..i + |needle|];
  }

  lemma FirstMatch(text: string, needle: string, i: nat)
    requires MatchesAt(text, needle, i) && forall j: nat | j < i :: !MatchesAt(text, needle, j)
    ensures IndexOf(text, needle, 0) == At(i)
  {
    var found := IndexOf(text, needle, 0);
    assert found.At? && !(found.index < i) && !(i < found.index);
  }

  predicate OneLine(s: string) {
    '\n' !in s
  }

  function Split(s: string): (lines: seq<string>)
    ensures |lines| > 0
    ensures forall line | line in lines :: OneLine(line)
  {
    if s == "" then [""]
    else
      var rest := Split(s[1..]);
      if s[0] == '\n' then [""] + rest
      else
        assert forall line | line in rest[1..] :: line in rest;
        assert rest[0] in rest;
        [[s[0]] + rest[0]] + rest[1..]
  }

  lemma {:induction false} SplitOne(line: string)
    requires OneLine(line)
    ensures Split(line) == [line]
  {
    if line != "" {
      assert line[0] in line && forall c | c in line[1..] :: c in line;
      SplitOne(line[1..]);
      assert [line[0]] + line[1..] == line;
    }
  }

  lemma {:induction false} SplitFirst(line: string, more: string)
    requires OneLine(line)
    ensures Split(line + "\n" + more) == [line] + Split(more)
  {
    var s := line + "\n" + more;
    if line == "" {
      assert s[1..] == more;
    } else {
      assert line[0] in line && forall c | c in line[1..] :: c in line;
      assert s[1..] == line[1..] + "\n" + more;
      SplitFirst(line[1..], more);
      assert [line[0]] + line[1..] == line;
    }
  }

  function Join(parts: seq<string>, glue: string): string {
    if parts == [] then ""
    else if |parts| == 1 then parts[0]
    else parts[0] + glue + Join(parts[1..], glue)
  }

  /** Splitting takes apart exactly what joining puts together. */
  lemma {:induction false} SplitJoined(lines: seq<string>)
    requires lines != [] && forall line | line in lines :: OneLine(line)
    ensures Split(Join(lines, "\n")) == lines
  {
    assert lines[0] in lines && forall line | line in lines[1..] :: line in lines;
    if |lines| == 1 {
      SplitOne(lines[0]);
    } else {
      SplitJoined(lines[1..]);
      SplitFirst(lines[0], Join(lines[1..], "\n"));
    }
  }

  lemma {:induction false} JoinedSplit(text: string)
    ensures Join(Split(text), "\n") == text
  {
    if text != "" {
      JoinedSplit(text[1..]);
      var rest, lines := Split(text[1..]), Split(text);
      if text[0] == '\n' {
        assert lines[1..] == rest;
      } else {
        assert lines[1..] == rest[1..];
      }
    }
  }

  /** What Python's `str.strip` takes off. */
  predicate IsSpace(c: char) {
    var n := c as int;
    0x09 <= n <= 0x0D || 0x1C <= n <= 0x20 || n in {0x85, 0xA0, 0x1680, 0x2028, 0x2029, 0x202F, 0x205F, 0x3000}
    || 0x2000 <= n <= 0x200A
  }

  function TrimLeft(s: string): string {
    if s != "" && IsSpace(s[0]) then TrimLeft(s[1..]) else s
  }

  function TrimRight(s: string): string {
    if s != "" && IsSpace(s[|s| - 1]) then TrimRight(s[..|s| - 1]) else s
  }

  function Strip(s: string): string {
    TrimRight(TrimLeft(s))
  }

  predicate Trimmed(s: string) {
    s != "" ==> !IsSpace(s[0]) && !IsSpace(s[|s| - 1])
  }

  lemma {:induction false} TrimLeftShortens(s: string)
    ensures |TrimLeft(s)| <= |s| && (TrimLeft(s) != s ==> |TrimLeft(s)| < |s|)
    ensures TrimLeft(s) == s <==> (s == "" || !IsSpace(s[0]))
  {
    if s != "" && IsSpace(s[0]) {
      TrimLeftShortens(s[1..]);
    }
  }

  lemma {:induction false} TrimRightShortens(s: string)
    ensures |TrimRight(s)| <= |s|
    ensures TrimRight(s) == s <==> (s == "" || !IsSpace(s[|s| - 1]))
  {
    if s != "" && IsSpace(s[|s| - 1]) {
      TrimRightShortens(s[..|s| - 1]);
    }
  }

  predicate AllSpace(s: string) {
    forall i | 0 <= i < |s| :: IsSpace(s[i])
  }

  lemma {:induction false} TrimLeftIs(s: string) returns (before: string)
    ensures s == before + TrimLeft(s) && AllSpace(before)
    ensures TrimLeft(s) == "" || !IsSpace(TrimLeft(s)[0])
  {
    if s != "" && IsSpace(s[0]) {
      before := TrimLeftIs(s[1..]);
      before := [s[0]] + before;
    } else {
      before := "";
    }
  }

  lemma {:induction false} TrimRightIs(s: string) returns (after: string)
    ensures s == TrimRight(s) + after && AllSpace(after)
    ensures TrimRight(s) == "" || !IsSpace(TrimRight(s)[|TrimRight(s)| - 1])
  {
    if s != "" && IsSpace(s[|s| - 1]) {
      var rest, last := s[..|s| - 1], s[|s| - 1];
      after := TrimRightIs(rest);
      hide IsSpace;
      assert TrimRight(s) == TrimRight(rest) && s == rest + [last];
      after := after + [last];
    } else {
      after := "";
    }
  }

  /** Only outer space goes, and all of it. */
  lemma StripIs(s: string)
    ensures Trimmed(Strip(s))
    ensures exists before, after :: s == before + Strip(s) + after && AllSpace(before) && AllSpace(after)
  {
    var before := TrimLeftIs(s);
    var after := TrimRightIs(TrimLeft(s));
    if Strip(s) != "" {
      assert Strip(s)[0] == TrimLeft(s)[0];
    }
    assert s == before + Strip(s) + after;
  }

  lemma StripKeepsTrimmed(s: string)
    ensures Strip(s) == s <==> Trimmed(s)
    ensures |Strip(s)| <= |s|
  {
    TrimLeftShortens(s);
    TrimRightShortens(TrimLeft(s));
    if TrimLeft(s) != s {
      assert |TrimRight(TrimLeft(s))| <= |TrimLeft(s)| < |s|;
    }
  }

  lemma StripDropsOneSpace(s: string)
    ensures Strip(" " + s) == Strip(s)
  {
    assert (" " + s)[1..] == s;
  }

  /** Python's `str.replace`, left to right. */
  function Replace(text: string, needle: string, put: string): string
    requires needle != ""
    decreases |text|
  {
    if text == "" then ""
    else if MatchesAt(text, needle, 0) then put + Replace(text[|needle|..], needle, put)
    else [text[0]] + Replace(text[1..], needle, put)
  }

  lemma {:induction false} ReplaceInParts(a: string, b: string, c: char, put: string)
    ensures Replace(a + b, [c], put) == Replace(a, [c], put) + Replace(b, [c], put)
    decreases |a|
  {
    if a == "" {
      assert a + b == b;
    } else {
      assert (a + b)[1..] == a[1..] + b;
      assert (a + b)[0..1] == [a[0]] == a[0..1];
      ReplaceInParts(a[1..], b, c, put);
      var head, x, y := if a[0] == c then put else [a[0]], Replace(a[1..], [c], put), Replace(b, [c], put);
      assert head + (x + y) == head + x + y;
    }
  }

  lemma {:induction false} ReplaceAbsent(text: string, needle: string, put: string)
    requires needle != "" && needle[0] !in text
    ensures Replace(text, needle, put) == text
    decreases |text|
  {
    if text != "" {
      assert text[0] in text && forall x | x in text[1..] :: x in text;
      if |needle| <= |text| {
        assert text[0..|needle|][0] == text[0];
      }
      ReplaceAbsent(text[1..], needle, put);
    }
  }

  lemma ReplaceOne(c: char, put: string)
    ensures Replace([c], [c], put) == put
  {
    assert [c][0..1] == [c] && [c][1..] == "";
    assert put + "" == put;
  }
}
