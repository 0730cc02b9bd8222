/** Server-sent events: one printer and two readers, one over lines in Python
    (src/trail/runtime/events.py), one over an arbitrarily split text in TypeScript
    (ui/src/api.ts). A payload is the text `json.dumps` gives and `json.loads` takes. */
module Sse {
  import opened Actions
  import opened Text

  datatype Frame = Frame(event: string, data: string)

  function Print(f: Frame): string {
    "event: " + f.event + "\ndata: " + f.data + "\n\n"
  }

  function PrintAll(frames: seq<Frame>): string {
    if frames == [] then "" else Print(frames[0]) + PrintAll(frames[1..])
  }

  /** `json.dumps` escapes line breaks; event names are the server's own words. */
  predicate Printable(f: Frame) {
    OneLine(f.event) && OneLine(f.data)
  }

  // ---------------------------------------------------------------- splitting a buffer

  const LFLF := "\n\n"
  const CRLFCRLF := "\r\n\r\n"

  /** The leading complete frame and the rest; the terminator that starts first wins. */
  function TakeFrame(buffer: string): (split: Option<(string, string)>)
    ensures split.Some? ==> |split.value.1| < |buffer|
  {
    var lf, crlf := IndexOf(buffer, LFLF, 0), IndexOf(buffer, CRLFCRLF, 0);
    if lf.Nowhere? && crlf.Nowhere? then None
    else if crlf.At? && (lf.Nowhere? || crlf.index < lf.index) then
      Some((buffer[..crlf.index], buffer[crlf.index + 4..]))
    else Some((buffer[..lf.index], buffer[lf.index + 2..]))
  }

  predicate Terminates(text: string, i: nat) {
    MatchesAt(text, LFLF, i) || MatchesAt(text, CRLFCRLF, i)
  }

  function EndOf(text: string, i: nat): nat
    requires Terminates(text, i)
  {
    i + if MatchesAt(text, LFLF, i) then |LFLF| else |CRLFCRLF|
  }

  lemma TerminatorChars(text: string, i: nat)
    ensures MatchesAt(text, LFLF, i) ==> text[i] == text[i + 1] == '\n'
    ensures MatchesAt(text, CRLFCRLF, i) ==> text[i] == text[i + 2] == '\r' && text[i + 1] == text[i + 3] == '\n'
  {
    if MatchesAt(text, LFLF, i) {
      MatchedChar(text, LFLF, i, 0);
      MatchedChar(text, LFLF, i, 1);
    }
    if MatchesAt(text, CRLFCRLF, i) {
      MatchedChar(text, CRLFCRLF, i, 0);
      MatchedChar(text, CRLFCRLF, i, 1);
      MatchedChar(text, CRLFCRLF, i, 2);
      MatchedChar(text, CRLFCRLF, i, 3);
    }
  }

  /** The first terminator to start is the first to complete: none that starts earlier
      can still be waiting for its end. */
  lemma FirstToStartEndsFirst(text: string, j: nat, i: nat)
    requires j < i && Terminates(text, j) && Terminates(text, i)
    ensures EndOf(text, j) < EndOf(text, i)
  {
    TerminatorChars(text, j);
    TerminatorChars(text, i);
  }

  /** Where the next frame ends, and what is taken there. */
  lemma TakeFrameIsFirst(text: string, i: nat)
    requires Terminates(text, i) && forall j: nat | j < i :: !Terminates(text, j)
    ensures TakeFrame(text) == Some((text[..i], text[EndOf(text, i)..]))
  {
    TerminatorChars(text, i);
    if MatchesAt(text, LFLF, i) {
      forall j: nat | j < i
        ensures !MatchesAt(text, LFLF, j)
      {
        assert !Terminates(text, j);
      }
      FirstMatch(text, LFLF, i);
    } else {
      forall j: nat | j < i
        ensures !MatchesAt(text, CRLFCRLF, j)
      {
        assert !Terminates(text, j);
      }
      FirstMatch(text, CRLFCRLF, i);
    }
    var lf, crlf := IndexOf(text, LFLF, 0), IndexOf(text, CRLFCRLF, 0);
    assert lf.At? ==> Terminates(text, lf.index);
    assert crlf.At? ==> Terminates(text, crlf.index);
  }

  lemma TakenAt(text: string) returns (i: nat)
    requires TakeFrame(text).Some?
    ensures Terminates(text, i) && forall j: nat | j < i :: !Terminates(text, j)
  {
    var lf, crlf := IndexOf(text, LFLF, 0), IndexOf(text, CRLFCRLF, 0);
    i := if crlf.At? && (lf.Nowhere? || crlf.index < lf.index) then crlf.index else lf.index;
  }

  lemma TerminatorStays(text: string, more: string, i: nat)
    requires Terminates(text, i)
    ensures Terminates(text + more, i) && EndOf(text + more, i) == EndOf(text, i)
  {
    MatchStays(text, more, LFLF, i);
    if MatchesAt(text, CRLFCRLF, i) {
      MatchStays(text, more, CRLFCRLF, i);
    }
  }

  /** A frame, once there to be taken, is the frame that would be taken from any longer
      text. */
  lemma TakeFrameIsStable(buffer: string, more: string)
    requires TakeFrame(buffer).Some?
    ensures TakeFrame(buffer + more) == Some((TakeFrame(buffer).value.0, TakeFrame(buffer).value.1 + more))
  {
    var i := TakenAt(buffer);
    var text := buffer + more;
    TerminatorStays(buffer, more, i);
    forall j: nat | j < i
      ensures !Terminates(text, j)
    {
      if Terminates(text, j) {
        FirstToStartEndsFirst(text, j, i);
        MatchStays(buffer, more, if MatchesAt(text, LFLF, j) then LFLF else CRLFCRLF, j);
        assert Terminates(buffer, j);
      }
    }
    TakeFrameIsFirst(buffer, i);
    TakeFrameIsFirst(text, i);
    assert text[..i] == buffer[..i] && text[EndOf(text, i)..] == buffer[EndOf(buffer, i)..] + more;
  }

  // ---------------------------------------------------------------- parsing one frame

  function Chomp(line: string): string {
    if line != "" && line[|line| - 1] == '\r' then line[..|line| - 1] else line
  }

  predicate Ignored(line: string) {
    line == "" || line[0] == ':'
  }

  function FieldOf(line: string): string {
    var colon := IndexOf(line, ":", 0);
    if colon.Nowhere? then line else line[..colon.index]
  }

  function ValueOf(line: string): string {
    var colon := IndexOf(line, ":", 0);
    var value := if colon.Nowhere? then "" else line[colon.index + 1..];
    if value != "" && value[0] == ' ' then value[1..] else value
  }

  /** The last `event` field, `message` when there is none. */
  function EventIn(lines: seq<string>): string {
    if lines == [] then "message"
    else
      var line := Chomp(lines[|lines| - 1]);
      if !Ignored(line) && FieldOf(line) == "event" then ValueOf(line) else EventIn(lines[..|lines| - 1])
  }

  /** Every `data` field, in order. */
  function DataIn(lines: seq<string>): seq<string> {
    if lines == [] then []
    else
      var line := Chomp(lines[|lines| - 1]);
      var before := DataIn(lines[..|lines| - 1]);
      if !Ignored(line) && FieldOf(line) == "data" then before + [ValueOf(line)] else before
  }

  function FrameIn(text: string): Option<Frame> {
    var lines := Split(text);
    if DataIn(lines) == [] then None else Some(Frame(EventIn(lines), Join(DataIn(lines), "\n")))
  }

  method ParseFrame(text: string) returns (frame: Option<Frame>)
    ensures frame == FrameIn(text)
    ensures FrameIsRight(text, frame)
  {
    hide FrameIsRight;
    EveryFrameIsRight(text);
    var event := "message";
    var data: seq<string> := [];
    var lines := Split(text);
    var i := 0;
    while i < |lines|
      invariant 0 <= i <= |lines|
      invariant event == EventIn(lines[..i]) && data == DataIn(lines[..i])
    {
      assert lines[..i + 1][..i] == lines[..i];
      var line := Chomp(lines[i]);
      i := i + 1;
      if Ignored(line) {
        continue;
      }
      var field, value := FieldOf(line), ValueOf(line);
      if field == "event" {
        event := value;
      } else if field == "data" {
        data := data + [value];
      }
    }
    assert lines[..i] == lines;
    if data == [] {
      return None;
    }
    return Some(Frame(event, Join(data, "\n")));
  }

  predicate EndsInReturn(s: string) {
    s != "" && s[|s| - 1] == '\r'
  }

  // ---------------------------------------------------------------- what a frame is, line by line

  /** The line, less one carriage return at its end, is the name and after a colon the value;
      a space right after the colon is not part of it. */
  ghost predicate Carries(line: string, name: string, value: string) {
    if EndsInReturn(line) then Reads(line[..|line| - 1], name, value) else Reads(line, name, value)
  }

  ghost predicate Reads(content: string, name: string, value: string) {
    || (content == name && value == "")
    || (content == name + ":" + value && (value == "" || value[0] != ' '))
    || content == name + ": " + value
  }

  lemma ColonFound(name: string, rest: string)
    requires ':' !in name
    ensures IndexOf(name + ":" + rest, ":", 0) == At(|name|)
  {
    var text := name + ":" + rest;
    forall j: nat | j < |name|
      ensures !MatchesAt(text, ":", j)
    {
      assert text[j..j + 1] == [name[j]] && name[j] in name;
    }
    assert text[|name|..|name| + 1] == ":";
    FirstMatch(text, ":", |name|);
  }

  lemma NoColon(name: string)
    requires ':' !in name
    ensures IndexOf(name, ":", 0).Nowhere?
  {
    forall j: nat | j < |name|
      ensures !MatchesAt(name, ":", j)
    {
      assert name[j..j + 1] == [name[j]] && name[j] in name;
    }
  }

  lemma ReadsIs(content: string, name: string, value: string)
    requires name != "" && ':' !in name
    ensures Reads(content, name, value)
       <==> !Ignored(content) && FieldOf(content) == name && ValueOf(content) == value
  {
    var colon := IndexOf(content, ":", 0);
    if colon.At? {
      var rest := content[colon.index + 1..];
      MatchedChar(content, ":", colon.index, 0);
      assert content == content[..colon.index] + ":" + rest;
      assert rest != "" && rest[0] == ' ' ==> rest == " " + rest[1..];
    }
    if Reads(content, name, value) {
      if content == name {
        NoColon(name);
      } else if content == name + ":" + value {
        ColonFound(name, value);
      } else {
        assert content == name + ":" + (" " + value);
        ColonFound(name, " " + value);
      }
    }
  }

  lemma CarriesIs(line: string, name: string, value: string)
    requires name != "" && ':' !in name
    ensures Carries(line, name, value)
       <==> !Ignored(Chomp(line)) && FieldOf(Chomp(line)) == name && ValueOf(Chomp(line)) == value
  {
    hide Reads, Ignored, FieldOf, ValueOf;
    ReadsIs(Chomp(line), name, value);
  }

  ghost predicate HasField(line: string, name: string) {
    exists value :: Carries(line, name, value)
  }

  /** How many of the first `n` lines carry the field. */
  ghost function Carrying(lines: seq<string>, name: string, n: nat): nat
    requires n <= |lines|
  {
    if n == 0 then 0 else Carrying(lines, name, n - 1) + if HasField(lines[n - 1], name) then 1 else 0
  }

  /** One value for every line that carries the field, in the lines' order. */
  ghost predicate ValuesAre(lines: seq<string>, name: string, values: seq<string>) {
    && |values| == Carrying(lines, name, |lines|)
    && forall k, value | 0 <= k < |lines| && Carries(lines[k], name, value) ::
         Carrying(lines, name, k) < |values| && values[Carrying(lines, name, k)] == value
  }

  /** The last line that names the event does; `message` when none does. */
  ghost predicate EventIs(lines: seq<string>, event: string) {
    || (event == "message" && forall j | 0 <= j < |lines| :: !HasField(lines[j], "event"))
    || exists k | 0 <= k < |lines| ::
         Carries(lines[k], "event", event) && forall j | k < j < |lines| :: !HasField(lines[j], "event")
  }

  lemma FieldIs(line: string, name: string)
    requires name != "" && ':' !in name
    ensures HasField(line, name) <==> !Ignored(Chomp(line)) && FieldOf(Chomp(line)) == name
    ensures forall value :: Carries(line, name, value) ==> HasField(line, name) && value == ValueOf(Chomp(line))
    ensures HasField(line, name) ==> Carries(line, name, ValueOf(Chomp(line)))
  {
    hide Carries, Ignored, FieldOf, ValueOf, Chomp;
    CarriesIs(line, name, ValueOf(Chomp(line)));
    forall value
      ensures Carries(line, name, value) ==>
        value == ValueOf(Chomp(line)) && !Ignored(Chomp(line)) && FieldOf(Chomp(line)) == name
    {
      CarriesIs(line, name, value);
    }
  }

  lemma {:induction false} CarryingInFront(lines: seq<string>, last: string, name: string, n: nat)
    requires n <= |lines|
    ensures Carrying(lines + [last], name, n) == Carrying(lines, name, n)
  {
    if n > 0 {
      CarryingInFront(lines, last, name, n - 1);
    }
  }

  lemma ValuesSnoc(lines: seq<string>, last: string, name: string, values: seq<string>)
    requires name != "" && ':' !in name && ValuesAre(lines, name, values)
    ensures ValuesAre(lines + [last], name, if HasField(last, name) then values + [ValueOf(Chomp(last))] else values)
  {
    hide Carries, HasField, ValueOf, Chomp;
    var all := lines + [last];
    FieldIs(last, name);
    CarryingInFront(lines, last, name, |lines|);
    forall k, value | 0 <= k < |all| && Carries(all[k], name, value)
      ensures Carrying(all, name, k) < Carrying(all, name, |all|)
      ensures Carrying(all, name, k) == |values| ==> k == |lines| && value == ValueOf(Chomp(last))
      ensures Carrying(all, name, k) < |values| ==> values[Carrying(all, name, k)] == value
    {
      FieldIs(all[k], name);
      if k < |lines| {
        CarryingInFront(lines, last, name, k);
        assert all[k] == lines[k];
      }
    }
  }

  lemma {:induction false} DataInIs(lines: seq<string>)
    ensures ValuesAre(lines, "data", DataIn(lines))
  {
    if lines != [] {
      var n := |lines| - 1;
      DataInIs(lines[..n]);
      hide ValuesAre, HasField, ValueOf, Chomp, Ignored, FieldOf;
      ValuesSnoc(lines[..n], lines[n], "data", DataIn(lines[..n]));
      FieldIs(lines[n], "data");
      assert lines == lines[..n] + [lines[n]];
    }
  }

  lemma {:induction false} EventInIs(lines: seq<string>)
    ensures EventIs(lines, EventIn(lines))
  {
    hide HasField, ValueOf, Chomp, Ignored, FieldOf, Carries;
    if lines != [] {
      var n := |lines| - 1;
      var before := lines[..n];
      EventInIs(before);
      FieldIs(lines[n], "event");
      assert forall j | 0 <= j < n :: before[j] == lines[j];
    }
  }

  /** What any text read as one frame is: its lines are the pieces between line feeds. */
  ghost predicate FrameIsRight(text: string, frame: Option<Frame>) {
    exists lines, values ::
      && lines != [] && (forall line | line in lines :: OneLine(line)) && text == Join(lines, "\n")
      && ValuesAre(lines, "data", values)
      && (frame.None? <==> values == [])
      && (frame.Some? ==> EventIs(lines, frame.value.event) && frame.value.data == Join(values, "\n"))
  }

  lemma EveryFrameIsRight(text: string)
    ensures FrameIsRight(text, FrameIn(text))
  {
    hide ValuesAre, EventIs, EventIn, DataIn;
    JoinedSplit(text);
    DataInIs(Split(text));
    EventInIs(Split(text));
  }

  // ---------------------------------------------------------------- reading a stream

  datatype Drained = Drained(frames: seq<Frame>, rest: string)

  function Maybe(frame: Option<Frame>): seq<Frame> {
    if frame.Some? then [frame.value] else []
  }

  /** Every complete frame at the head of a text, and what is left. */
  function Drain(text: string): Drained
    decreases |text|
  {
    var split := TakeFrame(text);
    if split.None? then Drained([], text)
    else
      var rest := Drain(split.value.1);
      Drained(Maybe(FrameIn(split.value.0)) + rest.frames, rest.rest)
  }

  /** What a whole text holds, an unterminated tail included. */
  function FramesIn(text: string): seq<Frame> {
    Drain(text).frames + Maybe(FrameIn(Drain(text).rest))
  }

  lemma DrainNext(text: string)
    ensures TakeFrame(text).None? ==> Drain(text) == Drained([], text)
    ensures TakeFrame(text).Some? ==>
      var (body, rest) := TakeFrame(text).value;
      Drain(text) == Drained(Maybe(FrameIn(body)) + Drain(rest).frames, Drain(rest).rest)
  {
    hide TakeFrame, FrameIn, Maybe;
  }

  /** Draining what has come, then the leftover with what comes next, is draining it all. */
  lemma {:induction false} DrainInTwo(text: string, more: string)
    ensures var first := Drain(text);
      var second := Drain(first.rest + more);
      Drain(text + more) == Drained(first.frames + second.frames, second.rest)
    decreases |text|
  {
    hide TakeFrame, FrameIn, Maybe, Drain;
    var split := TakeFrame(text);
    DrainNext(text);
    DrainNext(text + more);
    if split.Some? {
      TakeFrameIsStable(text, more);
      DrainInTwo(split.value.1, more);
      var head, rest := Maybe(FrameIn(split.value.0)), Drain(split.value.1);
      var second := Drain(rest.rest + more);
      assert head + rest.frames + second.frames == head + (rest.frames + second.frames);
    } else {
      assert [] + Drain(text + more).frames == Drain(text + more).frames;
    }
  }

  /** Pieces, each but the last with its blank line after it. */
  function Streamed(pieces: seq<string>, ends: seq<string>): string
    requires |pieces| == |ends| + 1
  {
    if ends == [] then pieces[0] else pieces[0] + ends[0] + Streamed(pieces[1..], ends[1..])
  }

  /** The text is cut at its blank lines, LF LF or CRLF CRLF, wherever one first starts; the
      last piece is what no blank line ends. */
  ghost predicate CutAtBlankLines(text: string, pieces: seq<string>, ends: seq<string>) {
    && |pieces| == |ends| + 1 && text == Streamed(pieces, ends)
    && (forall i | 0 <= i < |ends| :: EndsAt(pieces[i], ends[i]))
    && forall j: nat :: !Terminates(pieces[|ends|], j)
  }

  ghost predicate EndsAt(piece: string, end: string) {
    end in {"\n\n", "\r\n\r\n"} && forall j: nat | j < |piece| :: !Terminates(piece + end, j)
  }

  function FramesRead(pieces: seq<string>): seq<Frame> {
    if pieces == [] then [] else Maybe(FrameIn(pieces[0])) + FramesRead(pieces[1..])
  }

  lemma NoneTaken(text: string)
    ensures TakeFrame(text).None? ==> forall j: nat :: !Terminates(text, j)
  {
  }

  lemma PieceTaken(text: string) returns (piece: string, end: string, rest: string)
    requires TakeFrame(text).Some?
    ensures TakeFrame(text) == Some((piece, rest)) && text == piece + end + rest && EndsAt(piece, end)
  {
    var i := TakenAt(text);
    TakeFrameIsFirst(text, i);
    piece, end, rest := text[..i], text[i..EndOf(text, i)], text[EndOf(text, i)..];
    var head := piece + end;
    assert text == head + rest;
    forall j: nat | j < i
      ensures !Terminates(head, j)
    {
      if Terminates(head, j) {
        TerminatorStays(head, rest, j);
      }
    }
  }

  lemma OneMorePiece(piece: string, end: string, rest: string, pieces: seq<string>, ends: seq<string>)
    requires EndsAt(piece, end) && CutAtBlankLines(rest, pieces, ends)
    ensures CutAtBlankLines(piece + end + rest, [piece] + pieces, [end] + ends)
  {
    hide EndsAt, Terminates;
    assert ([piece] + pieces)[1..] == pieces && ([end] + ends)[1..] == ends;
  }

  /** Whatever a stream holds, its frames are what its pieces are read as, the last, which
      nothing ends, included. */
  lemma {:induction false} EveryStreamIsCut(text: string)
    ensures exists pieces, ends :: CutAtBlankLines(text, pieces, ends) && FramesIn(text) == FramesRead(pieces)
    decreases |text|
  {
    hide TakeFrame, FrameIn, Maybe, Drain, CutAtBlankLines, EndsAt;
    DrainNext(text);
    if TakeFrame(text).None? {
      NoneTaken(text);
      LastPiece(text);
      assert FramesIn(text) == [] + Maybe(FrameIn(text));
    } else {
      var piece, end, rest := PieceTaken(text);
      EveryStreamIsCut(rest);
      var pieces, ends :| CutAtBlankLines(rest, pieces, ends) && FramesIn(rest) == FramesRead(pieces);
      OneMorePiece(piece, end, rest, pieces, ends);
      assert ([piece] + pieces)[1..] == pieces;
      assert Maybe(FrameIn(piece)) + Drain(rest).frames + Maybe(FrameIn(Drain(rest).rest))
          == Maybe(FrameIn(piece)) + (Drain(rest).frames + Maybe(FrameIn(Drain(rest).rest)));
    }
  }

  lemma LastPiece(text: string)
    requires forall j: nat :: !Terminates(text, j)
    ensures CutAtBlankLines(text, [text], []) && FramesRead([text]) == [] + Maybe(FrameIn(text))
  {
    hide FrameIn, Maybe;
    assert [text][1..] == [];
    assert FramesRead([text]) == Maybe(FrameIn(text)) + [];
  }

  function Joined(chunks: seq<string>): string {
    if chunks == [] then "" else Joined(chunks[..|chunks| - 1]) + chunks[|chunks| - 1]
  }

  lemma DrainNothing()
    ensures Drain("") == Drained([], "")
  {
    assert TakeFrame("").None?;
  }

  lemma DrainStep(frames: seq<Frame>, buffer: string)
    requires TakeFrame(buffer).Some?
    ensures var split := TakeFrame(buffer).value;
      && frames + Drain(buffer).frames == frames + Maybe(FrameIn(split.0)) + Drain(split.1).frames
      && Drain(buffer).rest == Drain(split.1).rest
  {
    hide TakeFrame, FrameIn, Maybe, Drain;
    DrainNext(buffer);
    var split := TakeFrame(buffer).value;
    assert frames + (Maybe(FrameIn(split.0)) + Drain(split.1).frames)
        == frames + Maybe(FrameIn(split.0)) + Drain(split.1).frames;
  }

  /** The inner loop: every frame the buffer completes is read off its front. */
  method TakeFrames(frames: seq<Frame>, buffer: string) returns (taken: seq<Frame>, rest: string)
    ensures taken == frames + Drain(buffer).frames && rest == Drain(buffer).rest
  {
    hide TakeFrame, FrameIn, Drain;
    taken, rest := frames, buffer;
    while true
      invariant taken + Drain(rest).frames == frames + Drain(buffer).frames
      invariant Drain(rest).rest == Drain(buffer).rest
      decreases |rest|
    {
      DrainNext(rest);
      var split := TakeFrame(rest);
      if split.None? {
        break;
      }
      DrainStep(taken, rest);
      rest := split.value.1;
      var parsed := ParseFrame(split.value.0);
      if parsed.Some? {
        taken := taken + [parsed.value];
      }
    }
  }

  /** The frames read depend on the text alone, never on where it was split: they are what
      its pieces between blank lines are read as. */
  method ReadSse(chunks: seq<string>) returns (frames: seq<Frame>)
    ensures frames == FramesIn(Joined(chunks))
    ensures exists pieces, ends :: CutAtBlankLines(Joined(chunks), pieces, ends) && frames == FramesRead(pieces)
  {
    hide TakeFrame, FrameIn, Drain, CutAtBlankLines;
    EveryStreamIsCut(Joined(chunks));
    DrainNothing();
    var buffer := "";
    frames := [];
    var i := 0;
    while i < |chunks|
      invariant 0 <= i <= |chunks|
      invariant Drain(Joined(chunks[..i])) == Drained(frames, buffer)
    {
      assert chunks[..i + 1][..i] == chunks[..i];
      DrainInTwo(Joined(chunks[..i]), chunks[i]);
      frames, buffer := TakeFrames(frames, buffer + chunks[i]);
      i := i + 1;
    }
    assert chunks[..i] == chunks;
    var tail := ParseFrame(buffer);
    if tail.Some? {
      frames := frames + [tail.value];
    }
  }

  // ---------------------------------------------------------------- the browser reads what the server prints

  function Body(f: Frame): string {
    "event: " + f.event + "\ndata: " + f.data
  }

  /** A frame as the browser sees it: a carriage return that ends a line is part of the
      line's end. */
  function Chomped(f: Frame): Frame {
    Frame(Chomp(f.event), Chomp(f.data))
  }

  function AllChomped(frames: seq<Frame>): seq<Frame> {
    seq(|frames|, i requires 0 <= i < |frames| => Chomped(frames[i]))
  }

  lemma FieldLine(name: string, value: string)
    requires name != "" && name[0] != ':' && ':' !in name
    ensures var line := name + ": " + value;
      !Ignored(line) && FieldOf(line) == name && ValueOf(line) == value
  {
    var line := name + ": " + value;
    forall j: nat | j < |name|
      ensures !MatchesAt(line, ":", j)
    {
      assert line[j..j + 1] == [name[j]];
      assert name[j] in name;
    }
    assert line[|name|..|name| + 1] == ":";
    FirstMatch(line, ":", |name|);
    assert line[|name| + 1..] == " " + value;
    assert (" " + value)[1..] == value;
    assert line[..|name|] == name;
  }

  lemma ChompPrefix(head: string, tail: string)
    requires head != "" && head[|head| - 1] != '\r'
    ensures Chomp(head + tail) == head + Chomp(tail)
  {
    if tail == "" {
      assert head + tail == head;
    }
  }

  lemma PrintedField(name: string, value: string)
    requires name != "" && name[0] != ':' && ':' !in name
    ensures var line := Chomp(name + ": " + value);
      !Ignored(line) && FieldOf(line) == name && ValueOf(line) == Chomp(value)
  {
    ChompPrefix(name + ": ", value);
    FieldLine(name, Chomp(value));
  }

  lemma BodySplits(f: Frame)
    requires Printable(f)
    ensures Split(Body(f)) == ["event" + ": " + f.event, "data" + ": " + f.data]
  {
    hide Split;
    var first, second := "event" + ": " + f.event, "data" + ": " + f.data;
    assert Body(f) == first + "\n" + second;
    SplitFirst(first, second);
    SplitOne(second);
    assert [first] + [second] == [first, second];
  }

  lemma PrintedFrameParses(f: Frame)
    requires Printable(f)
    ensures FrameIn(Body(f)) == Some(Chomped(f))
  {
    BodySplits(f);
    PrintedField("event", f.event);
    PrintedField("data", f.data);
    hide Split, Chomp, FieldOf, ValueOf, Ignored, Body, EventIn, DataIn;
    TwoFields("event" + ": " + f.event, "data" + ": " + f.data);
  }

  lemma TwoFields(first: string, second: string)
    requires !Ignored(Chomp(first)) && FieldOf(Chomp(first)) == "event"
    requires !Ignored(Chomp(second)) && FieldOf(Chomp(second)) == "data"
    ensures EventIn([first, second]) == ValueOf(Chomp(first))
    ensures DataIn([first, second]) == [ValueOf(Chomp(second))]
  {
    hide Chomp, FieldOf, ValueOf, Ignored;
    var lines := [first, second];
    assert lines[..1] == [first] && [first][..0] == [];
    assert DataIn([first]) == DataIn([]) == [];
    assert EventIn([first]) == ValueOf(Chomp(first));
  }

  /** A printed frame is taken off exactly, whatever follows it. */
  lemma PrintedFrameIsTaken(f: Frame, more: string)
    requires Printable(f)
    ensures TakeFrame(Print(f) + more) == Some((Body(f), more))
  {
    var text, body := Print(f) + more, Body(f);
    var i := |body|;
    assert text == body + LFLF + more;
    assert text[i..i + 2] == LFLF;
    var gap := |"event: " + f.event|;
    assert text[gap + 1] == 'd';
    forall j: nat | j < i
      ensures !Terminates(text, j)
    {
      OneBreakInBody(f, j);
      if j + 1 < i {
        OneBreakInBody(f, j + 1);
      }
      if j + 3 < i {
        OneBreakInBody(f, j + 3);
      }
      TerminatorChars(text, j);
    }
    TakeFrameIsFirst(text, i);
    assert text[..i] == body && text[i + 2..] == more;
  }

  lemma OneBreakInBody(f: Frame, j: nat)
    requires Printable(f) && j < |Body(f)|
    ensures Body(f)[j] == '\n' <==> j == |"event: " + f.event|
  {
    var head, tail := "event: " + f.event, "data: " + f.data;
    assert Body(f) == head + "\n" + tail;
    if j < |head| {
      assert Body(f)[j] == head[j];
      if j >= 7 {
        assert head[j] == f.event[j - 7] && f.event[j - 7] in f.event;
      }
    } else if j > |head| {
      assert Body(f)[j] == tail[j - |head| - 1];
      if j - |head| - 1 >= 6 {
        assert tail[j - |head| - 1] == f.data[j - |head| - 1 - 6] && f.data[j - |head| - 1 - 6] in f.data;
      }
    }
  }

  lemma DrainTaken(text: string, body: string, more: string, f: Frame)
    requires TakeFrame(text) == Some((body, more)) && FrameIn(body) == Some(f)
    ensures Drain(text) == Drained([f] + Drain(more).frames, Drain(more).rest)
  {
    hide TakeFrame, FrameIn, Drain;
    DrainNext(text);
  }

  lemma {:induction false} PrintedFramesDrain(frames: seq<Frame>)
    requires forall f | f in frames :: Printable(f)
    ensures Drain(PrintAll(frames)) == Drained(AllChomped(frames), "")
  {
    if frames == [] {
      DrainNothing();
    } else {
      hide TakeFrame, FrameIn, Print, Body, Chomped, Drain;
      var f, rest := frames[0], frames[1..];
      assert f in frames && forall g | g in rest :: g in frames;
      PrintedFramesDrain(rest);
      PrintedFrameIsTaken(f, PrintAll(rest));
      PrintedFrameParses(f);
      DrainTaken(PrintAll(frames), Body(f), PrintAll(rest), Chomped(f));
      ChompedFirst(frames);
    }
  }

  lemma ChompedFirst(frames: seq<Frame>)
    requires frames != []
    ensures AllChomped(frames) == [Chomped(frames[0])] + AllChomped(frames[1..])
  {
  }

  /** Whatever the server prints, split anywhere, the browser reads back exactly, unless
      a name or payload ends in a carriage return, which it then loses. */
  lemma BrowserReadsWhatWasPrinted(frames: seq<Frame>)
    requires forall f | f in frames :: Printable(f)
    ensures FramesIn(PrintAll(frames)) == AllChomped(frames)
    ensures FramesIn(PrintAll(frames)) == frames
       <==> forall f | f in frames :: !EndsInReturn(f.event) && !EndsInReturn(f.data)
  {
    PrintedFramesDrain(frames);
    assert Split("") == [""] && [""][..0] == [];
    assert FrameIn("") == None;
    if forall f | f in frames :: !EndsInReturn(f.event) && !EndsInReturn(f.data) {
      forall i | 0 <= i < |frames|
        ensures AllChomped(frames)[i] == frames[i]
      {
        assert frames[i] in frames;
      }
      assert AllChomped(frames) == frames;
    } else {
      var f :| f in frames && (EndsInReturn(f.event) || EndsInReturn(f.data));
      var i :| 0 <= i < |frames| && frames[i] == f;
      assert AllChomped(frames)[i] == Chomped(f) != f;
    }
  }

  // ---------------------------------------------------------------- the line reader

  /** `iter_sse` over the lines of a stream: `event` is the name in force. */
  function LinesRead(lines: seq<string>, event: Option<string>): seq<Frame>
    decreases |lines|
  {
    if lines == [] then []
    else if lines[0] == "" then LinesRead(lines[1..], None)
    else if MatchesAt(lines[0], "event:", 0) then LinesRead(lines[1..], Some(Strip(lines[0][6..])))
    else if MatchesAt(lines[0], "data:", 0) && event.Some? && event.value != "" then
      [Frame(event.value, Strip(lines[0][5..]))] + LinesRead(lines[1..], event)
    else LinesRead(lines[1..], event)
  }

  // ---------------------------------------------------------------- what the line reader yields, line by line

  /** The name in force at line `i` was given at line `j`. */
  ghost predicate InForce(lines: seq<string>, i: nat, j: nat)
    requires i <= |lines|
  {
    j < i && Starts(lines[j], "event:") && forall k | j < k < i :: lines[k] != "" && !Starts(lines[k], "event:")
  }

  predicate Starts(line: string, prefix: string) {
    |prefix| <= |line| && line[..|prefix|] == prefix
  }

  /** A `data:` line under a name that is not blank yields a frame of both, outer space off. */
  ghost predicate Yields(lines: seq<string>, i: nat, f: Frame)
    requires i < |lines|
  {
    && Starts(lines[i], "data:") && f.event != "" && f.data == Strip(lines[i][5..])
    && exists j: nat :: InForce(lines, i, j) && f.event == Strip(lines[j][6..])
  }

  ghost predicate YieldsAny(lines: seq<string>, i: nat)
    requires i < |lines|
  {
    exists f :: Yields(lines, i, f)
  }

  ghost function Yielding(lines: seq<string>, n: nat): nat
    requires n <= |lines|
  {
    if n == 0 then 0 else Yielding(lines, n - 1) + if YieldsAny(lines, n - 1) then 1 else 0
  }

  /** One frame for every line that yields one, in the lines' order. */
  ghost predicate YieldedRightly(lines: seq<string>, frames: seq<Frame>) {
    && |frames| == Yielding(lines, |lines|)
    && forall i, f | 0 <= i < |lines| && Yields(lines, i, f) ::
         Yielding(lines, i) < |frames| && frames[Yielding(lines, i)] == f
  }

  /** The name in force after one more line, and the frame that line yields. */
  function NameAfter(event: Option<string>, line: string): Option<string> {
    if line == "" then None
    else if MatchesAt(line, "event:", 0) then Some(Strip(line[6..]))
    else event
  }

  function FrameAt(event: Option<string>, line: string): seq<Frame> {
    if line != "" && !MatchesAt(line, "event:", 0) && MatchesAt(line, "data:", 0) && event.Some? && event.value != ""
    then [Frame(event.value, Strip(line[5..]))]
    else []
  }

  lemma ReadOne(line: string, rest: seq<string>, event: Option<string>)
    ensures LinesRead([line] + rest, event) == FrameAt(event, line) + LinesRead(rest, NameAfter(event, line))
  {
    hide Strip, MatchesAt;
    assert ([line] + rest)[1..] == rest;
  }

  function NameFrom(lines: seq<string>, event: Option<string>): Option<string> {
    if lines == [] then event else NameAfter(NameFrom(lines[..|lines| - 1], event), lines[|lines| - 1])
  }

  lemma {:induction false} ReadSnoc(lines: seq<string>, last: string, event: Option<string>)
    ensures LinesRead(lines + [last], event) == LinesRead(lines, event) + FrameAt(NameFrom(lines, event), last)
  {
    hide FrameAt, NameAfter, LinesRead;
    if lines == [] {
      ReadOne(last, [], event);
      ReadNothing(NameAfter(event, last));
      ReadNothing(event);
      assert [last] + [] == lines + [last];
    } else {
      var first, rest := lines[0], lines[1..];
      assert lines == [first] + rest && lines + [last] == [first] + (rest + [last]);
      ReadOne(first, rest, event);
      ReadOne(first, rest + [last], event);
      ReadSnoc(rest, last, NameAfter(event, first));
      NameFromFirst(lines, event);
    }
  }

  lemma ReadNothing(event: Option<string>)
    ensures LinesRead([], event) == []
  {
  }

  lemma {:induction false} NameFromFirst(lines: seq<string>, event: Option<string>)
    requires lines != []
    ensures NameFrom(lines, event) == NameFrom(lines[1..], NameAfter(event, lines[0]))
  {
    hide NameAfter;
    var n := |lines| - 1;
    if n == 0 {
      assert lines[..0] == [] == lines[1..];
    } else {
      NameFromFirst(lines[..n], event);
      assert lines[1..][..n - 1] == lines[..n][1..] && lines[1..][n - 1] == lines[n];
    }
  }

  ghost predicate GivenAt(lines: seq<string>, j: nat, event: string) {
    InForce(lines, |lines|, j) && event == Strip(lines[j][6..])
  }

  lemma InForceBefore(lines: seq<string>, last: string, i: nat, j: nat)
    requires i <= |lines|
    ensures InForce(lines + [last], i, j) <==> InForce(lines, i, j)
  {
    assert forall k | 0 <= k < |lines| :: (lines + [last])[k] == lines[k];
  }

  lemma GivenSnoc(lines: seq<string>, last: string, j: nat, event: string)
    ensures GivenAt(lines + [last], j, event) <==>
      if j == |lines| then Starts(last, "event:") && event == Strip(last[6..])
      else last != "" && !Starts(last, "event:") && GivenAt(lines, j, event)
  {
    hide Strip;
    var all, n := lines + [last], |lines|;
    assert all[n] == last;
    if j < n {
      assert all[j] == lines[j];
      if InForce(lines, n, j) && last != "" && !Starts(last, "event:") {
        forall k | j < k < n + 1
          ensures all[k] != "" && !Starts(all[k], "event:")
        {
          assert k < n ==> all[k] == lines[k];
        }
      }
      if InForce(all, n + 1, j) {
        assert all[n] != "" && !Starts(all[n], "event:");
        forall k | j < k < n
          ensures lines[k] != "" && !Starts(lines[k], "event:")
        {
          assert all[k] == lines[k];
        }
      }
    }
  }

  lemma NotGivenYet(lines: seq<string>, event: string)
    ensures !GivenAt(lines, |lines|, event)
  {
  }

  lemma {:induction false} NameFromMeans(lines: seq<string>, event: string)
    ensures NameFrom(lines, None) == Some(event) <==> exists j: nat :: GivenAt(lines, j, event)
  {
    if lines == [] {
      assert forall j: nat :: !GivenAt(lines, j, event);
    } else {
      var n := |lines| - 1;
      var before, last := lines[..n], lines[n];
      NameFromMeans(before, event);
      assert lines == before + [last];
      hide Strip, GivenAt;
      forall j: nat
        ensures GivenAt(lines, j, event) <==>
          if j == n then Starts(last, "event:") && event == Strip(last[6..])
          else last != "" && !Starts(last, "event:") && GivenAt(before, j, event)
      {
        GivenSnoc(before, last, j, event);
      }
      NotGivenYet(before, event);
      assert GivenAt(lines, n, event) <==> Starts(last, "event:") && event == Strip(last[6..]);
    }
  }

  lemma YieldsBefore(lines: seq<string>, last: string, i: nat, f: Frame)
    requires i < |lines|
    ensures Yields(lines + [last], i, f) <==> Yields(lines, i, f)
  {
    hide Strip, InForce;
    var all := lines + [last];
    assert all[i] == lines[i];
    forall j: nat
      ensures InForce(all, i, j) <==> InForce(lines, i, j)
      ensures j < i ==> all[j] == lines[j]
    {
      InForceBefore(lines, last, i, j);
    }
    assert forall j: nat :: InForce(lines, i, j) ==> j < i by {
      forall j: nat
        ensures InForce(lines, i, j) ==> j < i
      {
        InForceIsEarlier(lines, i, j);
      }
    }
  }

  lemma InForceIsEarlier(lines: seq<string>, i: nat, j: nat)
    requires i <= |lines|
    ensures InForce(lines, i, j) ==> j < i && |lines[j]| >= 6
  {
  }

  lemma YieldsLast(lines: seq<string>, last: string, f: Frame)
    ensures Yields(lines + [last], |lines|, f) <==>
      Starts(last, "data:") && f.event != "" && f.data == Strip(last[5..]) && NameFrom(lines, None) == Some(f.event)
  {
    hide Strip, InForce, Starts, NameFrom;
    var all, n := lines + [last], |lines|;
    NameFromMeans(lines, f.event);
    forall j: nat
      ensures InForce(all, n, j) <==> InForce(lines, n, j)
      ensures InForce(lines, n, j) ==> j < n && |lines[j]| >= 6
    {
      InForceBefore(lines, last, n, j);
      InForceIsEarlier(lines, n, j);
    }
    assert forall j | 0 <= j < n :: all[j] == lines[j];
    if Yields(all, n, f) {
      var j: nat :| InForce(all, n, j) && f.event == Strip(all[j][6..]);
      assert GivenAt(lines, j, f.event);
    }
  }

  lemma FrameAtIs(event: Option<string>, line: string)
    ensures FrameAt(event, line) == if Starts(line, "data:") && event.Some? && event.value != ""
                                    then [Frame(event.value, Strip(line[5..]))] else []
  {
    hide Strip;
    if Starts(line, "data:") {
      assert line[0] == line[..5][0] == 'd';
    }
  }

  lemma {:induction false} YieldingInFront(lines: seq<string>, last: string, n: nat)
    requires n <= |lines|
    ensures Yielding(lines + [last], n) == Yielding(lines, n)
  {
    hide Yields;
    if n > 0 {
      var all, i := lines + [last], n - 1;
      YieldingInFront(lines, last, i);
      forall f
        ensures Yields(all, i, f) <==> Yields(lines, i, f)
      {
        YieldsBefore(lines, last, i, f);
      }
    }
  }

  lemma YieldedSnoc(lines: seq<string>, last: string, frames: seq<Frame>, more: seq<Frame>)
    requires YieldedRightly(lines, frames)
    requires |more| <= 1 && forall f :: Yields(lines + [last], |lines|, f) <==> more == [f]
    ensures YieldedRightly(lines + [last], frames + more)
  {
    hide Yields;
    var all, n := lines + [last], |lines|;
    YieldingInFront(lines, last, n);
    assert YieldsAny(all, n) <==> more != [] by {
      if more != [] {
        assert Yields(all, n, more[0]);
      }
    }
    forall i, f | 0 <= i < |all| && Yields(all, i, f)
      ensures Yielding(all, i) < |frames + more| && (frames + more)[Yielding(all, i)] == f
    {
      if i < n {
        YieldsBefore(lines, last, i, f);
        YieldingInFront(lines, last, i);
      }
    }
  }

  /** Whatever the lines, the frames read are those they yield. */
  lemma {:induction false} EveryLineIsReadRightly(lines: seq<string>)
    ensures YieldedRightly(lines, LinesRead(lines, None))
  {
    hide FrameAt, NameFrom, LinesRead, Yields, Starts, Strip;
    if lines == [] {
      ReadNothing(None);
    } else {
      var n := |lines| - 1;
      var before, last := lines[..n], lines[n];
      assert lines == before + [last];
      EveryLineIsReadRightly(before);
      ReadSnoc(before, last, None);
      var more := FrameAt(NameFrom(before, None), last);
      FrameAtIs(NameFrom(before, None), last);
      forall f
        ensures Yields(lines, n, f) <==> more == [f]
      {
        YieldsLast(before, last, f);
      }
      YieldedSnoc(before, last, LinesRead(before, None), more);
    }
  }

  method IterSse(lines: seq<string>) returns (frames: seq<Frame>)
    ensures frames == LinesRead(lines, None)
    ensures YieldedRightly(lines, frames)
  {
    hide YieldedRightly;
    EveryLineIsReadRightly(lines);
    frames := [];
    var event: Option<string> := None;
    var i := 0;
    assert lines[0..] == lines;
    while i < |lines|
      invariant 0 <= i <= |lines|
      invariant LinesRead(lines, None) == frames + LinesRead(lines[i..], event)
    {
      var line := lines[i];
      assert lines[i..][0] == line && lines[i..][1..] == lines[i + 1..];
      if line == "" {
        event := None;
      } else if MatchesAt(line, "event:", 0) {
        event := Some(Strip(line[6..]));
      } else if MatchesAt(line, "data:", 0) && event.Some? && event.value != "" {
        frames := frames + [Frame(event.value, Strip(line[5..]))];
      }
      i := i + 1;
    }
  }

  function LinesOf(frames: seq<Frame>): seq<string> {
    if frames == [] then []
    else ["event: " + frames[0].event, "data: " + frames[0].data, ""] + LinesOf(frames[1..])
  }

  lemma PrintedFrameSplits(f: Frame, more: string)
    requires Printable(f)
    ensures Split(Print(f) + more) == ["event: " + f.event, "data: " + f.data, ""] + Split(more)
  {
    hide Split;
    var first, second := "event: " + f.event, "data: " + f.data;
    SplitFirst("", more);
    SplitFirst(second, "\n" + more);
    SplitFirst(first, second + "\n" + ("\n" + more));
    assert Print(f) + more == first + "\n" + (second + "\n" + ("\n" + more));
    assert "" + "\n" + more == "\n" + more;
    assert [first] + ([second] + ([""] + Split(more))) == [first, second, ""] + Split(more);
  }

  /** The lines of what is printed; the last break leaves an empty remainder. */
  lemma {:induction false} PrintedLines(frames: seq<Frame>)
    requires forall f | f in frames :: Printable(f)
    ensures Split(PrintAll(frames)) == LinesOf(frames) + [""]
  {
    if frames != [] {
      var f, more := frames[0], PrintAll(frames[1..]);
      assert f in frames && forall g | g in frames[1..] :: g in frames;
      PrintedLines(frames[1..]);
      PrintedFrameSplits(f, more);
      hide Split, Print;
      var head := ["event: " + f.event, "data: " + f.data, ""];
      assert LinesOf(frames) + [""] == head + (LinesOf(frames[1..]) + [""]);
    }
  }

  /** What the line reader makes of a frame: nothing when its name strips to nothing. */
  function Kept(frames: seq<Frame>): seq<Frame> {
    if frames == [] then []
    else if Strip(frames[0].event) == "" then Kept(frames[1..])
    else [Frame(Strip(frames[0].event), Strip(frames[0].data))] + Kept(frames[1..])
  }

  lemma OneFrameRead(f: Frame, rest: seq<string>, event: Option<string>)
    ensures LinesRead(["event: " + f.event, "data: " + f.data, ""] + rest, event)
         == (if Strip(f.event) == "" then [] else [Frame(Strip(f.event), Strip(f.data))]) + LinesRead(rest, None)
  {
    hide Strip;
    var first, second := "event: " + f.event, "data: " + f.data;
    var lines := [first, second, ""] + rest;
    assert first[..6] == "event:" && first[6..] == " " + f.event;
    assert second[..5] == "data:" && second[5..] == " " + f.data && second[0] != 'e';
    assert !MatchesAt(second, "event:", 0);
    StripDropsOneSpace(f.event);
    StripDropsOneSpace(f.data);
    assert lines[1..] == [second, ""] + rest && ([second, ""] + rest)[1..] == [""] + rest && ([""] + rest)[1..] == rest;
    assert LinesRead([""] + rest, Some(Strip(f.event))) == LinesRead(rest, None);
  }

  lemma {:induction false} LinesAreKept(frames: seq<Frame>, event: Option<string>)
    ensures LinesRead(LinesOf(frames) + [""], event) == Kept(frames)
    decreases |frames|
  {
    if frames == [] {
      assert (LinesOf(frames) + [""])[1..] == [];
    } else {
      var rest := LinesOf(frames[1..]) + [""];
      OneFrameRead(frames[0], rest, event);
      LinesAreKept(frames[1..], None);
      hide LinesRead, Strip;
      assert LinesOf(frames) + [""] == ["event: " + frames[0].event, "data: " + frames[0].data, ""] + rest;
    }
  }

  predicate Clean(f: Frame) {
    f.event != "" && Trimmed(f.event) && Trimmed(f.data)
  }

  lemma {:induction false} KeptIsAllExactlyWhenClean(frames: seq<Frame>)
    ensures |Kept(frames)| <= |frames|
    ensures Kept(frames) == frames <==> forall f | f in frames :: Clean(f)
  {
    if frames != [] {
      var f := frames[0];
      KeptIsAllExactlyWhenClean(frames[1..]);
      StripKeepsTrimmed(f.event);
      StripKeepsTrimmed(f.data);
      assert f in frames && forall g | g in frames[1..] :: g in frames;
      assert frames == [f] + frames[1..];
      if Strip(f.event) == "" {
        assert |Kept(frames)| < |frames|;
        assert !Clean(f);
      } else if Kept(frames) == frames {
        assert Kept(frames)[0] == f && Kept(frames)[1..] == Kept(frames[1..]);
      }
    }
  }

  /** Over the lines of whatever the server prints, the reader yields each frame stripped
      and drops those without a name; it reads back exactly what was printed just when
      every frame is named and carries no outer space. */
  lemma LineReaderReadsWhatWasPrinted(frames: seq<Frame>)
    requires forall f | f in frames :: Printable(f)
    ensures LinesRead(Split(PrintAll(frames)), None) == Kept(frames)
    ensures LinesRead(Split(PrintAll(frames)), None) == frames <==> forall f | f in frames :: Clean(f)
  {
    PrintedLines(frames);
    LinesAreKept(frames, None);
    KeptIsAllExactlyWhenClean(frames);
  }
}
