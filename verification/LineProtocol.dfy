// The bounded line reader of the JSON-RPC endpoint: a loop over buffer refills.
module LineProtocol {
  import opened Wrappers
  import opened Utf8
  import opened Lines

  const NEWLINE: Byte := 0x0A

  datatype BoundedLine = Line(text: seq<Byte>) | TooLarge | InvalidUtf8

  datatype ReadError = ReadFailed

  type Answer = Result<Option<BoundedLine>, ReadError>

  // A buffered reader: each refill yields the rest of the current buffer or the
  // next one. The stream ends, or reading it fails, after the last buffer.
  class Reader {
    var buffers: seq<seq<Byte>>
    const failing: bool

    ghost predicate Valid()
      reads this
    {
      forall i :: 0 <= i < |buffers| ==> buffers[i] != []
    }

    ghost function Remaining(): seq<Byte>
      reads this
    {
      Flatten(buffers)
    }

    constructor (buffers: seq<seq<Byte>>, failing: bool)
      requires forall i :: 0 <= i < |buffers| ==> buffers[i] != []
      ensures Valid() && Remaining() == Flatten(buffers) && this.failing == failing
    {
      this.buffers, this.failing := buffers, failing;
    }

    method FillBuf() returns (available: Result<seq<Byte>, ReadError>)
      requires Valid()
      ensures Remaining() == [] ==> buffers == [] && available == if failing then Err(ReadFailed) else Ok([])
      ensures Remaining() != [] ==> buffers != [] && available == Ok(buffers[0])
      ensures available.Ok? ==> available.value <= Remaining()
    {
      available := if buffers != [] then Ok(buffers[0]) else if failing then Err(ReadFailed) else Ok([]);
    }

    method Consume(n: nat)
      requires Valid() && buffers != [] && n <= |buffers[0]|
      modifies this
      ensures Valid() && Remaining() == old(Remaining())[n..]
    {
      assert buffers[0] + Flatten(buffers[1..]) == Remaining();
      ghost var rest := buffers[1..];
      if n == |buffers[0]| {
        buffers := buffers[1..];
      } else {
        buffers := [buffers[0][n..]] + buffers[1..];
        assert buffers[1..] == rest;
      }
    }
  }

  // What one line of the stream is answered with.
  function Judge(line: seq<Byte>, maxBytes: nat): BoundedLine {
    if |line| > maxBytes then TooLarge
    else if Utf8.Valid(line) then Line(line)
    else InvalidUtf8
  }

  // The answer depends on the rest of the stream alone, not on its buffers.
  function NextAnswer(s: seq<Byte>, failing: bool, maxBytes: nat): Answer {
    if NEWLINE !in s && failing then Err(ReadFailed)
    else if s == [] then Ok(None)
    else Ok(Some(Judge(s[..FirstLineEnd(s, NEWLINE)], maxBytes)))
  }

  method Position(available: seq<Byte>) returns (index: Option<nat>)
    ensures index.None? ==> NEWLINE !in available
    ensures index.Some? ==>
              index.value < |available| && available[index.value] == NEWLINE && NEWLINE !in available[..index.value]
  {
    var i := 0;
    while i < |available|
      invariant i <= |available| && NEWLINE !in available[..i]
    {
      if available[i] == NEWLINE {
        return Some(i);
      }
      i := i + 1;
    }
    index := None;
  }

  // How far the reader got into the line: what it read and whether it kept it.
  ghost predicate Progress(s: seq<Byte>, done: nat, bytes: seq<Byte>, oversized: bool, maxBytes: nat) {
    done <= |s| && (oversized <==> done > maxBytes) && (!oversized ==> bytes == s[..done])
  }

  lemma AppendedBytes(s: seq<Byte>, done: nat, available: seq<Byte>, n: nat)
    requires done <= |s| && available <= s[done..] && n <= |available|
    ensures s[..done + n] == s[..done] + available[..n] && s[done..][n..] == s[done + n..]
    ensures n < |available| ==> s[done + n] == available[n]
  {
    assert forall j :: 0 <= j < |available| ==> s[done..][j] == available[j];
  }

  lemma LineGoesOn(s: seq<Byte>, done: nat, available: seq<Byte>)
    requires done <= |s| && available <= s[done..] && NEWLINE !in s[..done] && NEWLINE !in available
    ensures NEWLINE !in s[..done + |available|]
  {
    AppendedBytes(s, done, available, |available|);
    assert available[..|available|] == available;
    NoNewlineBefore(s[..done], available);
  }

  lemma LineEnded(s: seq<Byte>, done: nat, available: seq<Byte>, i: nat)
    requires done <= |s| && available <= s[done..] && NEWLINE !in s[..done]
    requires i < |available| && available[i] == NEWLINE && NEWLINE !in available[..i]
    ensures FirstLineEnd(s, NEWLINE) == done + i + 1
  {
    AppendedBytes(s, done, available, i);
    NoNewlineBefore(s[..done], available[..i]);
    FirstLineEndsAt(s, NEWLINE, done + i);
  }

  lemma NoNewlineBefore(a: seq<Byte>, b: seq<Byte>)
    requires NEWLINE !in a && NEWLINE !in b
    ensures NEWLINE !in a + b
  {
  }

  method NextBoundedLine(reader: Reader, maxBytes: nat) returns (res: Answer)
    requires reader.Valid()
    modifies reader
    ensures reader.Valid()
    ensures res == NextAnswer(old(reader.Remaining()), reader.failing, maxBytes)
    ensures reader.Remaining() == old(reader.Remaining())[FirstLineEnd(old(reader.Remaining()), NEWLINE)..]
  {
    ghost var s := reader.Remaining();
    ghost var done := 0;
    var bytes: seq<Byte>, oversized, sawAny := [], false, false;
    while true
      invariant reader.Valid()
      invariant Progress(s, done, bytes, oversized, maxBytes) && (sawAny <==> done > 0)
      invariant reader.Remaining() == s[done..] && NEWLINE !in s[..done]
      decreases |s| - done
    {
      var available :- reader.FillBuf();
      if |available| == 0 {
        if !sawAny {
          return Ok(None);
        }
        break;
      }
      sawAny := true;
      var newline := Position(available);
      var consumed := if newline.Some? then newline.value + 1 else |available|;
      AppendedBytes(s, done, available, consumed);
      if newline.Some? {
        LineEnded(s, done, available, newline.value);
      } else {
        LineGoesOn(s, done, available);
      }
      if !oversized {
        if |bytes| + consumed > maxBytes {
          oversized := true;
        } else {
          bytes := bytes + available[..consumed];
        }
      }
      reader.Consume(consumed);
      done := done + consumed;
      if newline.Some? {
        break;
      }
    }
    assert done == FirstLineEnd(s, NEWLINE);
    if oversized {
      return Ok(Some(TooLarge));
    }
    if Utf8.Valid(bytes) {
      res := Ok(Some(Line(bytes)));
    } else {
      res := Ok(Some(InvalidUtf8));
    }
  }

  function JudgeAll(lines: seq<seq<Byte>>, maxBytes: nat): (answers: seq<BoundedLine>)
    ensures |answers| == |lines|
    ensures forall i :: 0 <= i < |lines| ==> answers[i] == Judge(lines[i], maxBytes)
  {
    if lines == [] then [] else [Judge(lines[0], maxBytes)] + JudgeAll(lines[1..], maxBytes)
  }

  // The lines of the stream that are answered before it ends or fails: an
  // unended last line is lost when the stream fails.
  function AnsweredLines(s: seq<Byte>, failing: bool): seq<seq<Byte>> {
    var lines := Split(s, NEWLINE);
    if failing && |lines| > 0 && !Closed(lines[|lines| - 1], NEWLINE) then lines[..|lines| - 1] else lines
  }

  lemma AnsweredOneMore(s: seq<Byte>, failing: bool)
    requires s != [] && (NEWLINE in s || !failing)
    ensures var n := FirstLineEnd(s, NEWLINE);
            AnsweredLines(s, failing) == [s[..n]] + AnsweredLines(s[n..], failing)
  {
    var n := FirstLineEnd(s, NEWLINE);
    var rest := Split(s[n..], NEWLINE);
    assert Split(s, NEWLINE) == [s[..n]] + rest;
    if rest == [] {
      assert NEWLINE in s ==> Closed(s[..n], NEWLINE) by {
        assert s[..n][..n - 1] == s[..n - 1];
      }
    }
  }

  // The endpoint's loop: it asks for lines until there are none.
  method ServeLines(reader: Reader, maxBytes: nat) returns (answers: seq<BoundedLine>, failed: bool)
    requires reader.Valid()
    modifies reader
    ensures answers == JudgeAll(AnsweredLines(old(reader.Remaining()), reader.failing), maxBytes)
    ensures reader.Valid() && reader.Remaining() == [] && failed == reader.failing
  {
    answers, failed := [], false;
    ghost var s := reader.Remaining();
    ghost var answered: seq<seq<Byte>> := [];
    while true
      invariant reader.Valid() && answers == JudgeAll(answered, maxBytes)
      invariant AnsweredLines(s, reader.failing) == answered + AnsweredLines(reader.Remaining(), reader.failing)
      decreases |reader.Remaining()|
    {
      ghost var rest := reader.Remaining();
      var line := NextBoundedLine(reader, maxBytes);
      if line.Err? || line.value.None? {
        NothingAnswered(rest, reader.failing);
        assert answered + [] == answered;
        failed := line.Err?;
        break;
      }
      ghost var n := FirstLineEnd(rest, NEWLINE);
      AnsweredOneMore(rest, reader.failing);
      JudgeOneMore(answered, rest[..n], maxBytes);
      AnsweredSoFar(answered, rest[..n], AnsweredLines(rest[n..], reader.failing));
      answered := answered + [rest[..n]];
      answers := answers + [line.value.value];
    }
  }

  lemma AnsweredSoFar(answered: seq<seq<Byte>>, line: seq<Byte>, rest: seq<seq<Byte>>)
    ensures answered + ([line] + rest) == (answered + [line]) + rest
  {
  }

  lemma NothingAnswered(s: seq<Byte>, failing: bool)
    requires s == [] || (NEWLINE !in s && failing)
    ensures AnsweredLines(s, failing) == [] && s[FirstLineEnd(s, NEWLINE)..] == []
  {
    if s != [] {
      assert s[..|s|] == s && Split(s[|s|..], NEWLINE) == [];
    }
  }

  lemma JudgeOneMore(lines: seq<seq<Byte>>, line: seq<Byte>, maxBytes: nat)
    ensures JudgeAll(lines + [line], maxBytes) == JudgeAll(lines, maxBytes) + [Judge(line, maxBytes)]
  {
  }

  predicate AllText(lines: seq<seq<Byte>>) {
    forall line :: line in lines ==> Utf8.Valid(line)
  }

  // A stream is well-formed text exactly when each of its lines is, so cutting
  // at newlines neither hides nor invents a malformed line.
  lemma {:induction false} LinesOfText(s: seq<Byte>)
    ensures Utf8.Valid(s) <==> AllText(Split(s, NEWLINE))
  {
    if s != [] {
      var n := FirstLineEnd(s, NEWLINE);
      LinesOfText(s[n..]);
      CutAfterFirstLine(s);
      AllTextCons(s[..n], Split(s[n..], NEWLINE));
    }
  }

  lemma AllTextCons(line: seq<Byte>, rest: seq<seq<Byte>>)
    ensures AllText([line] + rest) <==> Utf8.Valid(line) && AllText(rest)
  {
    var all := [line] + rest;
    assert all[0] == line;
    assert forall x :: x in all <==> x == line || x in rest;
  }

  lemma CutAfterFirstLine(s: seq<Byte>)
    requires s != []
    ensures var n := FirstLineEnd(s, NEWLINE); Utf8.Valid(s) <==> Utf8.Valid(s[..n]) && Utf8.Valid(s[n..])
  {
    var n := FirstLineEnd(s, NEWLINE);
    if Utf8.Valid(s) {
      if n < |s| {
        AfterNewline(s, n - 1);
      }
      BoundarySplitsValid(s, n);
    }
    if Utf8.Valid(s[..n]) && Utf8.Valid(s[n..]) {
      ValidConcat(s[..n], s[n..]);
      assert s[..n] + s[n..] == s;
    }
  }

  lemma {:induction false} AfterNewline(s: seq<Byte>, i: nat)
    requires Utf8.Valid(s) && i + 1 < |s| && s[i] == NEWLINE
    ensures Boundary(s, i + 1)
  {
    BoundarySplitsValid(s, i);
    var t := s[i..];
    assert t[0] == NEWLINE && t[1..][0] == s[i + 1];
    assert CharLength(t[1..]) > 0;
  }

  // The reader recovers: whatever line came before, too large, malformed or
  // fine, the next line is answered as if it came first.
  lemma RecoversAfterAnyLine(before: seq<seq<Byte>>, line: seq<Byte>, after: seq<seq<Byte>>, maxBytes: nat)
    requires AreLines(before + [line] + after, NEWLINE)
    ensures var answers := JudgeAll(AnsweredLines(Flatten(before + [line] + after), false), maxBytes);
            |answers| == |before| + 1 + |after| && answers[|before|] == Judge(line, maxBytes)
  {
    SplitIsUnique(before + [line] + after, NEWLINE);
  }
}
