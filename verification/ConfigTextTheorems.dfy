// What editing the config text achieves, for every text.
module ConfigTextTheorems {
  import opened Lines
  import opened ConfigText

  const SECTION: seq<string> := [HEADER + "\n", "enabled = true\n"]

  // ----- lines outside the section are lines of a text without the section -----

  predicate AllClosed(lines: seq<string>) {
    forall i :: 0 <= i < |lines| ==> Closed(lines[i], NL)
  }

  predicate Headerless(lines: seq<string>) {
    forall i :: 0 <= i < |lines| ==> !IsHeader(lines[i])
  }

  lemma {:induction false} OutsideOfClosed(lines: seq<string>)
    requires AllClosed(lines)
    ensures AllClosed(Outside(lines))
  {
    if lines != [] {
      OutsideOfClosed(lines[..|lines| - 1]);
    }
  }

  lemma {:induction false} OutsideIsHeaderless(lines: seq<string>)
    ensures Headerless(Outside(lines))
  {
    if lines != [] {
      OutsideIsHeaderless(lines[..|lines| - 1]);
      HeaderIsSection(lines[|lines| - 1]);
    }
  }

  lemma {:induction false} NothingOwned(lines: seq<string>)
    requires Headerless(lines)
    ensures !Owned(lines) && Outside(lines) == lines
  {
    if lines != [] {
      NothingOwned(lines[..|lines| - 1]);
      assert lines == lines[..|lines| - 1] + [lines[|lines| - 1]];
    }
  }

  lemma OutsideIsLines(lines: seq<string>)
    requires AreLines(lines, NL)
    ensures AreLines(Outside(lines), NL)
  {
    if lines != [] {
      var init := lines[..|lines| - 1];
      assert AllClosed(init);
      OutsideOfClosed(init);
      assert Outside(lines) == Outside(init) || Outside(lines) == Outside(init) + [lines[|lines| - 1]];
    }
  }

  // A text without the owned section.
  predicate Plain(s: string) {
    Headerless(Split(s, NL))
  }

  lemma OutsideTextIsPlain(s: string)
    ensures Plain(OutsideText(s)) && Split(OutsideText(s), NL) == Outside(Split(s, NL))
  {
    SplitIsLines(s, NL);
    OutsideIsLines(Split(s, NL));
    SplitIsUnique(Outside(Split(s, NL)), NL);
    OutsideIsHeaderless(Split(s, NL));
  }

  lemma PlainIsUntouched(s: string)
    requires Plain(s)
    ensures OutsideText(s) == s && RemovedText(s) == CutTail(s)
  {
    NothingOwned(Split(s, NL));
    SplitIsLines(s, NL);
  }

  // ----- newlines at the end -----

  lemma FlattenOne(line: string)
    ensures Flatten([line]) == line
  {
    assert [line][1..] == [];
  }

  lemma FlattenLast(init: seq<string>, last: string)
    ensures Flatten(init + [last]) == Flatten(init) + last
  {
    FlattenConcat(init, [last]);
    FlattenOne(last);
  }

  lemma LastLine(s: string) returns (init: seq<string>, last: string)
    requires s != ""
    ensures Split(s, NL) == init + [last] && s == Flatten(init) + last
    ensures AllClosed(init) && last != "" && (Closed(last, NL) <==> s[|s| - 1] == NL)
    ensures !Closed(last, NL) ==> NL !in last
  {
    SplitIsLines(s, NL);
    var lines := Split(s, NL);
    init, last := lines[..|lines| - 1], lines[|lines| - 1];
    assert lines == init + [last];
    LastOfLines(init, last);
    FlattenLast(init, last);
    LastCharacter(Flatten(init), last);
  }

  lemma LastOfLines(init: seq<string>, last: string)
    requires AreLines(init + [last], NL)
    ensures AllClosed(init) && last != "" && (Closed(last, NL) || NL !in last)
    ensures Closed(last, NL) <==> last[|last| - 1] == NL
  {
    var lines := init + [last];
    assert lines[|lines| - 1] == last;
    assert forall i :: 0 <= i < |init| ==> lines[i] == init[i];
  }

  lemma LastCharacter(a: string, b: string)
    requires b != ""
    ensures (a + b)[|a + b| - 1] == b[|b| - 1]
  {
  }

  lemma EndedIsClosed(s: string)
    requires s == "" || EndsWith(s, "\n")
    ensures AllClosed(Split(s, NL))
  {
    if s != "" {
      var init, last := LastLine(s);
    }
  }

  // Appending closed lines to an ended text appends them to its lines.
  lemma SplitAppended(s: string, more: seq<string>)
    requires s == "" || EndsWith(s, "\n")
    requires AllClosed(more)
    ensures Split(s + Flatten(more), NL) == Split(s, NL) + more
  {
    EndedIsClosed(s);
    SplitIsLines(s, NL);
    FlattenConcat(Split(s, NL), more);
    SplitIsUnique(Split(s, NL) + more, NL);
  }

  lemma NewlineLine()
    ensures AllClosed(["\n"]) && Flatten(["\n"]) == "\n" && !IsHeader("\n")
  {
    assert "\n"[..0] == "";
    FlattenOne("\n");
  }

  lemma PlainWithNewline(s: string)
    requires Plain(s) && (s == "" || EndsWith(s, "\n"))
    ensures Plain(s + "\n")
  {
    NewlineLine();
    SplitAppended(s, ["\n"]);
  }

  lemma PlainWithoutNewline(s: string)
    requires Plain(s) && EndsWith(s, "\n\n")
    ensures Plain(s[..|s| - 1])
  {
    var t := s[..|s| - 1];
    assert s == t + "\n" && t[|t| - 1] == s[|s| - 2];
    NewlineLine();
    SplitAppended(t, ["\n"]);
    assert forall i :: 0 <= i < |Split(t, NL)| ==> Split(t, NL)[i] == Split(s, NL)[i];
  }

  lemma SplitEnded(s: string, init: seq<string>, last: string)
    requires s == Flatten(init) + last && AllClosed(init) && NL !in last
    ensures Split(s + "\n", NL) == init + [last + "\n"]
  {
    assert (last + "\n")[..|last|] == last;
    FlattenConcat(init, [last + "\n"]);
    FlattenOne(last + "\n");
    assert s + "\n" == Flatten(init) + (last + "\n");
    SplitIsUnique(init + [last + "\n"], NL);
  }

  // Ending the last line of a text leaves its titles alone.
  lemma PlainEnded(s: string)
    requires Plain(s) && s != "" && s[|s| - 1] != NL
    ensures Plain(s + "\n")
  {
    var init, last := LastLine(s);
    SplitEnded(s, init, last);
    TrimIgnoresNewline(last);
    var lines, ended := Split(s, NL), Split(s + "\n", NL);
    assert forall i :: 0 <= i < |init| ==> ended[i] == lines[i];
    assert lines[|init|] == last;
  }

  lemma {:induction false} CutTailKeepsPlain(s: string)
    requires Plain(s)
    ensures Plain(CutTail(s)) && Newlines(CutTail(s)) <= 2
    decreases |s|
  {
    EndsInNewlines(s);
    if EndsWith(s, "\n\n\n") {
      assert s[|s| - 2..] == s[|s| - 3..][1..];
      PlainWithoutNewline(s);
      CutTailKeepsPlain(s[..|s| - 1]);
    }
  }

  lemma PaddedKeepsPlain(s: string)
    requires Plain(s)
    ensures Plain(Padded(s))
  {
    var one := if s != "" && !EndsWith(s, "\n") then s + "\n" else s;
    if s != "" && !EndsWith(s, "\n") {
      PlainEnded(s);
      assert EndsWith(one, "\n");
    }
    if one != "" && !EndsWith(one, "\n\n") {
      PlainWithNewline(one);
    }
  }

  function Newlines(s: string): nat {
    if s == "" || s[|s| - 1] != NL then 0 else 1 + Newlines(s[..|s| - 1])
  }

  lemma EndsWithOneMore(s: string, suffix: string)
    ensures EndsWith(s, suffix + [NL]) <==> s != "" && s[|s| - 1] == NL && EndsWith(s[..|s| - 1], suffix)
  {
    if |s| > |suffix| {
      var k := |s| - |suffix| - 1;
      assert s[k..] == s[..|s| - 1][k..] + [s[|s| - 1]];
    }
  }

  lemma EndsInOne(s: string)
    ensures EndsWith(s, "\n") <==> Newlines(s) >= 1
  {
    assert "\n" == "" + [NL];
    EndsWithOneMore(s, "");
  }

  lemma EndsInTwo(s: string)
    ensures EndsWith(s, "\n\n") <==> Newlines(s) >= 2
  {
    assert "\n\n" == "\n" + [NL];
    EndsWithOneMore(s, "\n");
    if s != "" {
      EndsInOne(s[..|s| - 1]);
    }
  }

  lemma EndsInThree(s: string)
    ensures EndsWith(s, "\n\n\n") <==> Newlines(s) >= 3
  {
    assert "\n\n\n" == "\n\n" + [NL];
    EndsWithOneMore(s, "\n\n");
    if s != "" {
      EndsInTwo(s[..|s| - 1]);
    }
  }

  lemma EndsInNewlines(s: string)
    ensures EndsWith(s, "\n") <==> Newlines(s) >= 1
    ensures EndsWith(s, "\n\n") <==> Newlines(s) >= 2
    ensures EndsWith(s, "\n\n\n") <==> Newlines(s) >= 3
  {
    EndsInOne(s);
    EndsInTwo(s);
    EndsInThree(s);
  }

  lemma OneMoreNewline(s: string)
    ensures Newlines(s + "\n") == Newlines(s) + 1
  {
    assert (s + "\n")[..|s|] == s;
  }

  // Padding makes two newlines of none, one or two, except for the empty text.
  lemma PaddedTail(s: string)
    requires Newlines(s) <= 2
    ensures if s == "" then Padded(s) == "" else Newlines(Padded(s)) == 2
    ensures Padded(s) == s <==> s == "" || Newlines(s) == 2
  {
    EndsInNewlines(s);
    OneMoreNewline(s);
    EndsInNewlines(s + "\n");
    OneMoreNewline(s + "\n");
  }

  // ----- the edited text -----

  lemma RemovedIsPlain(s: string)
    ensures Plain(RemovedText(s)) && Newlines(RemovedText(s)) <= 2
  {
    OutsideTextIsPlain(s);
    CutTailKeepsPlain(OutsideText(s));
  }

  lemma CutTailOfShort(s: string)
    requires Newlines(s) <= 2
    ensures CutTail(s) == s
  {
    EndsInNewlines(s);
  }

  lemma HeaderLine()
    ensures Closed(SECTION[0], NL) && IsHeader(SECTION[0])
  {
    TrimIgnoresNewline(HEADER);
    assert SECTION[0][..|HEADER|] == HEADER;
  }

  lemma SettingLine()
    ensures Closed(SECTION[1], NL) && Trim(SECTION[1]) == ENABLED && !IsSection(SECTION[1])
  {
    TrimIgnoresNewline(ENABLED);
    assert ENABLED + "\n" == SECTION[1];
    assert SECTION[1][..|ENABLED|] == ENABLED;
  }

  lemma SectionLines()
    ensures AllClosed(SECTION) && Flatten(SECTION) == HEADER + "\nenabled = true\n"
    ensures IsHeader(SECTION[0]) && Trim(SECTION[1]) == ENABLED && !IsSection(SECTION[1])
  {
    HeaderLine();
    SettingLine();
    FlattenOne(SECTION[1]);
    assert SECTION[1..] == [SECTION[1]];
    ConcatIsAssociative(HEADER, "\n", SECTION[1]);
  }

  lemma EditedLines(s: string) returns (padded: string)
    ensures padded == Padded(RemovedText(s)) && Plain(padded) && (padded == "" || Newlines(padded) == 2)
    ensures Split(UpdatedText(s, true), NL) == Split(padded, NL) + SECTION
  {
    RemovedIsPlain(s);
    padded := Padded(RemovedText(s));
    PaddedKeepsPlain(RemovedText(s));
    PaddedTail(RemovedText(s));
    EndsInNewlines(padded);
    WithSection(padded);
  }

  lemma WithSection(padded: string)
    requires padded == "" || EndsWith(padded, "\n")
    ensures Split(padded + HEADER + "\nenabled = true\n", NL) == Split(padded, NL) + SECTION
  {
    SectionLines();
    SplitAppended(padded, SECTION);
    ConcatIsAssociative(padded, HEADER, "\nenabled = true\n");
  }

  lemma ConcatIsAssociative(a: string, b: string, c: string)
    ensures a + b + c == a + (b + c)
  {
  }

  lemma {:induction false} HeaderlessIsSilent(lines: seq<string>)
    requires Headerless(lines)
    ensures Headers(lines) == 0 && Settings(lines) == 0
    ensures forall i :: 0 <= i <= |lines| ==> !Owned(lines[..i])
  {
    NothingOwned(lines);
    forall i | 0 <= i <= |lines| ensures !Owned(lines[..i]) {
      NothingOwned(lines[..i]);
    }
    if lines != [] {
      HeaderlessIsSilent(lines[..|lines| - 1]);
    }
  }

  // Headerless lines followed by the section the editor writes.
  lemma SectionAppended(a: seq<string>, lines: seq<string>)
    requires Headerless(a) && lines == a + SECTION
    ensures Outside(lines) == a && Headers(lines) == 1 && Settings(lines) == 1
    ensures NoBadEntry(lines) && SaysEnabled(lines)
  {
    SectionLines();
    NothingOwned(a);
    HeaderlessIsSilent(a);
    var one := lines[..|lines| - 1];
    assert one[..|one| - 1] == a && one[|one| - 1] == SECTION[0] && lines[|lines| - 1] == SECTION[1];
    HeaderIsSection(SECTION[0]);
    assert Owned(one);
    assert Outside(one) == a && Headers(one) == 1 && Settings(one) == 0;
    forall i | 0 < i <= |lines| ensures !BadEntry(lines[..i]) {
      if i <= |a| {
        assert lines[..i] == a[..i];
      } else if i == |a| + 1 {
        assert lines[..i] == one;
      } else {
        assert lines[..i] == lines;
      }
    }
  }

  lemma PlainIsWellFormed(s: string)
    requires Plain(s)
    ensures WellFormed(s) && !Enabled(s)
  {
    HeaderlessIsSilent(Split(s, NL));
  }

  // The editor's text passes its own validator and reads back the setting that
  // was asked for, whatever text it was given, even an invalid one.
  lemma UpdatedTextReadsBack(s: string, enabled: bool)
    ensures WellFormed(UpdatedText(s, enabled))
    ensures Enabled(UpdatedText(s, enabled)) == enabled
  {
    if enabled {
      var padded := EditedLines(s);
      var lines := Split(UpdatedText(s, true), NL);
      SectionAppended(Split(padded, NL), lines);
      assert lines[..|lines|] == lines;
    } else {
      RemovedIsPlain(s);
      PlainIsWellFormed(RemovedText(s));
    }
  }

  lemma OutsideOfEdited(s: string)
    ensures OutsideText(UpdatedText(s, true)) == Padded(RemovedText(s))
    ensures RemovedText(UpdatedText(s, true)) == Padded(RemovedText(s))
  {
    var padded := EditedLines(s);
    SectionAppended(Split(padded, NL), Split(UpdatedText(s, true), NL));
    SplitIsLines(padded, NL);
    if padded == "" {
      assert Newlines(padded) == 0;
    }
    CutTailOfShort(padded);
  }

  lemma RemovedAgain(s: string)
    ensures RemovedText(RemovedText(s)) == RemovedText(s)
    ensures OutsideText(RemovedText(s)) == RemovedText(s)
  {
    RemovedIsPlain(s);
    PlainIsUntouched(RemovedText(s));
    CutTailOfShort(RemovedText(s));
  }

  // Asking twice is asking once, and enabling does not depend on what the
  // section said before.
  lemma UpdatedTextIsIdempotent(s: string, enabled: bool)
    ensures UpdatedText(UpdatedText(s, enabled), enabled) == UpdatedText(s, enabled)
    ensures UpdatedText(UpdatedText(s, enabled), true) == UpdatedText(s, true)
  {
    RemovedAgain(s);
    if enabled {
      OutsideOfEdited(s);
      RemovedIsPlain(s);
      PaddedTail(RemovedText(s));
      PaddedTail(Padded(RemovedText(s)));
    }
  }

  // ----- what is kept -----

  function Stripped(s: string): string {
    if s == "" || s[|s| - 1] != NL then s else Stripped(s[..|s| - 1])
  }

  lemma StrippedOfNewline(s: string)
    ensures Stripped(s + "\n") == Stripped(s)
  {
    assert (s + "\n")[..|s|] == s;
  }

  lemma {:induction false} CutTailKeepsStripped(s: string)
    ensures Stripped(CutTail(s)) == Stripped(s)
    decreases |s|
  {
    EndsInNewlines(s);
    if EndsWith(s, "\n\n\n") {
      CutTailKeepsStripped(s[..|s| - 1]);
    }
  }

  lemma PaddedKeepsStripped(s: string)
    ensures Stripped(Padded(s)) == Stripped(s)
  {
    StrippedOfNewline(s);
    StrippedOfNewline(s + "\n");
  }

  // Every line outside the owned section is kept, in order, up to newlines at
  // the end of the file.
  lemma UpdatedTextKeepsOutside(s: string, enabled: bool)
    ensures Stripped(OutsideText(UpdatedText(s, enabled))) == Stripped(OutsideText(s))
  {
    CutTailKeepsStripped(OutsideText(s));
    if enabled {
      OutsideOfEdited(s);
      PaddedKeepsStripped(RemovedText(s));
    } else {
      RemovedAgain(s);
    }
  }

  // Enabling and then removing gives back exactly the text that was there when
  // that text was empty or ended in exactly one blank line, and only then:
  // other texts come back with their end changed.
  lemma RemovalUndoesEnablingExactlyWhen(s: string)
    requires Plain(s)
    ensures UpdatedText(UpdatedText(s, true), false) == s <==>
            s == "" || (EndsWith(s, "\n\n") && !EndsWith(s, "\n\n\n"))
  {
    OutsideOfEdited(s);
    PlainIsUntouched(s);
    RemovedIsPlain(s);
    PaddedTail(RemovedText(s));
    EndsInNewlines(s);
    if Newlines(s) <= 2 {
      CutTailOfShort(s);
    }
  }

  // ----- the terms above, in the characters of the text -----

  // Unicode White_Space by code point.
  lemma BlankByCodePoint(c: char)
    ensures Blank(c) <==>
              var n := c as int;
              || 9 <= n <= 13 || n == 32 || n == 133 || n == 160 || n == 5760 || 8192 <= n <= 8202
              || n == 8232 || n == 8233 || n == 8239 || n == 8287 || n == 12288
  {
  }

  lemma {:induction false} TrimStartCuts(s: string) returns (i: nat)
    ensures i <= |s| && TrimStart(s) == s[i..] && (forall k :: 0 <= k < i ==> Blank(s[k]))
    ensures i < |s| ==> !Blank(s[i])
  {
    if s == "" || !Blank(s[0]) {
      i := 0;
    } else {
      i := TrimStartCuts(s[1..]);
      assert forall k :: 0 < k <= i ==> s[k] == s[1..][k - 1];
      i := i + 1;
    }
  }

  lemma {:induction false} TrimEndCuts(s: string) returns (j: nat)
    ensures j <= |s| && TrimEnd(s) == s[..j] && (forall k :: j <= k < |s| ==> Blank(s[k]))
    ensures j > 0 ==> !Blank(s[j - 1])
  {
    if s == "" || !Blank(s[|s| - 1]) {
      j := |s|;
    } else {
      j := TrimEndCuts(s[..|s| - 1]);
    }
  }

  // Trimming cuts white space off both ends, and all of it.
  lemma TrimCuts(s: string) returns (i: nat, j: nat)
    ensures i <= j <= |s| && Trim(s) == s[i..j]
    ensures forall k :: 0 <= k < i || j <= k < |s| ==> Blank(s[k])
    ensures i < j ==> !Blank(s[i]) && !Blank(s[j - 1])
  {
    j := TrimEndCuts(s);
    i := TrimStartCuts(s[..j]);
  }

  // Some earlier line is the header, and no line since, trimmed, stands in
  // square brackets.
  ghost predicate HeaderBefore(lines: seq<string>, i: nat) {
    exists j: nat :: j <= i < |lines| && Trim(lines[j]) == "[plugins.\"temote-mcp@debug\"]" && Unbracketed(lines, j, i)
  }

  predicate Unbracketed(lines: seq<string>, j: nat, i: nat) {
    forall k :: j < k <= i < |lines| ==>
                  var t := Trim(lines[k]); |t| == 0 || t[0] != '[' || t[|t| - 1] != ']'
  }

  lemma OwnedIsHeaderBefore(lines: seq<string>, i: nat)
    requires i < |lines|
    ensures Owned(lines[..i + 1]) <==> HeaderBefore(lines, i)
  {
    var more := lines[..i + 1];
    OwnedMeansUnderHeader(more);
    if j: nat :| UnderHeader(more, j) {
      assert Unbracketed(lines, j, i) by {
        assert forall k :: j < k <= i ==> more[k] == lines[k] && !IsSection(more[k]);
      }
    }
    if j: nat :| j <= i && Trim(lines[j]) == HEADER && Unbracketed(lines, j, i) {
      assert more[j] == lines[j];
      assert UnderHeader(more, j);
    }
  }

  lemma SaysEnabledExactly(lines: seq<string>, i: nat)
    requires i < |lines|
    ensures SaysEnabled(lines[..i + 1]) <==> Trim(lines[i]) == ENABLED && HeaderBefore(lines, i)
  {
    OwnedIsHeaderBefore(lines, i);
    SettingIsNoSection(lines[i]);
    assert lines[..i + 1][i] == lines[i];
  }

  lemma SettingIsNoSection(line: string)
    ensures Trim(line) == ENABLED ==> !IsSection(line)
  {
  }

  // This line, trimmed, is the enabling one, and it is under the header.
  ghost predicate EnabledBy(s: string, i: nat) {
    var lines := Split(s, NL);
    i < |lines| && Trim(lines[i]) == ENABLED && HeaderBefore(lines, i)
  }

  lemma EnabledAt(s: string, n: nat)
    requires 0 < n <= |Split(s, NL)| && SaysEnabled(Split(s, NL)[..n])
    ensures Enabled(s)
  {
  }

  lemma EnabledLine(s: string) returns (i: nat)
    requires Enabled(s)
    ensures EnabledBy(s, i)
  {
    var n :| 0 < n <= |Split(s, NL)| && SaysEnabled(Split(s, NL)[..n]);
    i := n - 1;
    assert Split(s, NL)[..i + 1] == Split(s, NL)[..n];
    SaysEnabledExactly(Split(s, NL), i);
  }

  // The setting is on exactly when some line under the header enables it.
  lemma EnabledExactly(s: string)
    ensures Enabled(s) <==> exists i: nat :: EnabledBy(s, i)
  {
    if Enabled(s) {
      var i := EnabledLine(s);
      assert EnabledBy(s, i);
    }
    if i: nat :| EnabledBy(s, i) {
      SaysEnabledExactly(Split(s, NL), i);
      EnabledAt(s, i + 1);
    }
  }
}
