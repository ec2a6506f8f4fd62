// The line editor for the owned section of the Codex config, and its validator.
module ConfigText {
  import opened Wrappers
  import opened Lines

  const NL: char := '\n'
  const HEADER: string := "[plugins.\"temote-mcp@debug\"]"
  const ENABLED: string := "enabled = true"
  const DISABLED: string := "enabled = false"

  // ----- trimming, as Unicode White_Space -----

  predicate Blank(c: char) {
    || '\t' <= c <= '\r' || c == ' ' || c == '\U{85}' || c == '\U{A0}' || c == '\U{1680}'
    || '\U{2000}' <= c <= '\U{200A}' || c == '\U{2028}' || c == '\U{2029}' || c == '\U{202F}'
    || c == '\U{205F}' || c == '\U{3000}'
  }

  function TrimStart(s: string): string {
    if s == "" || !Blank(s[0]) then s else TrimStart(s[1..])
  }

  function TrimEnd(s: string): string {
    if s == "" || !Blank(s[|s| - 1]) then s else TrimEnd(s[..|s| - 1])
  }

  function Trim(s: string): string {
    TrimStart(TrimEnd(s))
  }

  function EndsWith(s: string, suffix: string): bool {
    |s| >= |suffix| && s[|s| - |suffix|..] == suffix
  }

  // A line without its line ending.
  function Chop(line: string): string {
    if EndsWith(line, "\r\n") then line[..|line| - 2]
    else if EndsWith(line, "\n") then line[..|line| - 1]
    else line
  }

  lemma TrimIgnoresNewline(s: string)
    ensures Trim(s + "\n") == Trim(s)
  {
    assert (s + "\n")[..|s|] == s;
  }

  lemma TrimIgnoresChop(line: string)
    ensures Trim(Chop(line)) == Trim(line)
  {
    if EndsWith(line, "\r\n") {
      var s := line[..|line| - 2];
      assert line == (s + "\r") + "\n";
      TrimIgnoresNewline(s + "\r");
      assert (s + "\r")[..|s|] == s;
    } else if EndsWith(line, "\n") {
      assert line == line[..|line| - 1] + "\n";
      TrimIgnoresNewline(line[..|line| - 1]);
    }
  }

  // ----- sections -----

  predicate SectionTitle(trimmed: string) {
    trimmed != "" && trimmed[0] == '[' && trimmed[|trimmed| - 1] == ']'
  }

  predicate IsSection(line: string) {
    SectionTitle(Trim(line))
  }

  predicate IsHeader(line: string) {
    Trim(line) == HEADER
  }

  // Whether the last of these lines is in the owned section: the last section
  // line so far is its header.
  predicate Owned(lines: seq<string>) {
    if lines == [] then false
    else
      var last := lines[|lines| - 1];
      if IsSection(last) then IsHeader(last) else Owned(lines[..|lines| - 1])
  }

  function Outside(lines: seq<string>): seq<string> {
    if lines == [] then []
    else Outside(lines[..|lines| - 1]) + if Owned(lines) then [] else [lines[|lines| - 1]]
  }

  predicate UnderHeader(lines: seq<string>, j: nat) {
    j < |lines| && IsHeader(lines[j]) && forall k :: j < k < |lines| ==> !IsSection(lines[k])
  }

  lemma {:induction false} OwnedIsUnderHeader(lines: seq<string>) returns (j: nat)
    requires Owned(lines)
    ensures UnderHeader(lines, j)
  {
    if IsSection(lines[|lines| - 1]) {
      j := |lines| - 1;
    } else {
      var init := lines[..|lines| - 1];
      j := OwnedIsUnderHeader(init);
      assert forall k :: j < k < |init| ==> !IsSection(init[k]) && init[k] == lines[k];
    }
  }

  lemma {:induction false} UnderHeaderIsOwned(lines: seq<string>, j: nat)
    requires UnderHeader(lines, j)
    ensures Owned(lines)
  {
    if j < |lines| - 1 {
      var init := lines[..|lines| - 1];
      assert forall k :: j < k < |init| ==> init[k] == lines[k];
      UnderHeaderIsOwned(init, j);
    }
  }

  // Ownership as a reader sees it: some earlier header, and no section since.
  lemma OwnedMeansUnderHeader(lines: seq<string>)
    ensures Owned(lines) <==> exists j: nat :: UnderHeader(lines, j)
  {
    if Owned(lines) {
      var j := OwnedIsUnderHeader(lines);
    }
    if j: nat :| UnderHeader(lines, j) {
      UnderHeaderIsOwned(lines, j);
    }
  }

  lemma HeaderIsSection(line: string)
    ensures IsHeader(line) ==> IsSection(line)
  {
  }

  // ----- removing the section -----

  function CutTail(s: string): string {
    if EndsWith(s, "\n\n\n") then CutTail(s[..|s| - 1]) else s
  }

  function OutsideText(s: string): string {
    Flatten(Outside(Split(s, NL)))
  }

  function RemovedText(s: string): string {
    CutTail(OutsideText(s))
  }

  predicate HasHeader(lines: seq<string>) {
    exists line :: line in lines && IsHeader(line)
  }

  method RemovePluginConfigSection(input: string) returns (output: string, removed: bool)
    ensures output == RemovedText(input)
    ensures removed <==> HasHeader(Split(input, NL))
  {
    var lines := Split(input, NL);
    output, removed := "", false;
    var skipping, i := false, 0;
    while i < |lines|
      invariant i <= |lines|
      invariant output == Flatten(Outside(lines[..i]))
      invariant skipping == Owned(lines[..i])
      invariant removed <==> HasHeader(lines[..i])
    {
      var line := lines[i];
      OneMoreLine(lines, i);
      i := i + 1;
      var trimmed := Trim(line);
      if SectionTitle(trimmed) {
        if trimmed == HEADER {
          skipping, removed := true, true;
          continue;
        }
        skipping := false;
      }
      if !skipping {
        output := output + line;
      }
    }
    assert lines[..i] == lines;
    while EndsWith(output, "\n\n\n")
      invariant CutTail(output) == RemovedText(input)
      decreases |output|
    {
      output := output[..|output| - 1];
    }
  }

  lemma OneMoreLine(lines: seq<string>, i: nat)
    requires i < |lines|
    ensures var line, more := lines[i], lines[..i + 1];
            && (Owned(more) <==> if IsSection(line) then IsHeader(line) else Owned(lines[..i]))
            && Flatten(Outside(more)) == Flatten(Outside(lines[..i])) + (if Owned(more) then "" else line)
            && (HasHeader(more) <==> HasHeader(lines[..i]) || IsHeader(line))
  {
    var more := lines[..i + 1];
    assert more[..i] == lines[..i];
    FlattenConcat(Outside(lines[..i]), [lines[i]]);
    FlattenConcat(Outside(lines[..i]), []);
    assert more == lines[..i] + [lines[i]];
    assert lines[i] in more;
  }

  // ----- what the editor writes -----

  // Ends the text with a blank line, unless it is empty.
  function Padded(s: string): string {
    var one := if s != "" && !EndsWith(s, "\n") then s + "\n" else s;
    if one != "" && !EndsWith(one, "\n\n") then one + "\n" else one
  }

  function UpdatedText(s: string, enabled: bool): string {
    if enabled then Padded(RemovedText(s)) + HEADER + "\nenabled = true\n" else RemovedText(s)
  }

  method UpdatedConfigText(existing: string, enabled: bool) returns (updated: string, removed: bool)
    ensures updated == UpdatedText(existing, enabled)
    ensures removed <==> HasHeader(Split(existing, NL))
  {
    updated, removed := RemovePluginConfigSection(existing);
    if enabled {
      if updated != "" && !EndsWith(updated, "\n") {
        updated := updated + "\n";
      }
      if updated != "" && !EndsWith(updated, "\n\n") {
        updated := updated + "\n";
      }
      updated := updated + HEADER;
      updated := updated + "\nenabled = true\n";
    }
  }

  // ----- the validator -----

  datatype SectionProblem = Unsupported(entry: string) | Duplicate | NotOneSetting

  predicate SettingText(trimmed: string) {
    trimmed == ENABLED || trimmed == DISABLED
  }

  predicate Setting(line: string) {
    SettingText(Trim(line))
  }

  // A line of the section itself that says something.
  predicate Entry(lines: seq<string>) {
    && lines != [] && Owned(lines)
    && var line := lines[|lines| - 1];
    !IsSection(line) && Trim(line) != "" && Trim(line)[0] != '#'
  }

  predicate BadEntry(lines: seq<string>) {
    Entry(lines) && !Setting(lines[|lines| - 1])
  }

  function Headers(lines: seq<string>): nat {
    if lines == [] then 0
    else Headers(lines[..|lines| - 1]) + if IsHeader(lines[|lines| - 1]) then 1 else 0
  }

  function Settings(lines: seq<string>): nat {
    if lines == [] then 0
    else Settings(lines[..|lines| - 1]) + if Entry(lines) && Setting(lines[|lines| - 1]) then 1 else 0
  }

  predicate NoBadEntry(lines: seq<string>) {
    forall i :: 0 < i <= |lines| ==> !BadEntry(lines[..i])
  }

  // At most one owned section, with exactly one setting and nothing else in it.
  predicate WellFormed(s: string) {
    var lines := Split(s, NL);
    && NoBadEntry(lines) && Headers(lines) <= 1
    && (Headers(lines) == 1 ==> Settings(lines) == 1)
  }

  lemma OneMoreEntry(lines: seq<string>, i: nat)
    requires i < |lines|
    ensures var t, more := Trim(Chop(lines[i])), lines[..i + 1];
            && (Owned(more) <==> if SectionTitle(t) then t == HEADER else Owned(lines[..i]))
            && Headers(more) == Headers(lines[..i]) + (if SectionTitle(t) && t == HEADER then 1 else 0)
            && var entry := Owned(lines[..i]) && !SectionTitle(t) && t != "" && t[0] != '#';
            && Settings(more) == Settings(lines[..i]) + (if entry && SettingText(t) then 1 else 0)
            && (BadEntry(more) <==> entry && !SettingText(t))
  {
    OneMoreLine(lines, i);
    TrimIgnoresChop(lines[i]);
    assert lines[..i + 1][..i] == lines[..i];
    HeaderIsSection(lines[i]);
  }

  lemma OneMoreChecked(lines: seq<string>, i: nat)
    requires i < |lines|
    ensures NoBadEntry(lines[..i + 1]) <==> NoBadEntry(lines[..i]) && !BadEntry(lines[..i + 1])
    ensures BadEntry(lines[..i + 1]) ==> !NoBadEntry(lines)
  {
    var more := lines[..i + 1];
    assert forall j :: 0 < j <= i ==> more[..j] == lines[..i][..j];
    assert more[..i + 1] == more;
  }

  method ValidateOwnedConfigSection(input: string) returns (res: Result<(), SectionProblem>)
    ensures res.Ok? <==> WellFormed(input)
    ensures res.Err? && res.error.Unsupported? <==> !NoBadEntry(Split(input, NL))
    ensures res == Err(Duplicate) ==> Headers(Split(input, NL)) > 1
    ensures res == Err(NotOneSetting) ==> Headers(Split(input, NL)) == 1 && Settings(Split(input, NL)) != 1
  {
    var lines := Split(input, NL);
    var inTarget, sectionCount, enabledCount, i := false, 0, 0, 0;
    while i < |lines|
      invariant i <= |lines|
      invariant inTarget == Owned(lines[..i])
      invariant sectionCount == Headers(lines[..i]) && enabledCount == Settings(lines[..i])
      invariant NoBadEntry(lines[..i])
    {
      OneMoreEntry(lines, i);
      OneMoreChecked(lines, i);
      var trimmed := Trim(Chop(lines[i]));
      i := i + 1;
      if SectionTitle(trimmed) {
        inTarget := trimmed == HEADER;
        if inTarget {
          sectionCount := sectionCount + 1;
        }
        continue;
      }
      if inTarget && trimmed != "" && trimmed[0] != '#' {
        if SettingText(trimmed) {
          enabledCount := enabledCount + 1;
        } else {
          return Err(Unsupported(trimmed));
        }
      }
    }
    assert lines[..i] == lines;
    if sectionCount > 1 {
      return Err(Duplicate);
    }
    if sectionCount == 1 && enabledCount != 1 {
      return Err(NotOneSetting);
    }
    res := Ok(());
  }

  // ----- reading the setting -----

  predicate SaysEnabled(lines: seq<string>) {
    lines != [] && Owned(lines) && !IsSection(lines[|lines| - 1]) && Trim(lines[|lines| - 1]) == ENABLED
  }

  predicate Enabled(s: string) {
    exists i :: 0 < i <= |Split(s, NL)| && SaysEnabled(Split(s, NL)[..i])
  }

  lemma OneMoreSetting(lines: seq<string>, i: nat)
    requires i < |lines|
    ensures var t, more := Trim(Chop(lines[i])), lines[..i + 1];
            && (Owned(more) <==> if SectionTitle(t) then t == HEADER else Owned(lines[..i]))
            && (SaysEnabled(more) <==> Owned(lines[..i]) && !SectionTitle(t) && t == ENABLED)
  {
    OneMoreLine(lines, i);
    TrimIgnoresChop(lines[i]);
  }

  method ConfigSectionEnabled(input: string) returns (enabled: bool)
    ensures enabled <==> Enabled(input)
  {
    var lines := Split(input, NL);
    var inTarget, i := false, 0;
    while i < |lines|
      invariant i <= |lines|
      invariant inTarget == Owned(lines[..i])
      invariant forall j :: 0 < j <= i ==> !SaysEnabled(lines[..j])
    {
      OneMoreSetting(lines, i);
      var trimmed := Trim(Chop(lines[i]));
      i := i + 1;
      if SectionTitle(trimmed) {
        inTarget := trimmed == HEADER;
        continue;
      }
      if inTarget && trimmed == ENABLED {
        assert SaysEnabled(lines[..i]);
        return true;
      }
    }
    enabled := false;
  }
}
