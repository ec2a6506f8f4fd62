// The transactional plugin installer over an abstract file system. Every step
// may fail, every change of a directory or of the config is a point where the
// process may die, and the config may be edited from outside between any two
// steps.
module PluginInstall {
  import opened Wrappers
  import opened Lines
  import opened ConfigText
  import opened ConfigTextTheorems

  datatype Content = ManifestText | McpText(binary: string) | SkillText | HintText(binary: string)

  datatype Bundle = Bundle(version: nat, files: set<Content>)

  // The plugin root, or a directory of an unfinished transaction next to it.
  datatype Place = Root | Stage(id: nat)

  type Dirs = map<Place, Bundle>

  datatype ConfigFile = ConfigFile(text: string, mode: nat)

  datatype Event = DirsChanged | TempSynced(file: ConfigFile) | ConfigReplaced | EditedOutside

  // What happened, and what a process that died right then would leave behind.
  datatype Moment = Moment(event: Event, dirs: Dirs, config: Option<ConfigFile>)

  // The moments of a replacement: the new file is complete, the config is
  // compared, the config is replaced.
  datatype Commit = Commit(synced: nat, checked: nat, renamed: nat)

  datatype Problem = Refused | Failed | NotSecured | RollbackFailed | FinishFailed

  datatype Placement = Placement(alternate: Place, replacedExisting: bool)

  const PRIVATE_MODE: nat := 0x180

  function StagedFiles(binary: string): set<Content> {
    {ManifestText, McpText(binary), SkillText, HintText(binary)}
  }

  ghost predicate Complete(b: Bundle) {
    exists binary :: b.files == StagedFiles(binary)
  }

  function At(dirs: Dirs, p: Place): Option<Bundle> {
    if p in dirs then Some(dirs[p]) else None
  }

  predicate TurnedOn(config: Option<ConfigFile>) {
    config.Some? && Enabled(config.value.text)
  }

  function TextOf(config: Option<ConfigFile>): string {
    if config.Some? then config.value.text else ""
  }

  predicate HasSection(config: Option<ConfigFile>) {
    HasHeader(Split(TextOf(config), NL))
  }

  // A config that is absent, or that the validator accepts.
  predicate Readable(config: Option<ConfigFile>) {
    config.Some? ==> WellFormed(config.value.text)
  }

  // A new text for a config file keeps its mode; a new file is private.
  function Rewritten(config: Option<ConfigFile>, text: string): ConfigFile {
    ConfigFile(text, if config.Some? then config.value.mode else PRIVATE_MODE)
  }

  ghost predicate Usable(root: Option<Bundle>) {
    root.Some? && Complete(root.value)
  }

  // An enabled config means a whole bundle at the plugin root.
  ghost predicate Safe(m: Moment) {
    TurnedOn(m.config) ==> Usable(At(m.dirs, Root))
  }

  ghost predicate SafeSince(trace: seq<Moment>, from: nat) {
    forall i :: from <= i < |trace| ==> Safe(trace[i])
  }

  ghost predicate SameExcept(a: Dirs, b: Dirs, places: set<Place>) {
    forall p :: p !in places ==> At(a, p) == At(b, p)
  }

  ghost predicate NoArtifacts(dirs: Dirs) {
    forall p :: At(dirs, p).Some? ==> p == Root
  }

  // Since `from` the setting was this one.
  ghost predicate SettingSince(trace: seq<Moment>, from: nat, on: bool) {
    forall i :: from <= i < |trace| ==> TurnedOn(trace[i].config) == on
  }

  ghost predicate RootSince(trace: seq<Moment>, from: nat, root: Option<Bundle>) {
    forall i :: from <= i < |trace| ==> At(trace[i].dirs, Root) == root
  }

  lemma SameTextSameSetting(config: Option<ConfigFile>, text: string)
    ensures text == TextOf(config) ==> TurnedOn(config) == Enabled(text)
  {
    assert !Enabled("");
  }

  // A moment with a whole bundle at the root is safe, on or off.
  lemma UsableRootIsSafe(trace: seq<Moment>, from: nat, root: Option<Bundle>)
    requires RootSince(trace, from, root) && Usable(root)
    ensures SafeSince(trace, from)
  {
  }

  // Since `from` the installer has not replaced the config.
  ghost predicate NoReplacement(trace: seq<Moment>, from: nat) {
    forall i :: from <= i < |trace| ==> trace[i].event != ConfigReplaced
  }

  ghost predicate OutsideSince(trace: seq<Moment>, from: nat) {
    forall i :: from <= i < |trace| ==> trace[i].event == EditedOutside
  }

  // Since `from` the config was replaced once, by this file. It was compared
  // with the expected config only after the file was complete, and whatever
  // happened from the comparison to the replacement was done by others.
  ghost predicate Replaced(trace: seq<Moment>, from: nat, c: Commit, expected: Option<ConfigFile>, written: ConfigFile) {
    && from <= c.synced <= c.checked < c.renamed < |trace|
    && trace[c.synced].event == TempSynced(written)
    && trace[c.checked].config == expected
    && (forall i :: c.checked < i < c.renamed ==> trace[i].event == EditedOutside)
    && trace[c.renamed].event == ConfigReplaced && trace[c.renamed].config == Some(written)
    && (forall i :: from <= i < |trace| && i != c.renamed ==> trace[i].event != ConfigReplaced)
  }

  // The file it was replaced by is the edited form of the compared config.
  ghost predicate ReplacedByEdit(trace: seq<Moment>, from: nat, c: Commit, enabled: bool) {
    && c.checked < |trace|
    && var expected := trace[c.checked].config;
    Replaced(trace, from, c, expected, Rewritten(expected, UpdatedText(TextOf(expected), enabled)))
  }

  // Everything except a replacement leaves the config to the others.
  ghost predicate Honest(trace: seq<Moment>) {
    forall i :: 0 < i < |trace| && trace[i].config != trace[i - 1].config ==>
                  trace[i].event == EditedOutside || trace[i].event == ConfigReplaced
  }

  method SettingOf(config: Option<ConfigFile>) returns (on: bool)
    ensures on == TurnedOn(config)
  {
    if config.None? {
      return false;
    }
    on := ConfigSectionEnabled(config.value.text);
  }

  class Host {
    var dirs: Dirs
    var config: Option<ConfigFile>
    var temps: map<nat, ConfigFile>
    ghost var trace: seq<Moment>
    // Directories that this run tried to remove and could not.
    ghost var stuck: set<Place>
    // How many steps failed and how many outside edits were made so far.
    ghost var failures: nat
    ghost var edits: nat

    // The last recorded moment is the present.
    ghost predicate Valid()
      reads this
    {
      && |trace| > 0 && Honest(trace)
      && trace[|trace| - 1].dirs == dirs && trace[|trace| - 1].config == config
    }

    // No step failed and nobody edited the config since the counts were these.
    ghost predicate Undisturbed(failed: nat, edited: nat)
      reads this`failures, this`edits
    {
      failures == failed && edits == edited
    }

    ghost predicate Counted(failed: nat, edited: nat)
      reads this`failures, this`edits
    {
      failed <= failures && edited <= edits
    }

    // Since then the plugin root and the setting are what they are now, and the
    // config was not replaced.
    ghost predicate Steady(before: seq<Moment>)
      reads this
    {
      && Valid() && before <= trace
      && SettingSince(trace, |before|, TurnedOn(config)) && RootSince(trace, |before|, At(dirs, Root))
      && NoReplacement(trace, |before|)
    }

    // Of the directories at most the contents of this stage have changed.
    ghost predicate StageKept(id: nat, before: Dirs)
      requires Stage(id) in before
      reads this
    {
      && Stage(id) in dirs && SameExcept(dirs, before, {Stage(id)}) && At(dirs, Root) == At(before, Root)
      && dirs[Stage(id)].version == before[Stage(id)].version
    }

    constructor (dirs: Dirs, config: Option<ConfigFile>, temps: map<nat, ConfigFile>)
      ensures Valid() && this.dirs == dirs && this.config == config && this.temps == temps
      ensures trace == [Moment(DirsChanged, dirs, config)] && stuck == {} && failures == 0 && edits == 0
    {
      this.dirs, this.config, this.temps := dirs, config, temps;
      trace, stuck, failures, edits := [Moment(DirsChanged, dirs, config)], {}, 0, 0;
    }

    // ----- the file system -----

    // Other programs edit the config, but not the owned section.
    method Elsewhere()
      requires Valid()
      modifies this`config, this`trace, this`edits
      ensures Steady(old(trace)) && TurnedOn(config) == old(TurnedOn(config))
      ensures OutsideSince(trace, |old(trace)|) && |trace| - |old(trace)| == edits - old(edits)
      ensures edits == old(edits) ==> config == old(config)
    {
      var more: nat := *;
      while more > 0
        invariant Steady(old(trace)) && TurnedOn(config) == old(TurnedOn(config))
        invariant OutsideSince(trace, |old(trace)|) && |trace| - |old(trace)| == edits - old(edits)
        invariant edits == old(edits) ==> config == old(config)
      {
        var edited: Option<ConfigFile> := *;
        var on := SettingOf(edited);
        var before := SettingOf(config);
        if on == before {
          config := edited;
          edits := edits + 1;
          trace := trace + [Moment(EditedOutside, dirs, config)];
        }
        more := more - 1;
      }
    }

    // A step that changes nothing may fail, and takes time.
    method Hook() returns (ok: bool)
      requires Valid()
      modifies this`config, this`trace, this`failures, this`edits
      ensures Steady(old(trace)) && TurnedOn(config) == old(TurnedOn(config))
      ensures OutsideSince(trace, |old(trace)|) && |trace| - |old(trace)| == edits - old(edits)
      ensures edits == old(edits) ==> config == old(config)
      ensures Counted(old(failures), old(edits)) && (ok <==> failures == old(failures))
    {
      Elsewhere();
      ok := *;
      if !ok {
        failures := failures + 1;
      }
    }

    method SetDirs(changed: Dirs)
      requires Valid()
      modifies this`dirs, this`trace
      ensures Valid() && dirs == changed && trace == old(trace) + [Moment(DirsChanged, changed, config)]
    {
      dirs := changed;
      trace := trace + [Moment(DirsChanged, dirs, config)];
    }

    // Makes a directory; securing it afterwards may fail and leave it.
    method CreatePrivateDirectory(id: nat, version: nat) returns (res: Result<(), Problem>)
      requires Valid()
      modifies this`dirs, this`config, this`trace, this`failures, this`edits
      ensures Steady(old(trace)) && TurnedOn(config) == old(TurnedOn(config))
      ensures res.Ok? || res == Err(NotSecured) ==>
                Stage(id) !in old(dirs) && dirs == old(dirs)[Stage(id) := Bundle(version, {})]
      ensures !(res.Ok? || res == Err(NotSecured)) ==> res == Err(Failed) && dirs == old(dirs)
      ensures Counted(old(failures), old(edits)) && (edits == old(edits) ==> config == old(config))
      ensures res.Ok? <==> failures == old(failures) && Stage(id) !in old(dirs)
    {
      var made := Hook();
      if !made || Stage(id) in dirs {
        return Err(Failed);
      }
      SetDirs(dirs[Stage(id) := Bundle(version, {})]);
      var secured := Hook();
      res := if secured then Ok(()) else Err(NotSecured);
    }

    method WriteStagedText(id: nat, content: Content) returns (ok: bool)
      requires Valid() && Stage(id) in dirs
      modifies this`dirs, this`config, this`trace, this`failures, this`edits
      ensures Steady(old(trace)) && TurnedOn(config) == old(TurnedOn(config))
      ensures StageKept(id, old(dirs))
      ensures ok ==> dirs[Stage(id)].files == old(dirs)[Stage(id)].files + {content}
      ensures Counted(old(failures), old(edits)) && (edits == old(edits) ==> config == old(config))
      ensures ok <==> failures == old(failures)
    {
      ok := Hook();
      if ok {
        var b := dirs[Stage(id)];
        SetDirs(dirs[Stage(id) := Bundle(b.version, b.files + {content})]);
      }
    }

    method RemoveFile(p: Place) returns (ok: bool)
      requires Valid() && p in dirs && dirs[p].files != {}
      modifies this`dirs, this`config, this`trace, this`failures, this`edits
      ensures Valid() && old(trace) <= trace && p in dirs && SameExcept(dirs, old(dirs), {p})
      ensures TurnedOn(config) == old(TurnedOn(config)) && SettingSince(trace, |old(trace)|, TurnedOn(config))
      ensures NoReplacement(trace, |old(trace)|)
      ensures p != Root ==> Steady(old(trace)) && At(dirs, Root) == old(At(dirs, Root))
      ensures ok ==> |dirs[p].files| < |old(dirs)[p].files|
      ensures Counted(old(failures), old(edits)) && (edits == old(edits) ==> config == old(config))
      ensures ok <==> failures == old(failures)
    {
      ok := Hook();
      if ok {
        var f :| f in dirs[p].files;
        SetDirs(dirs[p := Bundle(dirs[p].version, dirs[p].files - {f})]);
      }
    }

    method EmptyTree(p: Place) returns (ok: bool)
      requires Valid() && p in dirs
      modifies this`dirs, this`config, this`trace, this`failures, this`edits
      ensures Valid() && old(trace) <= trace && p in dirs && SameExcept(dirs, old(dirs), {p})
      ensures TurnedOn(config) == old(TurnedOn(config)) && SettingSince(trace, |old(trace)|, TurnedOn(config))
      ensures NoReplacement(trace, |old(trace)|)
      ensures p != Root ==> Steady(old(trace)) && At(dirs, Root) == old(At(dirs, Root))
      ensures Counted(old(failures), old(edits)) && (edits == old(edits) ==> config == old(config))
      ensures ok <==> failures == old(failures)
    {
      ok := true;
      while ok && dirs[p].files != {}
        invariant Valid() && old(trace) <= trace && p in dirs && SameExcept(dirs, old(dirs), {p})
        invariant TurnedOn(config) == old(TurnedOn(config)) && SettingSince(trace, |old(trace)|, TurnedOn(config))
        invariant NoReplacement(trace, |old(trace)|)
        invariant p != Root ==> Steady(old(trace)) && At(dirs, Root) == old(At(dirs, Root))
        invariant Counted(old(failures), old(edits)) && (edits == old(edits) ==> config == old(config))
        invariant ok <==> failures == old(failures)
        decreases ok, |dirs[p].files|
      {
        ok := RemoveFile(p);
      }
    }

    // Not atomic: file by file, then the directory itself.
    method RemoveTree(p: Place) returns (ok: bool)
      requires Valid() && p in dirs
      modifies this`dirs, this`config, this`trace, this`failures, this`edits, this`stuck
      ensures Valid() && old(trace) <= trace && SameExcept(dirs, old(dirs), {p})
      ensures TurnedOn(config) == old(TurnedOn(config)) && SettingSince(trace, |old(trace)|, TurnedOn(config))
      ensures NoReplacement(trace, |old(trace)|)
      ensures p != Root ==> Steady(old(trace)) && At(dirs, Root) == old(At(dirs, Root))
      ensures ok ==> p !in dirs && stuck == old(stuck)
      ensures !ok ==> stuck == old(stuck) + {p}
      ensures Counted(old(failures), old(edits)) && (edits == old(edits) ==> config == old(config))
      ensures ok <==> failures == old(failures)
    {
      ok := EmptyTree(p);
      if ok {
        ok := Hook();
      }
      if !ok {
        stuck := stuck + {p};
        return false;
      }
      SetDirs(dirs - {p});
    }

    method RemoveOwnedPluginRoot(p: Place) returns (res: Result<bool, Problem>)
      requires Valid()
      modifies this`dirs, this`config, this`trace, this`failures, this`edits, this`stuck
      ensures Valid() && old(trace) <= trace && SameExcept(dirs, old(dirs), {p})
      ensures TurnedOn(config) == old(TurnedOn(config)) && SettingSince(trace, |old(trace)|, TurnedOn(config))
      ensures NoReplacement(trace, |old(trace)|)
      ensures p != Root ==> Steady(old(trace)) && At(dirs, Root) == old(At(dirs, Root))
      ensures res.Ok? ==> p !in dirs && stuck == old(stuck) && (res.value <==> p in old(dirs))
      ensures p !in old(dirs) ==> p !in dirs
      ensures old(stuck) <= stuck
      ensures Counted(old(failures), old(edits)) && (edits == old(edits) ==> config == old(config))
      ensures res.Ok? <==> failures == old(failures)
    {
      var inspected := Hook();
      if !inspected {
        return Err(Failed);
      }
      if p !in dirs {
        return Ok(false);
      }
      var ok := RemoveTree(p);
      res := if ok then Ok(true) else Err(Failed);
    }

    method CleanupTransactionArtifacts() returns (ok: bool)
      requires Valid()
      modifies this`dirs, this`config, this`trace, this`failures, this`edits, this`stuck
      ensures Steady(old(trace)) && TurnedOn(config) == old(TurnedOn(config))
      ensures At(dirs, Root) == old(At(dirs, Root))
      ensures ok ==> NoArtifacts(dirs)
      ensures Counted(old(failures), old(edits)) && (edits == old(edits) ==> config == old(config))
      ensures ok <==> failures == old(failures)
    {
      ok := Hook();
      var artifacts := set p | p in dirs && p != Root;
      while ok && artifacts != {}
        invariant Steady(old(trace)) && TurnedOn(config) == old(TurnedOn(config))
        invariant At(dirs, Root) == old(At(dirs, Root))
        invariant Counted(old(failures), old(edits)) && (edits == old(edits) ==> config == old(config))
        invariant ok <==> failures == old(failures)
        invariant Root !in artifacts && forall p :: At(dirs, p).Some? ==> p == Root || p in artifacts
        decreases ok, |artifacts|
      {
        var p :| p in artifacts;
        var removed := RemoveOwnedPluginRoot(p);
        ok := removed.Ok?;
        artifacts := if ok then artifacts - {p} else artifacts;
      }
    }

    // The guard of a staging directory: a failure to remove it goes unnoticed.
    method DropStage(p: Place)
      requires Valid() && p in dirs && p != Root
      modifies this`dirs, this`config, this`trace, this`failures, this`edits, this`stuck
      ensures Steady(old(trace)) && TurnedOn(config) == old(TurnedOn(config))
      ensures At(dirs, Root) == old(At(dirs, Root)) && SameExcept(dirs, old(dirs), {p})
      ensures p in dirs ==> p in stuck
      ensures Counted(old(failures), old(edits)) && (edits == old(edits) ==> config == old(config))
    {
      var ok := RemoveTree(p);
    }

    method BuildStagedBundle(id: nat, version: nat, binary: string) returns (res: Result<Place, Problem>)
      requires Valid() && NoArtifacts(dirs)
      modifies this`dirs, this`config, this`trace, this`failures, this`edits, this`stuck
      ensures Steady(old(trace)) && TurnedOn(config) == old(TurnedOn(config))
      ensures At(dirs, Root) == old(At(dirs, Root)) && SameExcept(dirs, old(dirs), {Stage(id)})
      ensures res.Ok? ==> res.value == Stage(id) && Stage(id) in dirs
                          && dirs[Stage(id)] == Bundle(version, StagedFiles(binary))
      ensures res.Err? ==> res.error == Failed || res.error == NotSecured
      ensures res == Err(Failed) && Stage(id) in dirs ==> Stage(id) in stuck
      ensures Counted(old(failures), old(edits)) && (edits == old(edits) ==> config == old(config))
      ensures res.Ok? <==> failures == old(failures)
    {
      var created := CreatePrivateDirectory(id, version);
      if created.Err? {
        assert created.error == Failed ==> At(dirs, Stage(id)).None?;
        return Err(created.error);
      }
      var ok := FillStage(id, binary);
      if !ok {
        DropStage(Stage(id));
        return Err(Failed);
      }
      res := Ok(Stage(id));
    }

    method FillStage(id: nat, binary: string) returns (ok: bool)
      requires Valid() && Stage(id) in dirs && dirs[Stage(id)].files == {}
      modifies this`dirs, this`config, this`trace, this`failures, this`edits
      ensures Steady(old(trace)) && TurnedOn(config) == old(TurnedOn(config))
      ensures StageKept(id, old(dirs))
      ensures ok ==> dirs[Stage(id)].files == StagedFiles(binary)
      ensures Counted(old(failures), old(edits)) && (edits == old(edits) ==> config == old(config))
      ensures ok <==> failures == old(failures)
    {
      ok := Hook();
      if ok {
        ok := WriteStagedFiles(id, binary);
      }
      if ok {
        ok := Hook();
      }
    }

    method WriteStagedFiles(id: nat, binary: string) returns (ok: bool)
      requires Valid() && Stage(id) in dirs && dirs[Stage(id)].files == {}
      modifies this`dirs, this`config, this`trace, this`failures, this`edits
      ensures Steady(old(trace)) && TurnedOn(config) == old(TurnedOn(config))
      ensures StageKept(id, old(dirs))
      ensures ok ==> dirs[Stage(id)].files == StagedFiles(binary)
      ensures Counted(old(failures), old(edits)) && (edits == old(edits) ==> config == old(config))
      ensures ok <==> failures == old(failures)
    {
      ok := WriteStagedText(id, ManifestText);
      if ok {
        ok := WriteStagedText(id, McpText(binary));
      }
      if ok {
        ok := WriteStagedText(id, SkillText);
      }
      if ok {
        ok := WriteStagedText(id, HintText(binary));
      }
    }

    method ReadyToPlace() returns (ok: bool)
      requires Valid()
      modifies this`config, this`trace, this`failures, this`edits
      ensures Steady(old(trace)) && TurnedOn(config) == old(TurnedOn(config))
      ensures Counted(old(failures), old(edits)) && (edits == old(edits) ==> config == old(config))
      ensures ok <==> failures == old(failures)
    {
      ok := Hook();
      if ok {
        ok := Hook();
      }
    }

    // Puts the staged bundle at the root: an exchange, or a rename into place.
    method PlaceStagedBundle(stage: Place) returns (res: Result<Placement, Problem>)
      requires Valid() && stage in dirs && stage != Root && Complete(dirs[stage])
      modifies this`dirs, this`config, this`trace, this`failures, this`edits, this`stuck
      ensures Valid() && old(trace) <= trace && TurnedOn(config) == old(TurnedOn(config))
      ensures NoReplacement(trace, |old(trace)|)
      ensures (TurnedOn(config) ==> Usable(old(At(dirs, Root)))) ==> SafeSince(trace, |old(trace)|)
      ensures SameExcept(dirs, old(dirs), {Root, stage})
      ensures res.Ok? ==> res.value == Placement(stage, Root in old(dirs)) && Placed(res.value, old(dirs))
                          && dirs[Root] == old(dirs)[stage]
      ensures res.Err? ==> res.error == Failed || res.error == RollbackFailed
      ensures res == Err(Failed) ==> At(dirs, Root) == old(At(dirs, Root)) && (stage in dirs ==> stage in stuck)
      ensures Counted(old(failures), old(edits)) && (edits == old(edits) ==> config == old(config))
      ensures res.Ok? <==> failures == old(failures)
    {
      ghost var before := dirs;
      var existed := Root in dirs;
      var ok := ReadyToPlace();
      if !ok {
        DropStage(stage);
        return Err(Failed);
      }
      if existed {
        SetDirs(dirs[Root := dirs[stage]][stage := dirs[Root]]);
      } else {
        SetDirs((dirs - {stage})[Root := dirs[stage]]);
      }
      var placement := Placement(stage, existed);
      res := SyncPlacement(placement, before);
    }

    method SyncPlacement(placement: Placement, ghost before: Dirs) returns (res: Result<Placement, Problem>)
      requires Valid() && Placed(placement, before) && Usable(At(dirs, Root))
      modifies this`dirs, this`config, this`trace, this`failures, this`edits, this`stuck
      ensures Valid() && old(trace) <= trace && TurnedOn(config) == old(TurnedOn(config))
      ensures NoReplacement(trace, |old(trace)|)
      ensures (TurnedOn(config) ==> Usable(At(before, Root))) ==> SafeSince(trace, |old(trace)|)
      ensures OthersUntouched(placement, before)
      ensures res.Ok? ==> res.value == placement && dirs == old(dirs)
      ensures res.Err? ==> res.error == Failed || res.error == RollbackFailed
      ensures res == Err(Failed) ==> At(dirs, Root) == At(before, Root) && placement.alternate !in dirs
      ensures Counted(old(failures), old(edits)) && (edits == old(edits) ==> config == old(config))
      ensures res.Ok? <==> failures == old(failures)
    {
      var synced := Hook();
      if synced {
        return Ok(placement);
      }
      var undone := RollbackBundle(placement, before);
      res := Err(if undone then Failed else RollbackFailed);
    }

    // The staged bundle is at the root, what was there is at the alternate.
    ghost predicate Placed(placement: Placement, before: Dirs)
      reads this
    {
      && placement.alternate != Root && Root in dirs && OthersUntouched(placement, before)
      && placement.replacedExisting == (Root in before)
      && At(dirs, placement.alternate) == At(before, Root)
    }

    ghost predicate OthersUntouched(placement: Placement, before: Dirs)
      reads this
    {
      SameExcept(dirs, before, {Root, placement.alternate})
    }

    // Exchanges the new bundle at the root with the old one.
    method ExchangeBack(alternate: Place, ghost before: Dirs) returns (ok: bool)
      requires Valid() && Placed(Placement(alternate, true), before) && Usable(At(dirs, Root))
      modifies this`dirs, this`config, this`trace, this`failures, this`edits
      ensures Valid() && old(trace) <= trace && TurnedOn(config) == old(TurnedOn(config))
      ensures NoReplacement(trace, |old(trace)|)
      ensures (TurnedOn(config) ==> Usable(At(before, Root))) ==> SafeSince(trace, |old(trace)|)
      ensures OthersUntouched(Placement(alternate, true), before)
      ensures ok ==> At(dirs, Root) == At(before, Root) && alternate in dirs
      ensures Counted(old(failures), old(edits)) && (edits == old(edits) ==> config == old(config))
      ensures ok <==> failures == old(failures)
    {
      ok := Hook();
      if ok {
        SetDirs(dirs[Root := dirs[alternate]][alternate := dirs[Root]]);
      }
    }

    // Undoes the placement. The setting being on means there is a bundle to go
    // back to, so no moment of the way back is unsafe.
    method RollbackBundle(placement: Placement, ghost before: Dirs) returns (ok: bool)
      requires Valid() && Placed(placement, before) && Usable(At(dirs, Root))
      modifies this`dirs, this`config, this`trace, this`failures, this`edits, this`stuck
      ensures Valid() && old(trace) <= trace && TurnedOn(config) == old(TurnedOn(config))
      ensures NoReplacement(trace, |old(trace)|)
      ensures (TurnedOn(config) ==> Usable(At(before, Root))) ==> SafeSince(trace, |old(trace)|)
      ensures OthersUntouched(placement, before)
      ensures ok ==> At(dirs, Root) == At(before, Root) && placement.alternate !in dirs
      ensures Counted(old(failures), old(edits)) && (edits == old(edits) ==> config == old(config))
      ensures ok <==> failures == old(failures)
    {
      ok := TakeBack(placement, before);
      if ok {
        ok := Hook();
      }
    }

    method TakeBack(placement: Placement, ghost before: Dirs) returns (ok: bool)
      requires Valid() && Placed(placement, before) && Usable(At(dirs, Root))
      modifies this`dirs, this`config, this`trace, this`failures, this`edits, this`stuck
      ensures Valid() && old(trace) <= trace && TurnedOn(config) == old(TurnedOn(config))
      ensures NoReplacement(trace, |old(trace)|)
      ensures (TurnedOn(config) ==> Usable(At(before, Root))) ==> SafeSince(trace, |old(trace)|)
      ensures OthersUntouched(placement, before)
      ensures ok ==> At(dirs, Root) == At(before, Root) && placement.alternate !in dirs
      ensures Counted(old(failures), old(edits)) && (edits == old(edits) ==> config == old(config))
      ensures ok <==> failures == old(failures)
    {
      if placement.replacedExisting {
        ok := ExchangeBack(placement.alternate, before);
        if ok {
          var removed := RemoveOwnedPluginRoot(placement.alternate);
          ok := removed.Ok?;
        }
      } else {
        var removed := RemoveOwnedPluginRoot(Root);
        ok := removed.Ok?;
      }
    }

    method FinishBundleCommit(placement: Placement) returns (ok: bool)
      requires Valid() && placement.alternate != Root && (placement.replacedExisting <==> placement.alternate in dirs)
      modifies this`dirs, this`config, this`trace, this`failures, this`edits, this`stuck
      ensures Steady(old(trace)) && TurnedOn(config) == old(TurnedOn(config))
      ensures At(dirs, Root) == old(At(dirs, Root)) && SameExcept(dirs, old(dirs), {placement.alternate})
      ensures ok ==> placement.alternate !in dirs
      ensures Counted(old(failures), old(edits)) && (edits == old(edits) ==> config == old(config))
      ensures ok <==> failures == old(failures)
    {
      ok := true;
      if placement.replacedExisting {
        var removed := RemoveOwnedPluginRoot(placement.alternate);
        ok := removed.Ok?;
        if ok {
          ok := Hook();
        }
      }
    }

    // ----- the config file -----

    // A config that cannot be read or fails the validator is an error.
    method ReadConfigSnapshot() returns (res: Result<Option<ConfigFile>, Problem>)
      requires Valid()
      modifies this`config, this`trace, this`failures, this`edits
      ensures Steady(old(trace)) && TurnedOn(config) == old(TurnedOn(config))
      ensures OutsideSince(trace, |old(trace)|)
      ensures res.Ok? ==> res.value == config && (config.Some? ==> WellFormed(config.value.text))
      ensures Counted(old(failures), old(edits)) && (edits == old(edits) ==> config == old(config))
      ensures res.Ok? <==> failures == old(failures) && (config.Some? ==> WellFormed(config.value.text))
    {
      var ok := Hook();
      if !ok {
        return Err(Failed);
      }
      if config.Some? {
        var valid := ValidateOwnedConfigSection(config.value.text);
        if valid.Err? {
          return Err(Failed);
        }
      }
      res := Ok(config);
    }

    method WriteTemporary(id: nat, updated: string, mode: nat) returns (ok: bool, ghost synced: nat)
      requires Valid()
      modifies this`config, this`trace, this`failures, this`edits, this`temps
      ensures Steady(old(trace)) && TurnedOn(config) == old(TurnedOn(config))
      ensures ok ==> id in temps && temps[id] == ConfigFile(updated, mode) && SyncedAt(|old(trace)|, synced, temps[id])
      ensures TempsKept(old(temps), id)
      ensures Counted(old(failures), old(edits)) && (edits == old(edits) ==> config == old(config))
      ensures failures == old(failures) && id !in old(temps) ==> ok
    {
      synced := 0;
      ok := Hook();
      if !ok || id in temps {
        return false, synced;
      }
      temps := temps[id := ConfigFile("", PRIVATE_MODE)];
      ok, synced := FillTemporary(id, updated, mode);
      if !ok {
        DropTemporary(id);
      }
    }

    method FillTemporary(id: nat, updated: string, mode: nat) returns (ok: bool, ghost synced: nat)
      requires Valid() && id in temps
      modifies this`config, this`trace, this`failures, this`edits, this`temps
      ensures Steady(old(trace)) && TurnedOn(config) == old(TurnedOn(config))
      ensures id in temps
      ensures ok ==> temps[id] == ConfigFile(updated, mode) && SyncedAt(|old(trace)|, synced, temps[id])
      ensures TempsKept(old(temps), id)
      ensures Counted(old(failures), old(edits)) && (edits == old(edits) ==> config == old(config))
      ensures ok <==> failures == old(failures)
    {
      synced := 0;
      ok := WriteTemporaryText(id, updated, mode);
      if ok {
        synced := SyncTemporary(id);
        ok := Hook();
      }
    }

    // The text first, then the mode.
    method WriteTemporaryText(id: nat, updated: string, mode: nat) returns (ok: bool)
      requires Valid() && id in temps
      modifies this`config, this`trace, this`failures, this`edits, this`temps
      ensures Steady(old(trace)) && TurnedOn(config) == old(TurnedOn(config))
      ensures id in temps && (ok ==> temps[id] == ConfigFile(updated, mode))
      ensures TempsKept(old(temps), id)
      ensures Counted(old(failures), old(edits)) && (edits == old(edits) ==> config == old(config))
      ensures ok <==> failures == old(failures)
    {
      ok := Hook();
      if ok {
        temps := temps[id := ConfigFile(updated, temps[id].mode)];
        ok := Hook();
      }
      if ok {
        temps := temps[id := ConfigFile(updated, mode)];
        ok := Hook();
      }
    }

    method SyncTemporary(id: nat) returns (ghost synced: nat)
      requires Valid() && id in temps
      modifies this`trace
      ensures Steady(old(trace)) && SyncedAt(|old(trace)|, synced, temps[id])
    {
      synced := |trace|;
      trace := trace + [Moment(TempSynced(temps[id]), dirs, config)];
    }

    // The complete file was on disk from this moment on.
    ghost predicate SyncedAt(from: nat, synced: nat, file: ConfigFile)
      reads this
    {
      from <= synced < |trace| && trace[synced].event == TempSynced(file)
    }

    // The guard of the temporary file: a failure to remove it goes unnoticed.
    method DropTemporary(id: nat)
      requires Valid()
      modifies this`config, this`trace, this`failures, this`edits, this`temps
      ensures Steady(old(trace)) && TurnedOn(config) == old(TurnedOn(config))
      ensures TempsKept(old(temps), id)
      ensures Counted(old(failures), old(edits)) && (edits == old(edits) ==> config == old(config))
    {
      var ok := Hook();
      if ok {
        temps := temps - {id};
      }
    }

    // Temporary files that were there stay there, as they were.
    ghost predicate TempsKept(before: map<nat, ConfigFile>, id: nat)
      reads this
    {
      forall t :: t in before && t != id ==> t in temps && temps[t] == before[t]
    }

    // The atomic replacement. Edits made since the re-check are lost here.
    method RenameConfig(id: nat) returns (ok: bool)
      requires Valid() && id in temps
      modifies this`config, this`trace, this`failures, this`edits, this`temps
      ensures ok ==> config == Some(old(temps)[id]) && Committed(old(trace), old(TurnedOn(config)))
      ensures TempsKept(old(temps), id)
      ensures ok ==> OutsideSince(trace[..|trace| - 1], |old(trace)|) && trace[|trace| - 1].event == ConfigReplaced
      ensures !ok ==> NotCommitted(old(trace), old(TurnedOn(config)))
      ensures Counted(old(failures), old(edits))
      ensures ok <==> failures == old(failures)
    {
      ok := Hook();
      if ok {
        config, temps := Some(temps[id]), temps - {id};
        trace := trace + [Moment(ConfigReplaced, dirs, config)];
      }
    }

    // Since `before` the root is the same, and the setting too until the
    // replacement, which is the last moment.
    ghost predicate Committed(before: seq<Moment>, on: bool)
      reads this
    {
      && Valid() && before <= trace && |before| < |trace|
      && RootSince(trace, |before|, At(dirs, Root)) && SettingSince(trace[..|trace| - 1], |before|, on)
    }

    // Nothing of the config was written by the installer since.
    ghost predicate NotCommitted(before: seq<Moment>, on: bool)
      reads this
    {
      Steady(before) && TurnedOn(config) == on
    }

    // Replaces the config, unless it is not what it was when it was read.
    method RecheckAndRename(id: nat, expected: Option<ConfigFile>, ghost from: nat, ghost synced: nat)
      returns (ok: bool, ghost c: Commit)
      requires Valid() && id in temps && SyncedAt(from, synced, temps[id]) && NoReplacement(trace, from)
      modifies this`config, this`trace, this`failures, this`edits, this`temps
      ensures TempsKept(old(temps), id)
      ensures ok ==> Committed(old(trace), old(TurnedOn(config))) && config == Some(old(temps)[id])
      ensures ok ==> Replaced(trace, from, c, expected, old(temps)[id])
      ensures !ok ==> NotCommitted(old(trace), old(TurnedOn(config)))
      ensures Counted(old(failures), old(edits))
      ensures Undisturbed(old(failures), old(edits)) && old(config) == expected && Readable(expected) ==> ok
    {
      c := Commit(synced, 0, 0);
      ok := RecheckOrDrop(id, expected);
      if !ok {
        return;
      }
      ok, c := RenameChecked(id, expected, old(trace), from, synced);
    }

    method RecheckOrDrop(id: nat, expected: Option<ConfigFile>) returns (ok: bool)
      requires Valid()
      modifies this`config, this`trace, this`failures, this`edits, this`temps
      ensures Steady(old(trace)) && TurnedOn(config) == old(TurnedOn(config)) && TempsKept(old(temps), id)
      ensures ok ==> config == expected && temps == old(temps)
      ensures Counted(old(failures), old(edits)) && (edits == old(edits) ==> config == old(config))
      ensures Undisturbed(old(failures), old(edits)) && old(config) == expected && Readable(expected) ==> ok
    {
      var current := ReadConfigSnapshot();
      ok := current.Ok? && current.value == expected;
      if !ok {
        DropTemporary(id);
      }
    }

    method RenameChecked(id: nat, expected: Option<ConfigFile>, ghost since: seq<Moment>, ghost from: nat, ghost synced: nat)
      returns (ok: bool, ghost c: Commit)
      requires Steady(since) && id in temps && SyncedAt(from, synced, temps[id]) && NoReplacement(trace, from)
      requires config == expected
      modifies this`config, this`trace, this`failures, this`edits, this`temps
      ensures TempsKept(old(temps), id)
      ensures ok ==> Committed(since, old(TurnedOn(config))) && config == Some(old(temps)[id])
      ensures ok ==> Replaced(trace, from, c, expected, old(temps)[id])
      ensures !ok ==> NotCommitted(since, old(TurnedOn(config)))
      ensures Counted(old(failures), old(edits))
      ensures failures == old(failures) ==> ok
    {
      ghost var on := TurnedOn(config);
      ok := RenameConfig(id);
      c := Commit(synced, |old(trace)| - 1, |trace| - 1);
      if ok {
        ReplacementMade(old(trace), trace, from, c, expected, old(temps)[id]);
        CommittedSoFar(since, old(trace), trace, At(dirs, Root), on);
      } else {
        DropTemporary(id);
        SteadySoFar(since, old(trace), trace, At(dirs, Root), on);
      }
    }

    method CommitConfigSnapshot(id: nat, expected: Option<ConfigFile>, updated: string)
      returns (res: Result<bool, Problem>, ghost c: Commit)
      requires Valid()
      modifies this`config, this`trace, this`failures, this`edits, this`temps
      ensures res.Ok? && !res.value <==> updated == TextOf(expected)
      ensures res.Ok? && res.value ==> Committed(old(trace), old(TurnedOn(config))) && TurnedOn(config) == Enabled(updated)
      ensures res.Ok? && res.value ==> Replaced(trace, |old(trace)|, c, expected, Rewritten(expected, updated))
      ensures !(res.Ok? && res.value) ==> NotCommitted(old(trace), old(TurnedOn(config)))
      ensures res.Err? ==> res.error == Failed
      ensures TempsKept(old(temps), id)
      ensures Counted(old(failures), old(edits))
      ensures Undisturbed(old(failures), old(edits)) && old(config) == expected && Readable(expected) && id !in old(temps) ==>
                res.Ok?
    {
      c := Commit(0, 0, 0);
      if updated == TextOf(expected) {
        return Ok(false), c;
      }
      var mode := if expected.Some? then expected.value.mode else PRIVATE_MODE;
      ghost var synced;
      var ok;
      ok, synced := WriteTemporary(id, updated, mode);
      if ok {
        ok, c := RecheckAndRename(id, expected, |old(trace)|, synced);
      }
      res := if ok then Ok(true) else Err(Failed);
    }

    // ----- install and uninstall -----

    // Before anything is staged: take the lock, check the root, clean up what
    // earlier runs left behind, read the config.
    method Prepare() returns (res: Result<Option<ConfigFile>, Problem>)
      requires Valid()
      modifies this`dirs, this`config, this`trace, this`failures, this`edits, this`stuck
      ensures Steady(old(trace)) && TurnedOn(config) == old(TurnedOn(config)) && At(dirs, Root) == old(At(dirs, Root))
      ensures res.Ok? ==> NoArtifacts(dirs) && res.value == config
      ensures res.Err? ==> res.error == Refused
      ensures Counted(old(failures), old(edits)) && (edits == old(edits) ==> config == old(config))
      ensures Undisturbed(old(failures), old(edits)) && old(Readable(config)) ==> res.Ok? && res.value == old(config)
    {
      stuck := {};
      var ok := Hook();
      if ok {
        ok := CleanupTransactionArtifacts();
      }
      if !ok {
        return Err(Refused);
      }
      var snapshot := ReadConfigSnapshot();
      res := if snapshot.Ok? then snapshot else Err(Refused);
    }

    method CommitEnabled(tempId: nat, snapshot: Option<ConfigFile>, updated: string)
      returns (committed: Result<bool, Problem>, ghost c: Commit)
      requires Valid() && Usable(At(dirs, Root)) && Enabled(updated) && TurnedOn(snapshot) == TurnedOn(config)
      modifies this`config, this`trace, this`failures, this`edits, this`temps
      ensures Valid() && old(trace) <= trace && SafeSince(trace, |old(trace)|)
      ensures committed.Ok? ==> TurnedOn(config)
      ensures committed.Ok? && committed.value ==> Replaced(trace, |old(trace)|, c, snapshot, Rewritten(snapshot, updated))
      ensures committed.Ok? && !committed.value ==> NoReplacement(trace, |old(trace)|)
      ensures committed.Err? ==> NotCommitted(old(trace), old(TurnedOn(config)))
      ensures TempsKept(old(temps), tempId)
      ensures Counted(old(failures), old(edits))
      ensures Undisturbed(old(failures), old(edits)) && old(config) == snapshot && Readable(snapshot) && tempId !in old(temps) ==>
                committed.Ok?
    {
      c := Commit(0, 0, 0);
      var ok := Hook();
      if !ok {
        return Err(Failed), c;
      }
      committed, c := CommitConfigSnapshot(tempId, snapshot, updated);
      SameTextSameSetting(snapshot, updated);
      assert committed.Ok? && committed.value ==> TurnedOn(config);
      assert committed.Ok? && !committed.value ==> TurnedOn(snapshot);
      UsableRootIsSafe(trace, |old(trace)|, At(dirs, Root));
    }

    // Commits the config for a placed bundle, or takes the bundle back.
    method CommitOrRollBack(placement: Placement, ghost before: Dirs, tempId: nat, snapshot: Option<ConfigFile>, updated: string)
      returns (res: Result<bool, Problem>, ghost c: Commit)
      requires Valid() && Placed(placement, before) && Usable(At(dirs, Root))
      requires Enabled(updated) && TurnedOn(snapshot) == TurnedOn(config)
      modifies this`dirs, this`config, this`trace, this`failures, this`edits, this`temps, this`stuck
      ensures Valid() && old(trace) <= trace && OthersUntouched(placement, before)
      ensures (TurnedOn(snapshot) ==> Usable(At(before, Root))) ==> SafeSince(trace, |old(trace)|)
      ensures TempsKept(old(temps), tempId)
      ensures res.Ok? ==> dirs == old(dirs) && TurnedOn(config)
      ensures res.Ok? && res.value ==> Replaced(trace, |old(trace)|, c, snapshot, Rewritten(snapshot, updated))
      ensures res.Ok? && !res.value ==> NoReplacement(trace, |old(trace)|)
      ensures res.Err? ==> res.error == Failed || res.error == RollbackFailed
      ensures res.Err? ==> NoReplacement(trace, |old(trace)|) && TurnedOn(config) == old(TurnedOn(config))
      ensures res == Err(Failed) ==> At(dirs, Root) == At(before, Root) && placement.alternate !in dirs
      ensures Counted(old(failures), old(edits))
      ensures Undisturbed(old(failures), old(edits)) && old(config) == snapshot && Readable(snapshot) && tempId !in old(temps) ==>
                res.Ok?
    {
      res, c := CommitEnabled(tempId, snapshot, updated);
      if res.Err? {
        var ok := RollbackBundle(placement, before);
        res := Err(if ok then Failed else RollbackFailed);
      }
    }

    method StageAndPlace(stageId: nat, version: nat, binary: string, ghost before: Dirs)
      returns (res: Result<Placement, Problem>)
      requires Valid() && NoArtifacts(dirs) && dirs == before
      modifies this`dirs, this`config, this`trace, this`failures, this`edits, this`stuck
      ensures Valid() && old(trace) <= trace && TurnedOn(config) == old(TurnedOn(config))
      ensures NoReplacement(trace, |old(trace)|)
      ensures (TurnedOn(config) ==> Usable(At(before, Root))) ==> SafeSince(trace, |old(trace)|)
      ensures SameExcept(dirs, before, {Root, Stage(stageId)})
      ensures res.Ok? ==> res.value.alternate == Stage(stageId) && Placed(res.value, before)
                          && dirs[Root] == Bundle(version, StagedFiles(binary))
      ensures res.Err? ==> res.error in {Failed, NotSecured, RollbackFailed}
      ensures res.Err? && res.error != RollbackFailed ==> At(dirs, Root) == At(before, Root)
      ensures res == Err(Failed) && Stage(stageId) in dirs ==> Stage(stageId) in stuck
      ensures Counted(old(failures), old(edits)) && (edits == old(edits) ==> config == old(config))
      ensures res.Ok? <==> failures == old(failures)
    {
      var staged := BuildStagedBundle(stageId, version, binary);
      if staged.Err? {
        return Err(staged.error);
      }
      res := PlaceStagedBundle(staged.value);
    }

    method EnabledText(snapshot: Option<ConfigFile>) returns (updated: string)
      ensures updated == UpdatedText(TextOf(snapshot), true) && Enabled(updated)
    {
      var text := if snapshot.Some? then snapshot.value.text else "";
      var removed;
      updated, removed := UpdatedConfigText(text, true);
      UpdatedTextReadsBack(text, true);
    }

    // From the placed bundle on.
    method InstallPlaced(placement: Placement, ghost before: Dirs, tempId: nat, snapshot: Option<ConfigFile>, updated: string)
      returns (res: Result<(), Problem>, ghost check: Option<Commit>)
      requires Valid() && Placed(placement, before) && Usable(At(dirs, Root)) && NoArtifacts(before)
      requires Enabled(updated) && TurnedOn(snapshot) == TurnedOn(config)
      modifies this
      ensures Valid() && old(trace) <= trace && TempsKept(old(temps), tempId)
      ensures (TurnedOn(snapshot) ==> Usable(At(before, Root))) ==> SafeSince(trace, |old(trace)|)
      ensures res.Ok? ==> NoArtifacts(dirs)
      ensures res.Ok? || res.error == FinishFailed ==> At(dirs, Root) == old(At(dirs, Root)) && TurnedOn(config)
      ensures res == Err(Failed) ==> At(dirs, Root) == At(before, Root) && NoArtifacts(dirs)
      ensures res.Err? ==> res.error in {Failed, RollbackFailed, FinishFailed}
      ensures res.Err? && res.error != FinishFailed ==> NoReplacement(trace, |old(trace)|) && TurnedOn(config) == old(TurnedOn(config))
      ensures check.None? ==> NoReplacement(trace, |old(trace)|)
      ensures check.Some? ==> Replaced(trace, |old(trace)|, check.value, snapshot, Rewritten(snapshot, updated))
      ensures Counted(old(failures), old(edits))
      ensures Undisturbed(old(failures), old(edits)) && old(config) == snapshot && Readable(snapshot) && tempId !in old(temps) ==>
                res.Ok?
    {
      check := None;
      var ok := Hook();
      UsableRootIsSafe(trace, |old(trace)|, At(dirs, Root));
      ghost var hooked := trace;
      if !ok {
        ok := RollbackBundle(placement, before);
        SafeSoFar(hooked, trace, |old(trace)|);
        QuietSoFar(hooked, trace, |old(trace)|);
        return Err(if ok then Failed else RollbackFailed), check;
      }
      res, check := CommitPlaced(placement, before, tempId, snapshot, updated);
      SafeSoFar(hooked, trace, |old(trace)|);
      if check.Some? {
        ReplacedWithin(hooked, trace, trace, |old(trace)|, check.value, snapshot, Rewritten(snapshot, updated));
      } else {
        QuietSoFar(hooked, trace, |old(trace)|);
      }
    }

    method CommitPlaced(placement: Placement, ghost before: Dirs, tempId: nat, snapshot: Option<ConfigFile>, updated: string)
      returns (res: Result<(), Problem>, ghost check: Option<Commit>)
      requires Valid() && Placed(placement, before) && Usable(At(dirs, Root)) && NoArtifacts(before)
      requires Enabled(updated) && TurnedOn(snapshot) == TurnedOn(config)
      modifies this
      ensures Valid() && old(trace) <= trace && TempsKept(old(temps), tempId)
      ensures (TurnedOn(snapshot) ==> Usable(At(before, Root))) ==> SafeSince(trace, |old(trace)|)
      ensures res.Ok? ==> NoArtifacts(dirs)
      ensures res.Ok? || res.error == FinishFailed ==> At(dirs, Root) == old(At(dirs, Root)) && TurnedOn(config)
      ensures res == Err(Failed) ==> At(dirs, Root) == At(before, Root) && NoArtifacts(dirs)
      ensures res.Err? ==> res.error == Failed || res.error == RollbackFailed || res.error == FinishFailed
      ensures res.Err? && res.error != FinishFailed ==> check.None? && TurnedOn(config) == old(TurnedOn(config))
      ensures check.None? ==> NoReplacement(trace, |old(trace)|)
      ensures check.Some? ==> Replaced(trace, |old(trace)|, check.value, snapshot, Rewritten(snapshot, updated))
      ensures Counted(old(failures), old(edits))
      ensures Undisturbed(old(failures), old(edits)) && old(config) == snapshot && Readable(snapshot) && tempId !in old(temps) ==>
                res.Ok?
    {
      check := None;
      var committed: Result<bool, Problem>;
      ghost var c;
      committed, c := CommitOrRollBack(placement, before, tempId, snapshot, updated);
      ghost var done := trace;
      if committed.Err? {
        return Err(committed.error), check;
      }
      res := FinishPlaced(placement, before);
      SafeSoFar(done, trace, |old(trace)|);
      UsableRootIsSafe(trace, |done|, At(dirs, Root));
      if committed.value {
        check := Some(c);
        ReplacedWithin(old(trace), done, trace, |old(trace)|, c, snapshot, Rewritten(snapshot, updated));
      } else {
        QuietSoFar(done, trace, |old(trace)|);
      }
    }

    method FinishPlaced(placement: Placement, ghost before: Dirs) returns (res: Result<(), Problem>)
      requires Valid() && Placed(placement, before) && NoArtifacts(before)
      modifies this`dirs, this`config, this`trace, this`failures, this`edits, this`stuck
      ensures Steady(old(trace)) && TurnedOn(config) == old(TurnedOn(config)) && At(dirs, Root) == old(At(dirs, Root))
      ensures res.Ok? ==> NoArtifacts(dirs)
      ensures res.Err? ==> res.error == FinishFailed
      ensures Counted(old(failures), old(edits)) && (edits == old(edits) ==> config == old(config))
      ensures res.Ok? <==> failures == old(failures)
    {
      var ok := FinishBundleCommit(placement);
      res := if ok then Ok(()) else Err(FinishFailed);
    }

    method InstallPrepared(version: nat, binary: string, stageId: nat, tempId: nat, snapshot: Option<ConfigFile>, updated: string)
      returns (res: Result<(), Problem>, ghost check: Option<Commit>)
      requires Valid() && NoArtifacts(dirs) && Enabled(updated) && TurnedOn(snapshot) == TurnedOn(config)
      modifies this
      ensures Valid() && old(trace) <= trace && TempsKept(old(temps), tempId)
      ensures (TurnedOn(snapshot) ==> Usable(old(At(dirs, Root)))) ==> SafeSince(trace, |old(trace)|)
      ensures res.Ok? ==> NoArtifacts(dirs)
      ensures res.Ok? || res.error == FinishFailed ==>
                At(dirs, Root) == Some(Bundle(version, StagedFiles(binary))) && TurnedOn(config)
      ensures res == Err(Failed) || res == Err(NotSecured) ==> At(dirs, Root) == old(At(dirs, Root))
      ensures res == Err(Failed) ==> OnlyStuckArtifacts()
      ensures res.Err? && res.error != FinishFailed ==> NoReplacement(trace, |old(trace)|) && TurnedOn(config) == old(TurnedOn(config))
      ensures res.Err? ==> res.error != Refused
      ensures check.None? ==> NoReplacement(trace, |old(trace)|)
      ensures check.Some? ==> Replaced(trace, |old(trace)|, check.value, snapshot, Rewritten(snapshot, updated))
      ensures Counted(old(failures), old(edits))
      ensures Undisturbed(old(failures), old(edits)) && old(config) == snapshot && Readable(snapshot) && tempId !in old(temps) ==>
                res.Ok?
    {
      check := None;
      ghost var before := dirs;
      var placed := StageAndPlace(stageId, version, binary, before);
      if placed.Err? {
        return Err(placed.error), check;
      }
      ghost var staged := trace;
      res, check := InstallPlaced(placed.value, before, tempId, snapshot, updated);
      SafeSoFar(staged, trace, |old(trace)|);
    }

    ghost predicate OnlyStuckArtifacts()
      reads this
    {
      forall p :: At(dirs, p).Some? ==> p == Root || p in stuck
    }

    // Installs the bundle and enables it. On success, from whatever an earlier
    // run left, the bundle is whole, the setting is on and nothing is left
    // over. A run that fails before the config is replaced puts the root back.
    method InstallAt(version: nat, binary: string, stageId: nat, tempId: nat)
      returns (res: Result<(), Problem>, ghost check: Option<Commit>)
      requires Valid()
      modifies this
      ensures Valid() && old(trace) <= trace && TempsKept(old(temps), tempId)
      ensures SafeSince(old(trace), 0) ==> SafeSince(trace, 0)
      ensures res.Ok? ==> NoArtifacts(dirs)
      ensures res.Ok? || res.error == FinishFailed ==>
                At(dirs, Root) == Some(Bundle(version, StagedFiles(binary))) && TurnedOn(config)
      ensures res.Err? && res.error != RollbackFailed && res.error != FinishFailed ==> At(dirs, Root) == old(At(dirs, Root))
      ensures res == Err(Failed) ==> OnlyStuckArtifacts()
      ensures res.Err? && res.error != FinishFailed ==> NoReplacement(trace, |old(trace)|) && TurnedOn(config) == old(TurnedOn(config))
      ensures check.None? ==> NoReplacement(trace, |old(trace)|)
      ensures check.Some? ==> ReplacedByEdit(trace, |old(trace)|, check.value, true)
      ensures Counted(old(failures), old(edits))
      ensures Undisturbed(old(failures), old(edits)) && old(Readable(config)) && tempId !in old(temps) ==> res.Ok?
    {
      check := None;
      var prepared := Prepare();
      ghost var clean := trace;
      PresentIsSafe(old(trace), clean);
      if prepared.Err? {
        return Err(prepared.error), check;
      }
      res, check := InstallFrom(version, binary, stageId, tempId, prepared.value);
      WholeRun(clean, trace, |old(trace)|, check, true);
    }

    // From the cleaned up state on.
    method InstallFrom(version: nat, binary: string, stageId: nat, tempId: nat, snapshot: Option<ConfigFile>)
      returns (res: Result<(), Problem>, ghost check: Option<Commit>)
      requires Valid() && NoArtifacts(dirs) && TurnedOn(snapshot) == TurnedOn(config)
      modifies this
      ensures Valid() && old(trace) <= trace && TempsKept(old(temps), tempId)
      ensures (TurnedOn(snapshot) ==> Usable(old(At(dirs, Root)))) ==> SafeSince(trace, |old(trace)|)
      ensures res.Ok? ==> NoArtifacts(dirs)
      ensures res.Ok? || res.error == FinishFailed ==>
                At(dirs, Root) == Some(Bundle(version, StagedFiles(binary))) && TurnedOn(config)
      ensures res == Err(Failed) || res == Err(NotSecured) ==> At(dirs, Root) == old(At(dirs, Root))
      ensures res == Err(Failed) ==> OnlyStuckArtifacts()
      ensures res.Err? && res.error != FinishFailed ==> NoReplacement(trace, |old(trace)|) && TurnedOn(config) == old(TurnedOn(config))
      ensures res.Err? ==> res.error != Refused
      ensures check.None? ==> NoReplacement(trace, |old(trace)|)
      ensures check.Some? ==> ReplacedByEdit(trace, |old(trace)|, check.value, true)
      ensures Counted(old(failures), old(edits))
      ensures Undisturbed(old(failures), old(edits)) && old(config) == snapshot && Readable(snapshot) && tempId !in old(temps) ==>
                res.Ok?
    {
      var text := EnabledText(snapshot);
      res, check := InstallPrepared(version, binary, stageId, tempId, snapshot, text);
    }

    method DisabledText(snapshot: Option<ConfigFile>) returns (updated: string, removed: bool)
      ensures updated == UpdatedText(TextOf(snapshot), false) && !Enabled(updated)
      ensures removed <==> HasSection(snapshot)
    {
      var text := if snapshot.Some? then snapshot.value.text else "";
      updated, removed := UpdatedConfigText(text, false);
      UpdatedTextReadsBack(text, false);
    }

    method CommitDisabled(tempId: nat, snapshot: Option<ConfigFile>, updated: string)
      returns (ok: bool, ghost check: Option<Commit>)
      requires Valid() && !Enabled(updated) && TurnedOn(snapshot) == TurnedOn(config)
      modifies this`config, this`trace, this`failures, this`edits, this`temps
      ensures Valid() && old(trace) <= trace && RootSince(trace, |old(trace)|, At(dirs, Root))
      ensures (TurnedOn(snapshot) ==> Usable(At(dirs, Root))) ==> SafeSince(trace, |old(trace)|)
      ensures TempsKept(old(temps), tempId)
      ensures ok ==> !TurnedOn(config)
      ensures check.None? ==> NoReplacement(trace, |old(trace)|)
      ensures check.Some? ==> Replaced(trace, |old(trace)|, check.value, snapshot, Rewritten(snapshot, updated))
      ensures !ok ==> NotCommitted(old(trace), old(TurnedOn(config)))
      ensures Counted(old(failures), old(edits))
      ensures Undisturbed(old(failures), old(edits)) && old(config) == snapshot && Readable(snapshot) && tempId !in old(temps) ==>
                ok
    {
      var committed: Result<bool, Problem>;
      ghost var at;
      committed, at := CommitConfigSnapshot(tempId, snapshot, updated);
      ok := committed.Ok?;
      check := if ok && committed.value then Some(at) else None;
      SameTextSameSetting(snapshot, updated);
      assert ok && !committed.value ==> !TurnedOn(snapshot);
    }

    // With the setting off, the bundle may be taken away file by file.
    method RemoveBundle() returns (res: Result<bool, Problem>)
      requires Valid() && NoArtifacts(dirs) && !TurnedOn(config)
      modifies this`dirs, this`config, this`trace, this`failures, this`edits, this`stuck
      ensures Valid() && old(trace) <= trace && !TurnedOn(config) && SafeSince(trace, |old(trace)|)
      ensures NoReplacement(trace, |old(trace)|)
      ensures res.Ok? ==> Root !in dirs && NoArtifacts(dirs) && (res.value <==> Root in old(dirs))
      ensures res.Err? ==> res.error == FinishFailed
      ensures Counted(old(failures), old(edits)) && (edits == old(edits) ==> config == old(config))
      ensures res.Ok? <==> failures == old(failures)
    {
      var ok := Hook();
      if !ok {
        return Err(FinishFailed);
      }
      var removed := RemoveOwnedPluginRoot(Root);
      res := if removed.Ok? then removed else Err(FinishFailed);
    }

    // Turns the plugin off and then removes its bundle. It reports whether the
    // config it read, which is the one it replaced, had a section to remove.
    method UninstallAt(tempId: nat)
      returns (res: Result<bool, Problem>, removedConfig: bool, ghost check: Option<Commit>)
      requires Valid()
      modifies this
      ensures Valid() && old(trace) <= trace && TempsKept(old(temps), tempId)
      ensures SafeSince(old(trace), 0) ==> SafeSince(trace, 0)
      ensures res.Ok? ==> NoArtifacts(dirs) && Root !in dirs && !TurnedOn(config)
      ensures res.Ok? ==> (res.value <==> Root in old(dirs))
      ensures res == Err(FinishFailed) ==> !TurnedOn(config)
      ensures res.Err? && res.error != FinishFailed ==>
                At(dirs, Root) == old(At(dirs, Root)) && TurnedOn(config) == old(TurnedOn(config)) && NoReplacement(trace, |old(trace)|)
      ensures check.None? ==> NoReplacement(trace, |old(trace)|)
      ensures check.Some? ==> ReplacedByEdit(trace, |old(trace)|, check.value, false)
      ensures Counted(old(failures), old(edits))
      ensures Undisturbed(old(failures), old(edits)) && old(Readable(config)) && tempId !in old(temps) ==> res.Ok?
      ensures check.Some? ==> (removedConfig <==> HasSection(trace[check.value.checked].config))
      ensures res.Ok? && edits == old(edits) ==> (removedConfig <==> old(HasSection(config)))
    {
      check, removedConfig := None, false;
      var prepared := Prepare();
      ghost var clean := trace;
      PresentIsSafe(old(trace), clean);
      if prepared.Err? {
        return Err(prepared.error), removedConfig, check;
      }
      var updated: string;
      updated, removedConfig := DisabledText(prepared.value);
      res, check := UninstallPrepared(tempId, prepared.value, updated);
      WholeRun(clean, trace, |old(trace)|, check, false);
    }

    method UninstallPrepared(tempId: nat, snapshot: Option<ConfigFile>, updated: string)
      returns (res: Result<bool, Problem>, ghost check: Option<Commit>)
      requires Valid() && NoArtifacts(dirs) && !Enabled(updated) && TurnedOn(snapshot) == TurnedOn(config)
      modifies this
      ensures Valid() && old(trace) <= trace && TempsKept(old(temps), tempId)
      ensures (TurnedOn(snapshot) ==> Usable(old(At(dirs, Root)))) ==> SafeSince(trace, |old(trace)|)
      ensures res.Ok? ==> NoArtifacts(dirs) && Root !in dirs && !TurnedOn(config) && (res.value <==> Root in old(dirs))
      ensures res == Err(FinishFailed) ==> !TurnedOn(config)
      ensures res.Err? && res.error != FinishFailed ==>
                At(dirs, Root) == old(At(dirs, Root)) && TurnedOn(config) == old(TurnedOn(config)) && NoReplacement(trace, |old(trace)|)
      ensures check.None? ==> NoReplacement(trace, |old(trace)|)
      ensures check.Some? ==> Replaced(trace, |old(trace)|, check.value, snapshot, Rewritten(snapshot, updated))
      ensures Counted(old(failures), old(edits))
      ensures Undisturbed(old(failures), old(edits)) && old(config) == snapshot && Readable(snapshot) && tempId !in old(temps) ==>
                res.Ok?
    {
      var ok;
      ok, check := CommitDisabled(tempId, snapshot, updated);
      if !ok {
        return Err(Failed), check;
      }
      ghost var committed := trace;
      res := RemoveBundle();
      SafeSoFar(committed, trace, |old(trace)|);
    }
  }

  // An edit made before the comparison is never overwritten: the new config has
  // the mode and, up to newlines at the end, the outside lines of the compared
  // one. If the file it replaced was another one, then that file was put there
  // by an outside edit after the comparison.
  lemma EditsBeforeTheCheckSurvive(trace: seq<Moment>, from: nat, c: Commit, enabled: bool)
    requires ReplacedByEdit(trace, from, c, enabled)
    ensures var compared, replaced, now := trace[c.checked].config, trace[c.renamed - 1].config, trace[c.renamed].config;
            && now.Some? && (compared.Some? ==> now.value.mode == compared.value.mode)
            && Stripped(OutsideText(TextOf(now))) == Stripped(OutsideText(TextOf(compared)))
            && TurnedOn(now) == enabled
            && (replaced != compared ==> c.checked < c.renamed - 1 && trace[c.renamed - 1].event == EditedOutside)
  {
    UpdatedTextKeepsOutside(TextOf(trace[c.checked].config), enabled);
    UpdatedTextReadsBack(TextOf(trace[c.checked].config), enabled);
  }

  // A run without a replacement leaves the config entirely to the others.
  lemma NoReplacementNoChange(trace: seq<Moment>, from: nat, i: nat)
    requires Honest(trace) && NoReplacement(trace, from) && 0 < from <= i < |trace|
    ensures trace[i].config != trace[i - 1].config ==> trace[i].event == EditedOutside
  {
  }

  // A quiet stretch after a safe past is safe.
  lemma PresentIsSafe(before: seq<Moment>, trace: seq<Moment>)
    requires before != [] && before <= trace
    requires var now := trace[|trace| - 1];
             && SettingSince(trace, |before|, TurnedOn(now.config)) && RootSince(trace, |before|, At(now.dirs, Root))
             && TurnedOn(now.config) == TurnedOn(before[|before| - 1].config)
             && At(now.dirs, Root) == At(before[|before| - 1].dirs, Root)
    ensures SafeSince(before, 0) ==> SafeSince(trace, 0)
  {
    if SafeSince(before, 0) {
      assert Safe(before[|before| - 1]);
      SafeSoFar(before, trace, 0);
    }
  }

  lemma SteadySoFar(before: seq<Moment>, middle: seq<Moment>, trace: seq<Moment>, root: Option<Bundle>, on: bool)
    requires before <= middle <= trace
    requires RootSince(middle, |before|, root) && SettingSince(middle, |before|, on) && NoReplacement(middle, |before|)
    requires RootSince(trace, |middle|, root) && SettingSince(trace, |middle|, on) && NoReplacement(trace, |middle|)
    ensures RootSince(trace, |before|, root) && SettingSince(trace, |before|, on) && NoReplacement(trace, |before|)
  {
    assert forall i :: 0 <= i < |middle| ==> trace[i] == middle[i];
  }

  lemma CommittedSoFar(before: seq<Moment>, compared: seq<Moment>, trace: seq<Moment>, root: Option<Bundle>, on: bool)
    requires before <= compared <= trace && |compared| < |trace|
    requires RootSince(compared, |before|, root) && SettingSince(compared, |before|, on)
    requires RootSince(trace, |compared|, root) && SettingSince(trace[..|trace| - 1], |compared|, on)
    ensures RootSince(trace, |before|, root) && SettingSince(trace[..|trace| - 1], |before|, on)
  {
    assert forall i :: 0 <= i < |compared| ==> trace[i] == compared[i] && trace[..|trace| - 1][i] == compared[i];
  }

  lemma ReplacementMade(compared: seq<Moment>, trace: seq<Moment>, from: nat, c: Commit,
                        expected: Option<ConfigFile>, written: ConfigFile)
    requires compared <= trace && |compared| < |trace| && NoReplacement(compared, from)
    requires from <= c.synced < |compared| && compared[c.synced].event == TempSynced(written)
    requires c.checked == |compared| - 1 && compared[c.checked].config == expected && c.renamed == |trace| - 1
    requires OutsideSince(trace[..|trace| - 1], |compared|)
    requires trace[|trace| - 1].event == ConfigReplaced && trace[|trace| - 1].config == Some(written)
    ensures Replaced(trace, from, c, expected, written)
  {
    var before := trace[..|trace| - 1];
    assert forall i :: 0 <= i < |compared| ==> trace[i] == compared[i];
    assert forall i :: 0 <= i < |before| ==> trace[i] == before[i];
  }

  lemma ReplacedWithin(earlier: seq<Moment>, middle: seq<Moment>, trace: seq<Moment>, from: nat, c: Commit,
                       expected: Option<ConfigFile>, written: ConfigFile)
    requires earlier <= middle <= trace && from <= |earlier| && NoReplacement(earlier, from)
    requires Replaced(middle, |earlier|, c, expected, written) && NoReplacement(trace, |middle|)
    ensures Replaced(trace, from, c, expected, written)
  {
    assert forall i :: 0 <= i < |middle| ==> trace[i] == middle[i];
    assert forall i :: 0 <= i < |earlier| ==> trace[i] == earlier[i];
  }

  lemma QuietSoFar(earlier: seq<Moment>, trace: seq<Moment>, from: nat)
    requires earlier <= trace && NoReplacement(earlier, from) && NoReplacement(trace, |earlier|)
    ensures NoReplacement(trace, from)
  {
    assert forall i :: 0 <= i < |earlier| ==> trace[i] == earlier[i];
  }

  // What is replaced in the later part of a run in whose earlier part nothing
  // was replaced is what the whole run replaced.
  lemma ReplacedLater(earlier: seq<Moment>, trace: seq<Moment>, from: nat, c: Commit, enabled: bool)
    requires earlier <= trace && from <= |earlier| && NoReplacement(earlier, from)
    requires ReplacedByEdit(trace, |earlier|, c, enabled)
    ensures ReplacedByEdit(trace, from, c, enabled)
  {
    assert forall i :: from <= i < |earlier| ==> trace[i].event == earlier[i].event;
  }

  lemma WholeRun(clean: seq<Moment>, trace: seq<Moment>, from: nat, check: Option<Commit>, enabled: bool)
    requires clean <= trace && from <= |clean| && NoReplacement(clean, from)
    requires if check.Some? then ReplacedByEdit(trace, |clean|, check.value, enabled) else NoReplacement(trace, |clean|)
    ensures if check.Some? then ReplacedByEdit(trace, from, check.value, enabled) else NoReplacement(trace, from)
    ensures SafeSince(clean, 0) && SafeSince(trace, |clean|) ==> SafeSince(trace, 0)
  {
    SafeSoFar(clean, trace, 0);
    if check.Some? {
      ReplacedLater(clean, trace, from, check.value, enabled);
    } else {
      QuietSoFar(clean, trace, from);
    }
  }

  lemma SafeSoFar(before: seq<Moment>, trace: seq<Moment>, from: nat)
    requires before <= trace
    ensures SafeSince(before, from) && SafeSince(trace, |before|) ==> SafeSince(trace, from)
  {
    assert forall i :: 0 <= i < |before| ==> before[i] == trace[i];
  }
}
