/** The GUI's state: the loaded script, the tree built from it, the selected
    dialogue record, the generate button and the effects of generation on
    the file system. Widgets, threads and audio playback are not part of the
    model. */
module Gui {
  import opened PyValues
  import opened ScriptParser
  import opened GuiPaths
  import opened GuiTree
  import ApiClient
  import Text

  /** How a press of the generate button ends. */
  datatype Generation =
    | NothingSelected            // no record: nothing happens
    | NoVoice(character: Value)  // the guard: the button is enabled again, nothing else happens
    | Interrupted                // an exception on the GUI thread: the button stays disabled
    | WorkerCrashed(path: string) // the directory exists, the worker raised at the call: the button stays disabled
    | Saved(path: string)        // the audio was written to `path`
    | ApiFailed(path: string)    // the client returned nothing usable

  /** Keyword arguments bind to `generate_audio(self, text, model_name,
      emotion, **kwargs)` exactly when the three named parameters are among
      them; every other keyword is absorbed by `**kwargs`. */
  predicate BindsGenerateAudio(keywords: set<string>)
  {
    ApiClient.CoreKeys <= keywords
  }

  /** The keywords the GUI's worker passes. */
  const GuiCallKeywords: set<string> := {"text", "voice", "other_params"}

  /** The keywords of the evidently intended call. */
  const IntendedCallKeywords: set<string> := {"text", "model_name", "emotion"}

  /** The worker's call leaves `model_name` and `emotion` unbound, so it raises
      `TypeError` before any request is made; the intended call binds. */
  lemma WorkerCallDoesNotBind()
    ensures !BindsGenerateAudio(GuiCallKeywords)
    ensures "model_name" !in GuiCallKeywords && "emotion" !in GuiCallKeywords
    ensures BindsGenerateAudio(IntendedCallKeywords)
  {
    assert "model_name" in ApiClient.CoreKeys;
  }

  /** `character_mapping.get(character)`: the mapped voice, `None` for an
      unknown name; a list or mapping is unhashable and raises. Mapping keys
      are strings here, so a scalar that is not a string finds nothing. */
  function VoiceOf(mapping: map<string, Value>, character: Value): (r: Outcome<Value>)
    ensures r.Raised? <==> character.List? || character.Mapping?
    ensures character.Str? && character.s !in mapping ==> r == Returned(Null)
    ensures r.Returned? && Truthy(r.value) ==>
      character.Str? && character.s in mapping && r.value == mapping[character.s]
  {
    match character
    case Str(s) => Returned(if s in mapping then mapping[s] else Null)
    case List(_) => Raised
    case Mapping(_) => Raised
    case _ => Returned(Null)
  }

  /** What the GUI thread decides before handing over to the worker. */
  datatype Plan =
    | Idle                          // nothing selected
    | Guarded(character: Value)     // no voice for the character
    | Fails                         // an exception before the worker starts
    | Ready(voice: Value, path: string)

  /** The GUI thread's part of `generate_audio`: the record's character, its
      voice, the guard, the output path, and `makedirs` on its directory,
      which raises for an empty directory name. */
  function PlanGeneration(info: Option<map<string, Value>>, mapping: map<string, Value>, outputDir: string): (plan: Plan)
    ensures plan.Idle? <==> info.None? || info.value == map[]
    ensures plan.Guarded? ==>
      info.Some? && "character" in info.value && plan.character == info.value["character"]
      && VoiceOf(mapping, plan.character).Returned? && !Truthy(VoiceOf(mapping, plan.character).value)
    ensures plan.Ready? ==>
      && info.Some? && "character" in info.value
      && VoiceOf(mapping, info.value["character"]) == Returned(plan.voice) && Truthy(plan.voice)
      && OutputPathOf(outputDir, info.value) == Returned(plan.path) && Dirname(plan.path) != []
  {
    if info.None? || info.value == map[] then Idle
    else if "character" !in info.value then Fails
    else
      match VoiceOf(mapping, info.value["character"])
      case Raised => Fails
      case Returned(voice) =>
        if !Truthy(voice) then Guarded(info.value["character"])
        else
          match OutputPathOf(outputDir, info.value)
          case Raised => Fails
          case Returned(path) => if Dirname(path) == [] then Fails else Ready(voice, path)
  }

  /** The guard comes first: a character without a voice stops generation
      whatever the rest of the record holds, before any path is computed. */
  lemma UnmappedCharacterStops(info: map<string, Value>, mapping: map<string, Value>, outputDir: string, c: string)
    requires "character" in info && info["character"] == Str(c)
    requires c !in mapping || !Truthy(mapping[c])
    ensures PlanGeneration(Some(info), mapping, outputDir) == Guarded(Str(c))
  {
    assert info != map[];
  }

  /** A ready plan carries a voice and the path `get_output_path` reports, in a
      directory with a name. */
  lemma ReadyPlanUsesOutputPath(info: Option<map<string, Value>>, mapping: map<string, Value>, outputDir: string)
    requires PlanGeneration(info, mapping, outputDir).Ready?
    ensures var plan := PlanGeneration(info, mapping, outputDir);
      && Truthy(plan.voice)
      && SelectionPath(outputDir, info) == Returned(Some(plan.path))
      && Dirname(plan.path) != []
  {
  }

  /** A well-formed record of a mapped character gets ready for generation,
      with the scene directory as the directory to create. */
  lemma MappedCharacterGetsReady(info: map<string, Value>, mapping: map<string, Value>, outputDir: string)
    requires WellFormedRecord(info)
    requires info["character"].s in mapping && Truthy(mapping[info["character"].s])
    requires outputDir != [] && outputDir[|outputDir| - 1] != '/'
    requires Utils.SanitizeFilename(info["scene_name"].s, Utils.DefaultMaxLength) != []
    requires '/' !in info["character"].s
    ensures PlanGeneration(Some(info), mapping, outputDir).Ready?
    ensures Dirname(Dirname(PlanGeneration(Some(info), mapping, outputDir).path)) == outputDir
  {
    OutputPathDirs(outputDir, info);
    var p := OutputPathOf(outputDir, info).value;
    var voice := mapping[info["character"].s];
    assert VoiceOf(mapping, info["character"]) == Returned(voice);
    PlanWithKnownPath(info, mapping, outputDir, voice, p);
  }

  /** The line's file sits two directory levels below the output directory. */
  lemma OutputPathDirs(outputDir: string, info: map<string, Value>)
    requires WellFormedRecord(info)
    requires outputDir != [] && outputDir[|outputDir| - 1] != '/'
    requires Utils.SanitizeFilename(info["scene_name"].s, Utils.DefaultMaxLength) != []
    requires '/' !in info["character"].s
    ensures OutputPathOf(outputDir, info).Returned?
    ensures Dirname(Dirname(OutputPathOf(outputDir, info).value)) == outputDir
    ensures Dirname(OutputPathOf(outputDir, info).value) != []
  {
    OutputPathLayout(outputDir, info);
    assert Dirname([]) == [];
  }

  lemma PlanWithKnownPath(info: map<string, Value>, mapping: map<string, Value>, outputDir: string, voice: Value, p: string)
    requires "character" in info && VoiceOf(mapping, info["character"]) == Returned(voice) && Truthy(voice)
    requires OutputPathOf(outputDir, info) == Returned(p) && Dirname(p) != []
    ensures PlanGeneration(Some(info), mapping, outputDir) == Ready(voice, p)
  {
    assert info != map[];
  }

  class App {
    const client: ApiClient.Client
    const characterMapping: map<string, Value>
    const outputDir: string
    var scriptData: Option<Value>
    var currentDialogueInfo: Option<map<string, Value>>
    var tree: seq<TreeNode>
    var generateEnabled: bool
    /** The directories `os.makedirs` was called on, in order. */
    var madeDirs: seq<string>
    /** The audio files written, by path. */
    var files: map<string, Bytes>

    constructor (client: ApiClient.Client, characterMapping: map<string, Value>, outputDir: string)
      ensures this.client == client && this.characterMapping == characterMapping && this.outputDir == outputDir
      ensures scriptData == None && currentDialogueInfo == None && tree == []
      ensures generateEnabled && madeDirs == [] && files == map[]
    {
      this.client := client;
      this.characterMapping := characterMapping;
      this.outputDir := outputDir;
      scriptData := None;
      currentDialogueInfo := None;
      tree := [];
      generateEnabled := true;
      madeDirs := [];
      files := map[];
    }

    /** `open_script`: `chosen` is the path from the file dialog (empty when
        cancelled), `load` what reading it produced. A rejected script leaves
        the old tree in place; an accepted one rebuilds the tree, which an
        exception may stop part-way. */
    method OpenScript(chosen: string, load: Load) returns (r: Outcome<()>)
      modifies this`scriptData, this`tree
      ensures chosen == [] ==> scriptData == old(scriptData) && tree == old(tree) && r == Returned(())
      ensures chosen != [] ==> scriptData == ParseScript(load)
      ensures chosen != [] && scriptData.None? ==> tree == old(tree) && r == Returned(())
      ensures chosen != [] && scriptData.Some? ==>
        && HasSceneList(scriptData.value)
        && tree == TreeOf(ScenesOf(scriptData.value)).nodes
        && (r == Returned(()) <==> TreeOf(ScenesOf(scriptData.value)).complete)
    {
      if chosen == [] {
        return Returned(());
      }
      scriptData := ParseScript(load);
      if scriptData.None? {
        return Returned(());
      }
      var completed := PopulateTree();
      r := if completed then Returned(()) else Raised;
    }

    /** `populate_tree`: clears the tree, then inserts each scene's node and
        its dialogue nodes in order, stopping at the first exception. */
    method PopulateTree() returns (completed: bool)
      requires scriptData.Some? && HasSceneList(scriptData.value)
      modifies this`tree
      ensures tree == TreeOf(ScenesOf(scriptData.value)).nodes
      ensures completed == TreeOf(ScenesOf(scriptData.value)).complete
    {
      var scenes := ScenesOf(scriptData.value);
      tree := [];
      completed := true;
      var i := 0;
      while i < |scenes| && completed
        invariant 0 <= i <= |scenes|
        invariant TreeUpTo(scenes, i) == Build(tree, completed)
      {
        ghost var before := tree;
        completed := AddScene(i, scenes[i]);
        TreeUpToNext(scenes, i, before, tree, completed);
        i := i + 1;
      }
      TreeOfStoppedPrefix(scenes, i);
    }

    /** One scene of `populate_tree`: its node, then its dialogue nodes; a
        scene that is not a mapping or whose `scene_name` is null raises before
        its node is inserted. */
    method AddScene(i: nat, scene: Value) returns (completed: bool)
      modifies this`tree
      ensures tree == old(tree) + SceneBuild(i, scene).nodes
      ensures completed == SceneBuild(i, scene).complete
    {
      if !scene.Mapping? {
        return false;
      }
      var m := scene.entries;
      if "scene_name" in m && m["scene_name"] == Null {
        return false;
      }
      var node := SceneNode(i, if "scene_name" in m then m["scene_name"] else Str(UnnamedScene));
      tree := tree + [node];
      var items := DialogueItems(m);
      if items.None? {
        return false;
      }
      Text.AppendAssoc(old(tree), [node], DialoguesUpTo(i, items.value, |items.value|).nodes);
      completed := AddDialogues(i, items.value);
    }

    /** The inner loop of `populate_tree`: one node per dialogue, stopping at
        the first dialogue whose label cannot be formed. */
    method AddDialogues(s: nat, ds: seq<Value>) returns (completed: bool)
      modifies this`tree
      ensures tree == old(tree) + DialoguesUpTo(s, ds, |ds|).nodes
      ensures completed == DialoguesUpTo(s, ds, |ds|).complete
    {
      completed := true;
      var j := 0;
      while j < |ds| && completed
        invariant 0 <= j <= |ds|
        invariant tree == old(tree) + DialoguesUpTo(s, ds, j).nodes
        invariant completed == DialoguesUpTo(s, ds, j).complete
      {
        DialoguesUpToNext(s, ds, j);
        var caption := LineLabel(ds[j]);
        if caption.Raised? {
          completed := false;
        } else {
          Text.AppendAssoc(old(tree), DialoguesUpTo(s, ds, j).nodes, [DialogueNode(s, j, caption.value)]);
          tree := tree + [DialogueNode(s, j, caption.value)];
        }
        j := j + 1;
      }
      if !completed {
        StoppedDialoguesStayStopped(s, ds, j, |ds|);
      }
    }

    /** `on_tree_select`: an exception leaves the previous record in place. */
    method OnTreeSelect(selection: seq<string>) returns (r: Outcome<()>)
      modifies this`currentDialogueInfo
      ensures SelectRecord(scriptData, selection).Raised? ==>
        r == Raised && currentDialogueInfo == old(currentDialogueInfo)
      ensures SelectRecord(scriptData, selection).Returned? ==>
        r == Returned(()) && currentDialogueInfo == SelectRecord(scriptData, selection).value
    {
      var selected := SelectRecord(scriptData, selection);
      if selected.Raised? {
        return Raised;
      }
      currentDialogueInfo := selected.value;
      r := Returned(());
    }

    /** `get_output_path`. */
    function GetOutputPath(): (r: Outcome<Option<string>>)
      reads this
      ensures r == Returned(None) <==> currentDialogueInfo.None? || currentDialogueInfo.value == map[]
      ensures forall p :: r == Returned(Some(p)) <==>
        currentDialogueInfo.Some? && currentDialogueInfo.value != map[]
        && OutputPathOf(outputDir, currentDialogueInfo.value) == Returned(p)
    {
      SelectionPath(outputDir, currentDialogueInfo)
    }

    /** The GUI thread's part of `generate_audio`, up to starting the worker. */
    method StartGeneration() returns (plan: Plan)
      modifies this`generateEnabled, this`madeDirs
      ensures plan == PlanGeneration(currentDialogueInfo, characterMapping, outputDir)
      ensures plan.Idle? ==> generateEnabled == old(generateEnabled) && madeDirs == old(madeDirs)
      ensures plan.Guarded? ==> generateEnabled && madeDirs == old(madeDirs)
      ensures plan.Fails? ==> !generateEnabled && madeDirs == old(madeDirs)
      ensures plan.Ready? ==> !generateEnabled && madeDirs == old(madeDirs) + [Dirname(plan.path)]
    {
      if currentDialogueInfo.None? || currentDialogueInfo.value == map[] {
        return Idle;
      }
      generateEnabled := false;
      var info := currentDialogueInfo.value;
      if "character" !in info {
        return Fails;
      }
      var character := info["character"];
      var voice := VoiceOf(characterMapping, character);
      if voice.Raised? {
        return Fails;
      }
      if !Truthy(voice.value) {
        generateEnabled := true;
        return Guarded(character);
      }
      var path := OutputPathOf(outputDir, info);
      if path.Raised? {
        return Fails;
      }
      var dir := Dirname(path.value);
      if dir == [] {
        return Fails;
      }
      madeDirs := madeDirs + [dir];
      plan := Ready(voice.value, path.value);
    }

    /** `generate_audio` as written: once the directory exists, the worker's
        call does not bind, so the worker dies with the button disabled and
        nothing is written. */
    method GenerateAudio(editedText: string, emotion: string) returns (g: Generation)
      modifies this`generateEnabled, this`madeDirs
      ensures match PlanGeneration(currentDialogueInfo, characterMapping, outputDir)
        case Idle => g == NothingSelected && generateEnabled == old(generateEnabled) && madeDirs == old(madeDirs)
        case Guarded(c) => g == NoVoice(c) && generateEnabled && madeDirs == old(madeDirs)
        case Fails => g == Interrupted && !generateEnabled && madeDirs == old(madeDirs)
        case Ready(_, path) => g == WorkerCrashed(path) && !generateEnabled && madeDirs == old(madeDirs) + [Dirname(path)]
    {
      var plan := StartGeneration();
      match plan
      case Idle => g := NothingSelected;
      case Guarded(c) => g := NoVoice(c);
      case Fails => g := Interrupted;
      case Ready(_, path) =>
        WorkerCallDoesNotBind();
        g := WorkerCrashed(path);
    }

    /** `generate_audio` with the evidently intended call
        `generate_audio(text=..., model_name=voice, emotion=...)`: the audio
        is written when the client returns non-empty bytes, and the button is
        enabled again either way. */
    method GenerateAudioCorrected(editedText: string, emotion: string, net: ApiClient.Network) returns (g: Generation)
      modifies this`generateEnabled, this`madeDirs, this`files
      ensures var plan := PlanGeneration(currentDialogueInfo, characterMapping, outputDir);
        && (plan.Idle? ==>
              g == NothingSelected && generateEnabled == old(generateEnabled) && madeDirs == old(madeDirs) && files == old(files))
        && (plan.Guarded? ==> g == NoVoice(plan.character) && generateEnabled && madeDirs == old(madeDirs) && files == old(files))
        && (plan.Fails? ==> g == Interrupted && !generateEnabled && madeDirs == old(madeDirs) && files == old(files))
        && (plan.Ready? ==>
              && madeDirs == old(madeDirs) + [Dirname(plan.path)]
              && Delivered(old(files), plan.path, ApiClient.Fetch(client.baseUrl,
                   ApiClient.MergedPayload(client.defaultParams, editedText, plan.voice, emotion, map[]), net),
                   g, generateEnabled, files))
    {
      var plan := StartGeneration();
      if plan.Ready? {
        var audio := client.GenerateAudio(editedText, plan.voice, emotion, map[], net);
        g := SaveAudio(plan.path, audio);
      } else if plan.Guarded? {
        g := NoVoice(plan.character);
      } else if plan.Fails? {
        g := Interrupted;
      } else {
        g := NothingSelected;
      }
    }

    /** The worker of the intended call once the client has answered. */
    method SaveAudio(path: string, audio: Option<Bytes>) returns (g: Generation)
      modifies this`generateEnabled, this`files
      ensures Delivered(old(files), path, audio, g, generateEnabled, files)
    {
      if audio.Some? && audio.value != [] {
        files := files[path := audio.value];
        g := Saved(path);
      } else {
        g := ApiFailed(path);
      }
      generateEnabled := true;
    }
  }

  /** The end of a worker that got `audio` from the client: non-empty bytes are
      written to `path`, anything else writes nothing, and the button is
      enabled again. */
  ghost predicate Delivered(before: map<string, Bytes>, path: string, audio: Option<Bytes>,
                            g: Generation, enabled: bool, after: map<string, Bytes>)
  {
    && enabled
    && if audio.Some? && audio.value != [] then g == Saved(path) && after == before[path := audio.value]
       else g == ApiFailed(path) && after == before
  }
}
