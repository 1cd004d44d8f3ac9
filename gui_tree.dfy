/** The script tree of the GUI: the node ids it writes, the labels it shows,
    how it is built from a script, and how a selected id is read back into a
    selection record. */
module GuiTree {
  import opened PyValues
  import opened Text
  import opened ScriptParser
  import opened GuiPaths

  /** The text shown for a scene without a `scene_name` ("unnamed chapter"). */
  const UnnamedScene: string := "\U{672A}\U{547D}\U{540D}\U{7AE0}\U{8282}"

  const DialoguePrefix: string := "dialogue_"

  /** The id of scene `i`: `scene_` and the number, which `int()` reads back. */
  function SceneId(i: nat): (id: string)
    ensures |id| > 6 && id[..6] == "scene_" && ParsePyInt(id[6..]) == Some(i)
  {
    var id := "scene_" + DigitsOf(i);
    assert id[6..] == DigitsOf(i);
    ParseDigitsOf(i);
    id
  }

  /** The id of dialogue `d` of scene `s`; split on underscores it gives the
      prefix word and the two numbers. */
  function DialogueId(s: nat, d: nat): (id: string)
    ensures StartsWith(id, DialoguePrefix)
    ensures Split(id, '_') == ["dialogue", DigitsOf(s), DigitsOf(d)]
  {
    var parts := ["dialogue", DigitsOf(s), DigitsOf(d)];
    DigitsHaveNoUnderscore(DigitsOf(s));
    DigitsHaveNoUnderscore(DigitsOf(d));
    assert parts[1..][1..] == [DigitsOf(d)];
    assert JoinWith(parts[1..], '_') == DigitsOf(s) + "_" + DigitsOf(d);
    assert JoinWith(parts, '_') == DialoguePrefix + DigitsOf(s) + "_" + DigitsOf(d);
    JoinThenSplit(parts, '_');
    DialoguePrefix + DigitsOf(s) + "_" + DigitsOf(d)
  }

  /** Reading a selected id back: split on underscores, unpack into exactly
      three parts, convert the last two with `int()`. A wrong number of parts
      or a part that is not an integer raises. */
  function ParseDialogueId(id: string): (r: Outcome<(int, int)>)
    ensures |Split(id, '_')| != 3 ==> r.Raised?
    ensures r.Returned? ==>
      && |Split(id, '_')| == 3
      && ParsePyInt(Split(id, '_')[1]) == Some(r.value.0)
      && ParsePyInt(Split(id, '_')[2]) == Some(r.value.1)
  {
    var parts := Split(id, '_');
    if |parts| != 3 then Raised
    else
      match (ParsePyInt(parts[1]), ParsePyInt(parts[2]))
      case (Some(s), Some(d)) => Returned((s, d))
      case _ => Raised
  }

  /** A dialogue id is recognised as one and reads back as the indices it was
      written from. */
  lemma DialogueIdRoundTrip(s: nat, d: nat)
    ensures StartsWith(DialogueId(s, d), DialoguePrefix)
    ensures ParseDialogueId(DialogueId(s, d)) == Returned((s, d))
  {
    ParseDigitsOf(s);
    ParseDigitsOf(d);
  }

  lemma DigitsHaveNoUnderscore(s: string)
    requires AllDigits(s)
    ensures '_' !in s
  {
    assert forall i :: 0 <= i < |s| ==> s[i] != '_';
  }

  /** Scene ids are not dialogue ids. */
  lemma SceneIdIsNotDialogueId(i: nat)
    ensures !StartsWith(SceneId(i), DialoguePrefix)
  {
    assert SceneId(i)[0] == 's';
  }

  /** Different nodes have different ids. */
  lemma DialogueIdInjective(s1: nat, d1: nat, s2: nat, d2: nat)
    requires DialogueId(s1, d1) == DialogueId(s2, d2)
    ensures s1 == s2 && d1 == d2
  {
    DialogueIdRoundTrip(s1, d1);
    DialogueIdRoundTrip(s2, d2);
  }

  lemma SceneIdInjective(i: nat, j: nat)
    requires SceneId(i) == SceneId(j)
    ensures i == j
  {
  }

  /** The caption of a dialogue line: the character (`?` when absent), a colon,
      the first twenty characters of the text (empty when absent) and an
      ellipsis. A dialogue that is not a mapping, or a text that is not a
      string, raises. */
  function LineLabel(dialogue: Value): (r: Outcome<string>)
    ensures r.Raised? <==>
      || !dialogue.Mapping?
      || ("text" in dialogue.entries && !dialogue.entries["text"].Str?)
      || ("character" in dialogue.entries && Format(dialogue.entries["character"]).Raised?)
    ensures r.Returned? ==> |r.value| >= 5 && r.value[|r.value| - 3..] == "..."
  {
    match dialogue
    case Mapping(m) =>
      var character := if "character" in m then m["character"] else Str("?");
      var text := if "text" in m then m["text"] else Str("");
      (match (Format(character), text)
       case (Returned(c), Str(t)) => Returned(c + ": " + PySliceTo(t, 20) + "...")
       case _ => Raised)
    case _ => Raised
  }

  /** What a caption shows: the character, then at most the first twenty
      characters of the text, then the ellipsis. */
  lemma LineLabelShows(m: map<string, Value>, character: string, text: string)
    requires "character" in m ==> m["character"] == Str(character)
    requires "character" !in m ==> character == "?"
    requires "text" in m ==> m["text"] == Str(text)
    requires "text" !in m ==> text == ""
    ensures LineLabel(Mapping(m)).Returned?
    ensures var caption := LineLabel(Mapping(m)).value;
      var shown := if |text| <= 20 then |text| else 20;
      caption == character + ": " + text[..shown] + "..."
  {
  }

  /** A node of the tree. A scene node shows its `scene_name` value; a
      dialogue node its caption. */
  datatype TreeNode =
    | SceneNode(index: nat, name: Value)
    | DialogueNode(scene: nat, index: nat, caption: string)

  function NodeId(n: TreeNode): string
  {
    match n
    case SceneNode(i, _) => SceneId(i)
    case DialogueNode(s, d, _) => DialogueId(s, d)
  }

  /** The id of a node's parent; the empty id is the root. */
  function ParentId(n: TreeNode): string
  {
    match n
    case SceneNode(_, _) => ""
    case DialogueNode(s, _, _) => SceneId(s)
  }

  /** The nodes inserted so far, and whether insertion went on to the end
      (`false`: an exception stopped `populate_tree` after these nodes). */
  datatype Build = Build(nodes: seq<TreeNode>, complete: bool)

  /** The dialogue list `populate_tree` iterates over: the `dialogues` value,
      an empty list when absent. An empty string or mapping iterates over
      nothing; a non-empty one yields elements without `.get`, and any other
      value is not iterable: both stop the build. */
  function DialogueItems(scene: map<string, Value>): (r: Option<seq<Value>>)
    ensures "dialogues" !in scene ==> r == Some([])
    ensures "dialogues" in scene && scene["dialogues"].List? ==> r == Some(scene["dialogues"].items)
    ensures r.Some? && r.value != [] ==> "dialogues" in scene && scene["dialogues"] == List(r.value)
  {
    var ds := if "dialogues" in scene then scene["dialogues"] else List([]);
    match ds
    case List(items) => Some(items)
    case Str(s) => if s == [] then Some([]) else None
    case Mapping(m) => if m == map[] then Some([]) else None
    case _ => None
  }

  /** The dialogue nodes of scene `s` after the first `j` dialogues. */
  function DialoguesUpTo(s: nat, items: seq<Value>, j: nat): (r: Build)
    requires j <= |items|
    ensures |r.nodes| <= j
    ensures r.complete ==> |r.nodes| == j
    ensures !r.complete ==> |r.nodes| < j && LineLabel(items[|r.nodes|]).Raised?
    ensures forall k :: 0 <= k < |r.nodes| ==>
      && r.nodes[k].DialogueNode? && r.nodes[k].scene == s && r.nodes[k].index == k
      && LineLabel(items[k]) == Returned(r.nodes[k].caption)
  {
    if j == 0 then Build([], true)
    else
      var p := DialoguesUpTo(s, items, j - 1);
      if !p.complete then p
      else
        match LineLabel(items[j - 1])
        case Raised => Build(p.nodes, false)
        case Returned(caption) => Build(p.nodes + [DialogueNode(s, j - 1, caption)], true)
  }

  /** The nodes of scene `i`: the scene node, then its dialogue nodes. A scene
      that is not a mapping stops the build before its node (it has no
      `.get`), and so does a `scene_name` that is YAML null: the tree widget
      is then given an option without a value, which Tk rejects. */
  function SceneBuild(i: nat, scene: Value): (r: Build)
    ensures !scene.Mapping? ==> r == Build([], false)
    ensures scene.Mapping? && "scene_name" in scene.entries && scene.entries["scene_name"] == Null ==> r == Build([], false)
    ensures r.complete ==> r.nodes != []
    ensures r.nodes != [] ==>
      && r.nodes[0].SceneNode? && r.nodes[0].index == i && r.nodes[0].name != Null
      && forall k :: 1 <= k < |r.nodes| ==>
           r.nodes[k].DialogueNode? && r.nodes[k].scene == i && r.nodes[k].index == k - 1
  {
    match scene
    case Mapping(m) =>
      if "scene_name" in m && m["scene_name"] == Null then Build([], false)
      else
      var node := SceneNode(i, if "scene_name" in m then m["scene_name"] else Str(UnnamedScene));
      (match DialogueItems(m)
       case None => Build([node], false)
       case Some(items) =>
         var b := DialoguesUpTo(i, items, |items|);
         Build([node] + b.nodes, b.complete))
    case _ => Build([], false)
  }

  /** The tree after the first `i` scenes. */
  function TreeUpTo(scenes: seq<Value>, i: nat): (r: Build)
    requires i <= |scenes|
    ensures forall n :: n in r.nodes ==>
      && (n.SceneNode? ==> n.index < i && n.name != Null)
      && (n.DialogueNode? ==> n.scene < i)
  {
    if i == 0 then Build([], true)
    else
      var p := TreeUpTo(scenes, i - 1);
      if !p.complete then p
      else
        var b := SceneBuild(i - 1, scenes[i - 1]);
        Build(p.nodes + b.nodes, b.complete)
  }

  function TreeOf(scenes: seq<Value>): (r: Build)
    ensures forall n :: n in r.nodes ==>
      && (n.SceneNode? ==> n.index < |scenes| && n.name != Null)
      && (n.DialogueNode? ==> n.scene < |scenes|)
  {
    TreeUpTo(scenes, |scenes|)
  }

  /** A scene whose `scene_name` is null stops the build at that scene: no
      node of it or of any later scene is shown, and opening the script
      raises. */
  lemma NullSceneNameStopsBuild(scenes: seq<Value>, k: nat)
    requires k < |scenes| && scenes[k].Mapping?
    requires "scene_name" in scenes[k].entries && scenes[k].entries["scene_name"] == Null
    ensures !TreeOf(scenes).complete
    ensures forall n :: n in TreeOf(scenes).nodes ==>
      && (n.SceneNode? ==> n.index < k)
      && (n.DialogueNode? ==> n.scene < k)
  {
    if TreeUpTo(scenes, k).complete {
      assert TreeUpTo(scenes, k + 1) == Build(TreeUpTo(scenes, k).nodes + [], false);
      StoppedTreeStaysStopped(scenes, k + 1, |scenes|);
    } else {
      StoppedTreeStaysStopped(scenes, k, |scenes|);
    }
  }

  /** One more scene of a build that has not stopped appends that scene's
      build. */
  lemma TreeUpToNext(scenes: seq<Value>, i: nat, before: seq<TreeNode>, after: seq<TreeNode>, complete: bool)
    requires i < |scenes| && TreeUpTo(scenes, i) == Build(before, true)
    requires after == before + SceneBuild(i, scenes[i]).nodes && complete == SceneBuild(i, scenes[i]).complete
    ensures TreeUpTo(scenes, i + 1) == Build(after, complete)
  {
  }

  /** One more dialogue of a build that has not stopped: a node for it when
      its label can be formed, else the build stops. */
  lemma DialoguesUpToNext(s: nat, items: seq<Value>, j: nat)
    requires j < |items| && DialoguesUpTo(s, items, j).complete
    ensures var p := DialoguesUpTo(s, items, j);
      DialoguesUpTo(s, items, j + 1) ==
        match LineLabel(items[j])
        case Raised => Build(p.nodes, false)
        case Returned(caption) => Build(p.nodes + [DialogueNode(s, j, caption)], true)
  {
  }

  /** A build that went through every scene, or stopped, is the whole tree. */
  lemma TreeOfStoppedPrefix(scenes: seq<Value>, i: nat)
    requires i <= |scenes| && (i == |scenes| || !TreeUpTo(scenes, i).complete)
    ensures TreeOf(scenes) == TreeUpTo(scenes, i)
  {
    if i < |scenes| {
      StoppedTreeStaysStopped(scenes, i, |scenes|);
    }
  }

  /** Once an exception stopped the build, later scenes add nothing. */
  lemma {:induction false} StoppedTreeStaysStopped(scenes: seq<Value>, i: nat, k: nat)
    requires i <= k <= |scenes|
    requires !TreeUpTo(scenes, i).complete
    ensures TreeUpTo(scenes, k) == TreeUpTo(scenes, i)
    decreases k
  {
    if k > i {
      StoppedTreeStaysStopped(scenes, i, k - 1);
    }
  }

  lemma {:induction false} StoppedDialoguesStayStopped(s: nat, items: seq<Value>, j: nat, k: nat)
    requires j <= k <= |items|
    requires !DialoguesUpTo(s, items, j).complete
    ensures DialoguesUpTo(s, items, k) == DialoguesUpTo(s, items, j)
    decreases k
  {
    if k > j {
      StoppedDialoguesStayStopped(s, items, j, k - 1);
    }
  }

  /** A dialogue node built for scene `s` stands for a dialogue that is a
      mapping, at its own position in the list. */
  lemma {:induction false} DialogueNodesPointAtMappings(s: nat, items: seq<Value>, j: nat, n: TreeNode)
    requires j <= |items|
    requires n in DialoguesUpTo(s, items, j).nodes
    ensures n.DialogueNode? && n.scene == s && n.index < j && items[n.index].Mapping?
    ensures LineLabel(items[n.index]) == Returned(n.caption)
    decreases j
  {
    var p := DialoguesUpTo(s, items, j - 1);
    if n in p.nodes {
      DialogueNodesPointAtMappings(s, items, j - 1, n);
    }
  }

  /** Every dialogue node of a built tree stands for a dialogue of the script:
      its scene is a mapping whose `dialogues` is a list, and the dialogue at
      its index is a mapping. */
  lemma {:induction false} TreeNodesPointIntoScript(scenes: seq<Value>, i: nat, n: TreeNode)
    requires i <= |scenes|
    requires n in TreeUpTo(scenes, i).nodes
    requires n.DialogueNode?
    ensures n.scene < i && scenes[n.scene].Mapping?
    ensures "dialogues" in scenes[n.scene].entries && scenes[n.scene].entries["dialogues"].List?
    ensures n.index < |scenes[n.scene].entries["dialogues"].items|
    ensures scenes[n.scene].entries["dialogues"].items[n.index].Mapping?
    decreases i
  {
    var p := TreeUpTo(scenes, i - 1);
    if n in p.nodes {
      TreeNodesPointIntoScript(scenes, i - 1, n);
    } else {
      assert p.complete;
      assert n in SceneBuild(i - 1, scenes[i - 1]).nodes;
      SceneDialogueNode(i - 1, scenes[i - 1], n);
      var items := DialogueItems(scenes[i - 1].entries).value;
      DialogueNodesPointAtMappings(i - 1, items, |items|, n);
      assert items != [];
    }
  }

  /** A dialogue node of a scene's build comes from the scene's dialogues. */
  lemma SceneDialogueNode(i: nat, scene: Value, n: TreeNode)
    requires n in SceneBuild(i, scene).nodes && n.DialogueNode?
    ensures scene.Mapping? && DialogueItems(scene.entries).Some?
    ensures var items := DialogueItems(scene.entries).value;
      n in DialoguesUpTo(i, items, |items|).nodes
  {
  }

  /** `script_data[...]["..."]`: a mapping with the key; everything else
      raises (`TypeError` or `KeyError`). */
  function Subscript(v: Value, key: string): Outcome<Value>
  {
    if v.Mapping? && key in v.entries then Returned(v.entries[key]) else Raised
  }

  /** `v[i]` with an integer, negative positions counting from the end; out of
      range raises `IndexError`, and mappings (whose keys are strings here)
      and scalars raise. */
  function Index(v: Value, i: int): Outcome<Value>
  {
    match v
    case List(items) =>
      if -|items| <= i < |items| then Returned(items[if i < 0 then i + |items| else i]) else Raised
    case Str(s) =>
      if -|s| <= i < |s| then Returned(Str([s[if i < 0 then i + |s| else i]])) else Raised
    case _ => Raised
  }

  /** The selection record: the three index fields, then every key of the
      dialogue, which wins on a clash. */
  function MergeRecord(s: int, d: int, sceneName: Value, dialogue: map<string, Value>): (r: map<string, Value>)
    ensures r.Keys == {"scene_idx", "dialogue_idx", "scene_name"} + dialogue.Keys
    ensures forall k :: k in dialogue ==> r[k] == dialogue[k]
    ensures "scene_idx" !in dialogue ==> r["scene_idx"] == Int(s)
    ensures "dialogue_idx" !in dialogue ==> r["dialogue_idx"] == Int(d)
    ensures "scene_name" !in dialogue ==> r["scene_name"] == sceneName
  {
    map["scene_idx" := Int(s), "dialogue_idx" := Int(d), "scene_name" := sceneName] + dialogue
  }

  /** The dialogue and the scene name a pair of indices designates. */
  function Lookup(scriptData: Option<Value>, s: int, d: int): (r: Outcome<(Value, Value)>)
    ensures scriptData.None? ==> r.Raised?
    ensures r.Returned? ==> scriptData.value.Mapping? && "scenes" in scriptData.value.entries
    ensures (&& scriptData.Some? && scriptData.value.Mapping? && "scenes" in scriptData.value.entries
             && scriptData.value.entries["scenes"].List? && 0 <= s < |scriptData.value.entries["scenes"].items|) ==>
      var scene := scriptData.value.entries["scenes"].items[s];
      (&& scene.Mapping? && "dialogues" in scene.entries && scene.entries["dialogues"].List?
       && 0 <= d < |scene.entries["dialogues"].items| && "scene_name" in scene.entries) ==>
      r == Returned((scene.entries["dialogues"].items[d], scene.entries["scene_name"]))
  {
    if scriptData.None? then Raised
    else
      match Subscript(scriptData.value, "scenes")
      case Raised => Raised
      case Returned(scenes) =>
        match Index(scenes, s)
        case Raised => Raised
        case Returned(scene) =>
          match Subscript(scene, "dialogues")
          case Raised => Raised
          case Returned(ds) =>
            match Index(ds, d)
            case Raised => Raised
            case Returned(dialogue) =>
              match Subscript(scene, "scene_name")
              case Raised => Raised
              case Returned(name) => Returned((dialogue, name))
  }

  /** What a selection makes of `current_dialogue_info`: `None` for an empty
      selection or a non-dialogue id, the merged record for a dialogue id, or
      an exception. */
  function SelectRecord(scriptData: Option<Value>, selection: seq<string>): (r: Outcome<Option<map<string, Value>>>)
    ensures selection == [] || !StartsWith(selection[0], DialoguePrefix) ==> r == Returned(None)
    ensures selection != [] && StartsWith(selection[0], DialoguePrefix) && ParseDialogueId(selection[0]).Raised? ==> r.Raised?
    ensures r.Returned? && r.value.Some? ==>
      && selection != [] && StartsWith(selection[0], DialoguePrefix) && ParseDialogueId(selection[0]).Returned?
      && {"scene_idx", "dialogue_idx", "scene_name"} <= r.value.value.Keys
  {
    if selection == [] || !StartsWith(selection[0], DialoguePrefix) then Returned(None)
    else
      match ParseDialogueId(selection[0])
      case Raised => Raised
      case Returned((s, d)) =>
        match Lookup(scriptData, s, d)
        case Raised => Raised
        case Returned((dialogue, name)) =>
          if dialogue.Mapping? then Returned(Some(MergeRecord(s, d, name, dialogue.entries))) else Raised
  }

  /** Selecting a scene node, whatever else is selected after it, clears the
      selection record. */
  lemma SceneSelectionClears(scriptData: Option<Value>, i: nat, rest: seq<string>)
    ensures SelectRecord(scriptData, [SceneId(i)] + rest) == Returned(None)
  {
    SceneIdIsNotDialogueId(i);
  }

  /** Selecting a dialogue node of the tree built from the current script
      yields the merged record of that dialogue exactly when its scene has a
      `scene_name`; a scene shown as unnamed makes the selection raise. */
  lemma SelectDialogueNode(doc: Value, n: TreeNode, rest: seq<string>)
    requires HasSceneList(doc)
    requires n in TreeOf(ScenesOf(doc)).nodes && n.DialogueNode?
    ensures n.scene < |ScenesOf(doc)| && ScenesOf(doc)[n.scene].Mapping?
    ensures "dialogues" in ScenesOf(doc)[n.scene].entries && ScenesOf(doc)[n.scene].entries["dialogues"].List?
    ensures n.index < |ScenesOf(doc)[n.scene].entries["dialogues"].items|
    ensures ScenesOf(doc)[n.scene].entries["dialogues"].items[n.index].Mapping?
    ensures var scene := ScenesOf(doc)[n.scene].entries;
      var dialogue := scene["dialogues"].items[n.index].entries;
      SelectRecord(Some(doc), [NodeId(n)] + rest)
        == if "scene_name" in scene then Returned(Some(MergeRecord(n.scene, n.index, scene["scene_name"], dialogue)))
           else Raised
  {
    TreeNodesPointIntoScript(ScenesOf(doc), |ScenesOf(doc)|, n);
    DialogueIdRoundTrip(n.scene, n.index);
  }

  /** After a script failed to load, the old tree is still shown but the
      script is gone: selecting one of its dialogue nodes raises. */
  lemma StaleSelectionRaises(s: nat, d: nat, rest: seq<string>)
    ensures SelectRecord(None, [DialogueId(s, d)] + rest) == Raised
  {
    DialogueIdRoundTrip(s, d);
  }
}
