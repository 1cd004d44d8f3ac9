# GPT-SoVITS dubbing tool: a Dafny model of its core

The dubbing tool loads a YAML script (scenes holding dialogue lines, each with
a character, a text and an emotion), shows it as a tree, and for the selected
line asks a GPT-SoVITS server to synthesise the audio and saves it under the
output directory. This project models the logic behind that:

- `sanitize_filename` (module `Utils`), which turns a scene name or a dialogue
  text into one path component;
- the script shape check of `parse_script` (module `ScriptParser`), with the
  YAML document as an abstract `Value`;
- the API client (module `ApiClient`): base-URL normalisation, the three-layer
  payload, the two HTTP steps as abstract replies, the rewrite of the
  server-reported audio URL onto the configured base, and the mapping of every
  failure to `None`;
- the GUI's own logic (modules `GuiPaths`, `GuiTree`, `Gui`): the line number
  and its `04d` rendering, the output path, the tree node ids and their
  read-back, the tree labels, the selection record, and the `App` state with
  `open_script`, `populate_tree`, `on_tree_select`, `get_output_path` and the
  GUI-thread part of `generate_audio` including the voice guard.

Python semantics are written out where the code depends on them: `str.rstrip`,
slicing with negative bounds, `str.split`, `int()`, `posixpath.join`,
`dirname` and `basename`, dictionary merging where the right side wins, truth
values, and `urlparse`/`urljoin` as Python 3.12 implements them (module
`UrlLib`). Exceptions that escape a function are modelled as the outcome
`Raised`.

The code writes each line's audio to
`output_dir/sanitize(scene_name)/NNNN_<character>_<sanitize(text)>.wav`, with
the character inserted as it is. There is no per-script folder level, no batch
sweep over a whole script and no metadata file.

## Model

| member | source | states |
|---|---|---|
| Utils.RemoveForbidden | dubbing_tool/utils.py:27 | the result has none of the nine forbidden characters, is no longer than the input, and equals the input when it had none |
| Utils.RemoveForbiddenCounts | dubbing_tool/utils.py:27 | each forbidden character occurs zero times in the result, every other character exactly as often as in the input |
| Utils.RemoveForbiddenAround | dubbing_tool/utils.py:27 | the kept characters keep their order: around one character the result is the result before it, the character unless forbidden, and the result after it |
| Utils.ReplaceSpaces | dubbing_tool/utils.py:29 | same length; each position holds `_` where the input had an ASCII space and the input character otherwise |
| Utils.Cleaned | dubbing_tool/utils.py:27-29 | after both substitutions there is no forbidden character and no space |
| Utils.SanitizeFilename | dubbing_tool/utils.py:19-31 | no forbidden character, no space, length at most `max_length` (exactly `min(max_length, cleaned length)` for `max_length >= 0`), and a prefix of the cleaned text, so the surviving characters keep their order |
| Utils.RemoveForbiddenConcat | dubbing_tool/utils.py:27 | deleting characters distributes over concatenation |
| Utils.CleanedConcat | dubbing_tool/utils.py:27-29 | cleaning a concatenation is concatenating the cleaned pieces |
| Utils.CleanedFixedPoint | dubbing_tool/utils.py:27-29 | a text with no forbidden character and no space is its own cleaned form |
| Utils.SanitizeIdempotent | dubbing_tool/utils.py:27-31 | sanitising twice equals sanitising once for every `max_length >= 0` |
| Utils.SanitizeKeepsSafeNames | dubbing_tool/utils.py:27-31 | a safe name no longer than `max_length` comes back unchanged |
| Utils.SanitizeOnlyReplacesSpaces | dubbing_tool/utils.py:29-31 | without forbidden characters only spaces change, so tabs and newlines survive, and the length is the truncated one |
| Utils.NegativeMaxLengthNotIdempotent | dubbing_tool/utils.py:31 | with `max_length = -1` the slice counts from the end, and sanitising again shortens the name further |
| Text.PySliceTo | dubbing_tool/utils.py:31 | `s[:n]` is a prefix of `s` of length `min(n, len)` for `n >= 0` and `max(len + n, 0)` for negative `n` |
| Text.RStrip | dubbing_tool/api_client.py:16 | the result is a prefix of the input, does not end with the stripped character, and only that character was removed |
| Text.RStripIgnoresAppended | dubbing_tool/api_client.py:16 | any number of trailing slashes strip to the same base URL |
| Text.Split | dubbing_tool/gui.py:90 | `split` yields at least one part and no part holds the separator |
| Text.JoinThenSplit | dubbing_tool/gui.py:90 | splitting a join of separator-free parts gives the parts back |
| Text.ParseDigitsOf | dubbing_tool/gui.py:91 | `int(str(n)) == n` for every non-negative `n` |
| Text.ParsePyInt | dubbing_tool/gui.py:91 | `int(s)` succeeds exactly on a non-empty digit string or a sign followed by one; the empty string fails; a negative result comes from a leading `-` |
| Text.ParseIntToString | dubbing_tool/gui.py:91 | `int(str(i)) == i` for every integer, negative ones included |
| ScriptParser.ParseScript | dubbing_tool/script_parser.py:4-30 | a result exactly when the load succeeded with a mapping whose `scenes` is a list (empty included), and then it is the document unchanged; every load failure and every other shape gives `None` |
| UrlLib.UrlSplit | dubbing_tool/api_client.py:70 | the path holds no `?` or `#` and no parameters are split off; the query holds no `#`; the network location holds no `/`, `?` or `#` and has balanced brackets; a URL without brackets always splits |
| UrlLib.UrlParse | dubbing_tool/api_client.py:70-71 | `urlparse` fails exactly when `urlsplit` does; scheme, network location, query and fragment are `urlsplit`'s; the path is `urlsplit`'s, or its part before the last segment's `;` with the rest as parameters |
| UrlLib.SplitSchemeOf | dubbing_tool/api_client.py:70 | the text before the first colon, when it is an ASCII letter followed by scheme characters, becomes the lower-cased scheme |
| UrlLib.ParseWithAuthority | dubbing_tool/api_client.py:68-71 | `scheme://host/path` with or without `?query` (the server's `http://0.0.0.0:8000/...`) parses into that scheme, host (with port) as network location, the path, and the query |
| UrlLib.UnbalancedBracketIsError | dubbing_tool/api_client.py:70 | a network location with only one of `[` and `]` makes `urlsplit` and `urlparse` raise `ValueError` |
| UrlLib.UrlJoin | dubbing_tool/api_client.py:73 | an empty base gives the reference, an empty reference the base; otherwise `urljoin` raises exactly when one of the two parses does |
| UrlLib.JoinParsed | dubbing_tool/api_client.py:73 | a reference with another scheme, or a scheme that does not allow relative references, is returned as it is; otherwise the result carries the shared scheme |
| UrlLib.MergePaths | dubbing_tool/api_client.py:73 | the merged path is never empty and, split on `/`, has no `.` or `..` segment left (section 5.2.4 of RFC 3986) |
| UrlLib.PathSegments | dubbing_tool/api_client.py:73 | the segments `urljoin` resolves are never empty and hold no `/`; an absolute reference path gives exactly its own segments |
| UrlLib.ResolvePath | dubbing_tool/api_client.py:73 | after dot-segment removal the joined path is never empty and, split again, holds no `.` or `..` segment |
| UrlLib.ResolveWithoutDots | dubbing_tool/api_client.py:73 | segments without dot segments are joined back unchanged |
| UrlLib.UrlUnsplit | dubbing_tool/api_client.py:73 | the rebuilt URL starts with `scheme:`, then `//` and the network location when there is one, and ends with `#fragment` when there is one |
| UrlLib.JoinAbsolutePath | dubbing_tool/api_client.py:73 | `urljoin` of an absolute path without dot segments onto a base with scheme and host gives base scheme, base authority and the reference path (section 5.2.2 of RFC 3986) |
| UrlLib.JoinNetworkPath | dubbing_tool/api_client.py:73 | a reference starting with `//host` keeps only the base scheme and takes that host |
| UrlLib.MergeAbsolutePath | dubbing_tool/api_client.py:73 | an absolute reference path without dot segments is kept as it is |
| ApiClient.Client.constructor | dubbing_tool/api_client.py:9-17 | the stored base URL is the argument with all trailing `/` removed and does not end in `/`; a missing or empty default map becomes the empty map |
| ApiClient.InferUrl | dubbing_tool/api_client.py:33-34 | the first request goes to the stored base URL followed by `/infer_single` |
| ApiClient.InferUrlIgnoresTrailingSlashes | dubbing_tool/api_client.py:16-34 | the infer URL is the same whatever number of trailing slashes the configured base had |
| ApiClient.MergedPayload | dubbing_tool/api_client.py:19-42 | the payload's keys are the union of the three layers; `text`, `model_name` and `emotion` hold the arguments; a keyword argument holds its value; other keys of the defaults pass through unchanged. Python's binding keeps the three names out of `**kwargs`, which the requires states |
| ApiClient.Client.BuildPayload | dubbing_tool/api_client.py:36-42 | the payload built by copy and two updates is the merged payload, and the defaults are not modified (nothing is in the method's frame) |
| ApiClient.InferStep | dubbing_tool/api_client.py:44-64 | the first step escapes exactly on a transport failure or a successful reply whose JSON is not an object; it yields an audio URL only from a successful JSON object whose `audio_url` is that truthy value |
| ApiClient.DownloadUrl | dubbing_tool/api_client.py:70-73 | a server URL the parser rejects gives no download URL; with an empty base the server path itself is used |
| ApiClient.DownloadStep | dubbing_tool/api_client.py:67-85 | bytes exactly when `audio_url` is a string, the download URL forms and the GET succeeds without an error status, and they are the GET's body |
| ApiClient.Fetch | dubbing_tool/api_client.py:19-85 | the corrected client returns bytes only on a delivering run (`Delivers`), and `None` whenever the first step yields no audio URL |
| ApiClient.FetchAsWritten | dubbing_tool/api_client.py:19-85 | the code as written raises exactly when the first step escapes, and otherwise returns what the corrected client returns |
| ApiClient.FetchSucceedsExactlyWhenDelivered | dubbing_tool/api_client.py:44-85 | bytes are returned exactly when the POST succeeds with a JSON object carrying a non-empty string `audio_url`, the download URL can be formed and the GET succeeds, and they are the GET's body; every other run gives `None` |
| ApiClient.DownloadStepOfString | dubbing_tool/api_client.py:67-85 | the download step returns bytes exactly when the URL can be formed and the GET succeeds with them |
| ApiClient.MissingAudioUrlGivesNone | dubbing_tool/api_client.py:49-52 | a JSON object without a truthy `audio_url` ends with `None` before any download |
| ApiClient.ErrorStatusGivesNone | dubbing_tool/api_client.py:44-61 | a 4xx or 5xx reply to the POST ends with `None` |
| ApiClient.AsWrittenRaisesOnlyOnTwoPaths | dubbing_tool/api_client.py:44-64 | the code as written raises exactly on a POST transport failure and on a JSON body that is not an object; otherwise it returns what the corrected client returns |
| ApiClient.DownloadUrlUsesBaseAuthority | dubbing_tool/api_client.py:70-73 | the download URL has the base URL's scheme and authority and the server URL's path; the server's host, port, query and fragment and the base URL's own path are dropped |
| ApiClient.DownloadUrlOfServerUrl | dubbing_tool/api_client.py:67-73 | for a server URL `scheme://host:port/path` with or without a query, the download URL is the base scheme and authority followed by `/path`: the server's host, port and query are dropped |
| ApiClient.DownloadUrlWithoutPath | dubbing_tool/api_client.py:70-73 | a server URL without a path downloads from the base URL itself |
| ApiClient.DownloadUrlNetworkPath | dubbing_tool/api_client.py:70-73 | a server path starting with two slashes names the host the download goes to |
| ApiClient.Client.GenerateAudio | dubbing_tool/api_client.py:19-85 | the corrected `generate_audio`: the merged payload sent, bytes or `None` as `Fetch` describes |
| ApiClient.Client.GenerateAudioAsWritten | dubbing_tool/api_client.py:19-85 | `generate_audio` as written, including its two escaping exceptions |
| GuiPaths.LineNumber | dubbing_tool/gui.py:148 | for a dialogue index below 1000 the line number divided by 1000 is the scene index and the remainder the dialogue index |
| GuiPaths.LineNumberInjective | dubbing_tool/gui.py:148 | for dialogue indices below 1000 equal line numbers mean equal (scene, dialogue) pairs, and conversely |
| GuiPaths.LineNumberCollision | dubbing_tool/gui.py:148 | line `1000 + d` of scene `s` gets the number of line `d` of scene `s + 1` |
| GuiPaths.ZeroPad | dubbing_tool/gui.py:149 | the padded text is zeros followed by the digits, at least as wide as asked |
| GuiPaths.Format04 | dubbing_tool/gui.py:149 | `f"{n:04d}"` has at least four characters and denotes `n`: digits of value `n`, or a minus sign and digits of value `-n` |
| GuiPaths.Format04FourDigits | dubbing_tool/gui.py:149 | numbers 0 to 9999 are printed with exactly four characters |
| GuiPaths.Format04Injective | dubbing_tool/gui.py:149 | different numbers are printed differently |
| GuiPaths.Format04Charset | dubbing_tool/gui.py:149 | the printed number holds no `_` and no `/` |
| GuiPaths.LineNumberExamples | dubbing_tool/gui.py:148-149 | scene 0 line 5 is `0005`, scene 1 line 5 is `1005` |
| GuiPaths.AudioFilename | dubbing_tool/gui.py:149 | the file name starts with the `04d` number and an underscore and ends in `.wav` |
| GuiPaths.FilenameIdentifiesLine | dubbing_tool/gui.py:149 | equal file names have equal line numbers, whatever the character and preview hold |
| GuiPaths.Basename | dubbing_tool/gui.py:146-150 | `basename` holds no slash |
| GuiPaths.PathJoin | dubbing_tool/gui.py:146-150 | `os.path.join(a, b)` ends with `b`; an absolute `b` replaces `a`; otherwise the result starts with `a` and a slash precedes `b` when `a` is not empty |
| GuiPaths.Dirname | dubbing_tool/gui.py:171 | `os.path.dirname` is a prefix of the path, and empty exactly when the path has no slash |
| GuiPaths.FileInDirectory | dubbing_tool/gui.py:150 | a slash-free name joined onto a directory without a trailing slash is split back by `dirname` and `basename` |
| GuiPaths.SanitizedHasNoSlash | dubbing_tool/gui.py:146-147 | a sanitised component never adds a directory level |
| GuiPaths.Format | dubbing_tool/gui.py:149 | an f-string field shows a string as it is and an integer in decimal; a list or mapping is the modelled exception |
| GuiPaths.IntLike | dubbing_tool/gui.py:148 | `* 1000 + ...` accepts exactly integers and booleans, a boolean as 0 or 1 |
| GuiPaths.OutputPathOf | dubbing_tool/gui.py:145-150 | a path exactly when the record has a string scene name and text, integer-like indices and a character an f-string can show; otherwise `get_output_path` raises |
| GuiPaths.RecordPath | dubbing_tool/gui.py:146-150 | with a slash-free character the last path component is the line's file name |
| GuiPaths.WellFormedRecordPath | dubbing_tool/gui.py:145-150 | a record with string name, text and character and integer indices always has a path |
| GuiPaths.SelectionPath | dubbing_tool/gui.py:142-150 | `None` exactly when no record or an empty record is selected; otherwise the record's path, or an exception exactly when the path computation raises |
| GuiPaths.OutputPathLayout | dubbing_tool/gui.py:145-150 | the file lies in the sanitised scene directory under the output directory, and its name is the `04d` line number, the character and the sanitised text with `.wav` |
| GuiPaths.RecordPathLayout | dubbing_tool/gui.py:146-150 | the same layout stated on the path's components |
| GuiPaths.CharacterSlashSplitsFilename | dubbing_tool/gui.py:149 | the character is not sanitised: a `/` in it makes the last path component differ from the line's file name |
| GuiPaths.DistinctLinesDistinctPaths | dubbing_tool/gui.py:146-150 | two different lines of scenes with fewer than 1000 lines, whose characters have no slash, never share an output path |
| GuiPaths.JoinedNameIsBasename | dubbing_tool/gui.py:150 | a slash-free file name is the last component of the joined path whatever the directory |
| GuiTree.SceneId | dubbing_tool/gui.py:77 | a scene id is `scene_` followed by a number that `int()` reads back as the scene index |
| GuiTree.DialogueId | dubbing_tool/gui.py:80 | a dialogue id starts with `dialogue_` and splits on `_` into exactly the word and the two indices' digits |
| GuiTree.ParseDialogueId | dubbing_tool/gui.py:90-91 | anything other than three parts raises; a result is the `int()` of the second and third parts |
| GuiTree.DialogueIdRoundTrip | dubbing_tool/gui.py:80-91 | the id `dialogue_{s}_{d}` is recognised as a dialogue id and reads back as `(s, d)` |
| GuiTree.SceneIdIsNotDialogueId | dubbing_tool/gui.py:77-84 | `scene_{i}` never passes the dialogue-id test |
| GuiTree.DialogueIdInjective | dubbing_tool/gui.py:80 | different dialogues get different ids |
| GuiTree.SceneIdInjective | dubbing_tool/gui.py:77 | different scenes get different ids |
| GuiTree.LineLabelShows | dubbing_tool/gui.py:79 | the label is the character (`?` when absent), `: `, the first twenty characters of the text (empty when absent) and `...` |
| GuiTree.LineLabel | dubbing_tool/gui.py:79 | the label raises exactly for a dialogue that is not a mapping, a text that is not a string, or a character an f-string cannot show here; otherwise it ends in `...` |
| GuiTree.DialogueItems | dubbing_tool/gui.py:78 | a missing `dialogues` iterates over nothing, a list over its items, and only a list yields items |
| GuiTree.DialoguesUpTo | dubbing_tool/gui.py:78-80 | after `j` dialogues the nodes are one per dialogue in order, each with the scene, its position and its label; the build stops exactly at the first dialogue whose label raises |
| GuiTree.SceneBuild | dubbing_tool/gui.py:77-80 | a scene that is not a mapping or has a null `scene_name` adds nothing and stops; otherwise its node, with a non-null name, comes first and is followed by its dialogue nodes in order |
| GuiTree.TreeUpTo | dubbing_tool/gui.py:76-80 | after `i` scenes every node belongs to one of the first `i` scenes, and no scene node shows a null name |
| GuiTree.TreeOf | dubbing_tool/gui.py:71-80 | every node of the tree belongs to a scene of the script, and no scene node shows a null name |
| GuiTree.NullSceneNameStopsBuild | dubbing_tool/gui.py:77 | a null `scene_name` (Tk rejects the option without a value) stops `populate_tree`: that scene and later ones show no node |
| GuiTree.StoppedTreeStaysStopped | dubbing_tool/gui.py:76-80 | once a scene raises, later scenes add no node |
| GuiTree.StoppedDialoguesStayStopped | dubbing_tool/gui.py:78-80 | once a dialogue raises, later dialogues add no node |
| GuiTree.DialogueNodesPointAtMappings | dubbing_tool/gui.py:78-80 | a dialogue node stands for a mapping at its own index in its scene's list, and shows that mapping's label |
| GuiTree.TreeNodesPointIntoScript | dubbing_tool/gui.py:76-80 | every dialogue node of the tree designates an existing scene mapping with a `dialogues` list and a mapping at the node's index |
| GuiTree.MergeRecord | dubbing_tool/gui.py:96-101 | the record holds `scene_idx`, `dialogue_idx`, `scene_name` and every dialogue key, and a dialogue key of the same name wins |
| GuiTree.Lookup | dubbing_tool/gui.py:93-94 | without a script it raises; for in-range indices into a script of lists and mappings that has `scene_name`, it yields the dialogue and the scene name |
| GuiTree.SelectRecord | dubbing_tool/gui.py:82-101 | an empty selection or an id not starting with `dialogue_` clears the record; a dialogue id that does not parse raises; a record has the three index fields |
| GuiTree.SceneSelectionClears | dubbing_tool/gui.py:84-87 | selecting a scene node clears the selection record |
| GuiTree.SelectDialogueNode | dubbing_tool/gui.py:90-101 | selecting a dialogue node of the current tree gives that dialogue's merged record exactly when its scene has a `scene_name`; a scene shown as unnamed makes it raise |
| GuiTree.StaleSelectionRaises | dubbing_tool/gui.py:63-66 | after a failed load the old tree stays while the script is gone, and selecting one of its dialogues raises |
| Gui.WorkerCallDoesNotBind | dubbing_tool/gui.py:174-178 | the worker's keywords leave `model_name` and `emotion` unbound for `generate_audio`, the intended keywords bind |
| Gui.VoiceOf | dubbing_tool/gui.py:164 | `dict.get` raises exactly for an unhashable list or mapping; an unknown name gives `None`; a truthy voice is the mapping's entry for that string |
| Gui.PlanGeneration | dubbing_tool/gui.py:152-171 | nothing happens exactly without a non-empty record; the guard stops on a falsy voice of the record's character; a ready plan has the truthy voice, the record's output path and a non-empty directory |
| Gui.UnmappedCharacterStops | dubbing_tool/gui.py:164-168 | a character without a truthy voice stops generation whatever the rest of the record holds |
| Gui.ReadyPlanUsesOutputPath | dubbing_tool/gui.py:164-171 | generation only proceeds with a truthy voice, the path `get_output_path` reports and a named directory |
| Gui.MappedCharacterGetsReady | dubbing_tool/gui.py:159-171 | a well-formed record of a mapped character proceeds, and the directory created lies directly under the output directory |
| Gui.PlanWithKnownPath | dubbing_tool/gui.py:159-171 | with a truthy voice and a path in a named directory the GUI thread reaches the worker with them |
| Gui.App.constructor | dubbing_tool/gui.py:12-53 | no script, no selection, an empty tree, nothing written |
| Gui.App.OpenScript | dubbing_tool/gui.py:55-69 | a cancelled dialog changes nothing; otherwise the script becomes the parse result, a rejected script keeps the old tree, an accepted one gets its tree rebuilt and the call raises exactly when the build stopped |
| Gui.App.PopulateTree | dubbing_tool/gui.py:71-80 | the tree becomes exactly the nodes of the script, in order, up to the first exception (a non-mapping scene, a null `scene_name`, a failing label), and the build completes exactly when no exception occurs |
| Gui.App.AddScene | dubbing_tool/gui.py:77-80 | one scene appends its node and its dialogue nodes; a non-mapping scene or a null `scene_name` appends nothing and stops |
| Gui.App.AddDialogues | dubbing_tool/gui.py:78-80 | the inner loop appends one node per dialogue up to the first failing label |
| Gui.App.OnTreeSelect | dubbing_tool/gui.py:82-103 | the selection record becomes what the selection designates; an exception leaves the previous record |
| Gui.App.GetOutputPath | dubbing_tool/gui.py:142-150 | `None` exactly without a non-empty record; otherwise the record's path |
| Gui.App.StartGeneration | dubbing_tool/gui.py:152-171 | the button is disabled first; the voice guard enables it again and creates nothing; an exception leaves it disabled; otherwise exactly the path's directory is created |
| Gui.App.GenerateAudio | dubbing_tool/gui.py:152-189 | as written: after the directory is created the worker dies at the call, the button stays disabled and no file is written |
| Gui.App.GenerateAudioCorrected | dubbing_tool/gui.py:173-187 | with the intended call the client's non-empty bytes are written to the output path, nothing is written otherwise, and the button is enabled again |
| Gui.App.SaveAudio | dubbing_tool/gui.py:179-187 | non-empty audio is written to the path, anything else writes nothing, and the button is enabled again |

## Left out

- Widget construction, layout, status-bar messages, dialogs, `display_dialogue_details`, `clear_main_frame`, `update_play_button_state` and `play_audio` (dubbing_tool/gui.py:11-53, 105-140, 191-218): user-interface toolkit code and an audio device.
- Threads: the worker of `generate_audio` is run to its end right after the GUI thread's part, so interleavings with other callbacks are not modelled.
- The HTTP transport, its timeouts and the `print` logging: each request is an abstract reply (`Network`), a transport failure or a response with status, decoded JSON and body.
- `yaml.safe_load`, opening the script file and `load_config`: foreign parser calls and I/O, given to the model as their result (`Load`, `Value`).
- dubbing_tool/main.py and build_exe.py: startup plumbing and packaging.
- The file system: `os.makedirs` is recorded as the list of directories it was called on and written audio as a map from path to bytes. Failures other than `makedirs("")`, and existence checks, are not modelled.
- GuiPaths.PathJoin: the POSIX `os.path.join`; the Windows rules of `ntpath` are not modelled.
- UrlLib.UrlSplit: the stripping of leading C0 control characters and spaces, the removal of tab and newline characters, the NFKC check of non-ASCII network locations (a `ValueError` for some of them) and the validation of the address inside brackets are not modelled; only bracket balance is.
- Text.ParsePyInt: `int()` also accepts surrounding whitespace and non-ASCII digits; these are not modelled (node ids never contain them).
- GuiPaths.Format: a list or mapping is shown by Python's `repr`, which is not spelled out; a label, path or file name that would contain one is modelled as `Raised`.
- GuiTree.LineLabel: a list as dialogue text is sliced and shown by `repr` in Python; the model gives `Raised`, as for `GuiPaths.Format`.
- The character mapping is a `map`: a configuration whose `characters` key holds YAML null gives `None` in Python, and the first `.get` on it raises; that case is not modelled.
- Values: floats, dates, byte strings, mapping key order and non-string mapping keys of YAML and JSON documents are not modelled.
- Gui.App.GenerateAudio: the text box content and the emotion entry are parameters; the generate button is a boolean that exists from the start.
- Gui.App.OnTreeSelect: the selection is any sequence of strings, not only ids of existing nodes.

## Findings

| source | as written | input that shows it | evidently intended | confidence | as-written member | corrected member |
|---|---|---|---|---|---|---|
| dubbing_tool/api_client.py:54-61 | after a transport failure of the POST the handler reads `infer_response`, which was never bound, so `UnboundLocalError` escapes `generate_audio` | the server is down: the POST raises a connection error | return `None`, as for every other failure | not executed; high | ApiClient.AsWrittenRaisesOnlyOnTwoPaths | ApiClient.FetchSucceedsExactlyWhenDelivered |
| dubbing_tool/api_client.py:47-49 | a JSON body that is not an object makes `.get` raise `AttributeError`, which no handler catches | a 200 reply whose body is `null` or `[]` | return `None` | not executed; high | ApiClient.AsWrittenRaisesOnlyOnTwoPaths | ApiClient.FetchSucceedsExactlyWhenDelivered |
| dubbing_tool/gui.py:174-178 | the worker calls `generate_audio(text=..., voice=..., other_params=...)`, which leaves `model_name` and `emotion` unbound: `TypeError` in the worker, the button stays disabled, no audio is saved | any selected line whose character has a voice | `generate_audio(text=text, model_name=voice, emotion=emotion)` | not executed; high | Gui.App.GenerateAudio | Gui.App.GenerateAudioCorrected |
