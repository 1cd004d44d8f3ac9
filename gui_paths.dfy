/** Where the GUI puts a dialogue line's audio: the line number, the file
    name and the output path computed from the selected dialogue record. */
module GuiPaths {
  import opened PyValues
  import opened Text
  import opened Utils

  /** The line number of a dialogue: a thousand numbers per scene. */
  function LineNumber(sceneIdx: int, dialogueIdx: int): (n: int)
    ensures 0 <= dialogueIdx < 1000 ==> n / 1000 == sceneIdx && n % 1000 == dialogueIdx
  {
    sceneIdx * 1000 + dialogueIdx
  }

  /** Within a scene of fewer than 1000 lines the line number identifies the
      scene and the line. */
  lemma LineNumberInjective(s1: int, d1: int, s2: int, d2: int)
    requires 0 <= d1 < 1000 && 0 <= d2 < 1000
    ensures LineNumber(s1, d1) == LineNumber(s2, d2) <==> s1 == s2 && d1 == d2
  {
    if LineNumber(s1, d1) == LineNumber(s2, d2) {
      assert (s1 - s2) * 1000 == d2 - d1;
    }
  }

  /** The limit of the numbering: line 1000 + d of a scene gets the number of
      line d of the next scene. */
  lemma LineNumberCollision(s: int, d: int)
    ensures LineNumber(s, 1000 + d) == LineNumber(s + 1, d)
    ensures (s, 1000 + d) != (s + 1, d)
  {
  }

  /** `s` with zeros in front up to `width` characters. */
  function ZeroPad(s: string, width: nat): (r: string)
    ensures |r| == if |s| < width then width else |s|
    ensures r == Repeat('0', |r| - |s|) + s
  {
    if |s| < width then Repeat('0', width - |s|) + s else s
  }

  /** `f"{n:04d}"`: at least four characters, zeros inserted after the sign.
      The text denotes `n`: its decimal digits, behind a minus sign when `n`
      is negative. */
  function Format04(n: int): (r: string)
    ensures |r| >= 4
    ensures n >= 0 ==> AllDigits(r) && DigitsValue(r) == n
    ensures n < 0 ==> r[0] == '-' && AllDigits(r[1..]) && DigitsValue(r[1..]) == -n
  {
    var m := if n >= 0 then n else -n;
    var p := ZeroPad(DigitsOf(m), if n >= 0 then 4 else 3);
    DigitsRoundTrip(m);
    LeadingZerosValue(|p| - |DigitsOf(m)|, DigitsOf(m));
    if n >= 0 then p
    else
      assert ("-" + p)[1..] == p;
      "-" + p
  }

  /** Ten to the power `k`. */
  function Pow10(k: nat): (p: nat)
    ensures p >= 1
  {
    if k == 0 then 1 else 10 * Pow10(k - 1)
  }

  lemma {:induction false} DigitsLengthBound(n: nat, k: nat)
    requires n < Pow10(k)
    ensures |DigitsOf(n)| <= if k == 0 then 1 else k
    decreases n
  {
    if n >= 10 {
      assert k >= 2;
      assert n / 10 < Pow10(k - 1);
      DigitsLengthBound(n / 10, k - 1);
    }
  }

  /** Line numbers from 0 to 9999 are printed with exactly four digits. */
  lemma Format04FourDigits(n: int)
    requires 0 <= n < 10000
    ensures |Format04(n)| == 4
  {
    assert Pow10(4) == 10000;
    DigitsLengthBound(n, 4);
  }

  /** Different numbers are printed differently. */
  lemma Format04Injective(a: int, b: int)
    requires Format04(a) == Format04(b)
    ensures a == b
  {
    if (a >= 0) != (b >= 0) {
      assert Format04(a)[0] == Format04(b)[0];
    }
  }

  lemma Format04Charset(n: int)
    ensures '_' !in Format04(n) && '/' !in Format04(n)
  {
    var r := Format04(n);
    if n >= 0 {
      DigitsAreNotSeparators(r);
    } else {
      DigitsAreNotSeparators(r[1..]);
      assert r == "-" + r[1..];
    }
  }

  lemma DigitsAreNotSeparators(s: string)
    requires AllDigits(s)
    ensures '_' !in s && '/' !in s
  {
    assert forall i :: 0 <= i < |s| ==> s[i] != '_' && s[i] != '/';
  }

  /** The examples of the numbering: the sixth line of the first scene is
      `0005`, of the second scene `1005`. */
  lemma LineNumberExamples()
    ensures Format04(LineNumber(0, 5)) == "0005"
    ensures Format04(LineNumber(1, 5)) == "1005"
  {
    assert DigitsOf(5) == "5";
    assert DigitsOf(1) == "1";
    assert DigitsOf(10) == "10";
    assert DigitsOf(100) == "100";
    assert DigitsOf(1005) == DigitsOf(100) + "5";
  }

  /** The file name of a line: number, character, text preview. */
  function AudioFilename(lineNum: int, character: string, preview: string): (name: string)
    ensures StartsWith(name, Format04(lineNum)) && |name| > |Format04(lineNum)| && name[|Format04(lineNum)|] == '_'
    ensures |name| >= 4 && name[|name| - 4..] == ".wav"
  {
    Format04(lineNum) + "_" + character + "_" + preview + ".wav"
  }

  /** The number in front of the first underscore identifies the line, whatever
      the character and the preview contain. */
  lemma FilenameIdentifiesLine(n1: int, c1: string, p1: string, n2: int, c2: string, p2: string)
    requires AudioFilename(n1, c1, p1) == AudioFilename(n2, c2, p2)
    ensures n1 == n2
  {
    Format04Charset(n1);
    Format04Charset(n2);
    FilenameTail(Format04(n1), c1, p1);
    FilenameTail(Format04(n2), c2, p2);
    SameTextBeforeSeparator(Format04(n1), "_" + c1 + "_" + p1 + ".wav", Format04(n2), "_" + c2 + "_" + p2 + ".wav", '_');
    Format04Injective(n1, n2);
  }

  lemma FilenameTail(a: string, c: string, p: string)
    ensures a + "_" + c + "_" + p + ".wav" == a + ("_" + c + "_" + p + ".wav")
  {
  }

  /** Two texts that agree up to and including a separator absent from their
      heads have the same head. */
  lemma SameTextBeforeSeparator(a: string, x: string, b: string, y: string, sep: char)
    requires sep !in a && sep !in b
    requires x != [] && x[0] == sep && y != [] && y[0] == sep
    requires a + x == b + y
    ensures a == b
  {
    var f := a + x;
    assert f[|a|] == sep;
    assert f[|b|] == sep;
    assert a == f[..|a|];
    assert b == f[..|b|];
  }

  /** `posixpath.join(a, b)`. */
  function PathJoin(a: string, b: string): (r: string)
    ensures |b| <= |r| && r[|r| - |b|..] == b
    ensures b != [] && b[0] == '/' ==> r == b
    ensures (b == [] || b[0] != '/') ==> StartsWith(r, a)
    ensures (b == [] || b[0] != '/') && a != [] ==> |r| > |b| && r[|r| - |b| - 1] == '/'
  {
    if |b| > 0 && b[0] == '/' then b
    else if a == [] || a[|a| - 1] == '/' then a + b
    else a + "/" + b
  }

  /** `posixpath.basename(p)`: what follows the last slash. */
  function Basename(p: string): (r: string)
    ensures '/' !in r
  {
    p[RFind(p, '/') + 1..]
  }

  /** `posixpath.dirname(p)`: what precedes the last slash, trailing slashes
      removed unless it is made of slashes only. */
  function Dirname(p: string): (r: string)
    ensures StartsWith(p, r)
    ensures r == [] <==> '/' !in p
  {
    var head := p[..RFind(p, '/') + 1];
    if head != [] && head != Repeat('/', |head|) then RStrip(head, '/') else head
  }

  /** A name without slashes joined onto a directory without a trailing slash
      is split back by `dirname` and `basename`. */
  lemma FileInDirectory(dir: string, name: string)
    requires dir != [] && dir[|dir| - 1] != '/' && '/' !in name
    ensures PathJoin(dir, name) == dir + "/" + name
    ensures Dirname(PathJoin(dir, name)) == dir
    ensures Basename(PathJoin(dir, name)) == name
  {
    var p := dir + "/" + name;
    assert p[|dir|] == '/';
    var i := RFind(p, '/');
    assert i == |dir|;
    var head := p[..i + 1];
    assert head == dir + "/";
    assert head[|dir| - 1] != '/';
    var r := RStrip(head, '/');
    assert r == dir;
    assert p[i + 1..] == name;
  }

  /** `str(v)` as an f-string shows a scalar. A list or a mapping is shown by
      its `repr`, which this model does not spell out: it yields `Raised`. */
  function Format(v: Value): (r: Outcome<string>)
    ensures r.Raised? <==> v.List? || v.Mapping?
    ensures v.Str? ==> r == Returned(v.s)
    ensures v.Int? ==> r == Returned(IntToString(v.i))
  {
    match v
    case Null => Returned("None")
    case Bool(b) => Returned(if b then "True" else "False")
    case Int(i) => Returned(IntToString(i))
    case Str(s) => Returned(s)
    case _ => Raised
  }

  /** A value that takes part in `* 1000 + ...` as an integer: an int, or a
      bool as 0 or 1. Anything else makes the arithmetic or the `04d`
      formatting raise. */
  function IntLike(v: Value): (r: Option<int>)
    ensures r.Some? <==> v.Int? || v.Bool?
    ensures v.Int? ==> r == Some(v.i)
    ensures v.Bool? ==> r == Some(if v.b then 1 else 0)
  {
    match v
    case Int(i) => Some(i)
    case Bool(b) => Some(if b then 1 else 0)
    case _ => None
  }

  /** A selection record whose fields have the types the path needs. */
  predicate WellFormedRecord(info: map<string, Value>)
  {
    && "scene_name" in info && info["scene_name"].Str?
    && "text" in info && info["text"].Str?
    && "scene_idx" in info && info["scene_idx"].Int?
    && "dialogue_idx" in info && info["dialogue_idx"].Int?
    && "character" in info && info["character"].Str?
  }

  /** The output path of a non-empty selection record; `Raised` for a missing
      key, a non-string name or text, a non-integer index or a list or mapping
      character. */
  function OutputPathOf(outputDir: string, info: map<string, Value>): (r: Outcome<string>)
    ensures r.Returned? <==>
      && "scene_name" in info && info["scene_name"].Str? && "text" in info && info["text"].Str?
      && "scene_idx" in info && IntLike(info["scene_idx"]).Some?
      && "dialogue_idx" in info && IntLike(info["dialogue_idx"]).Some?
      && "character" in info && Format(info["character"]).Returned?
  {
    if "scene_name" !in info || !info["scene_name"].Str? || "text" !in info || !info["text"].Str?
       || "scene_idx" !in info || "dialogue_idx" !in info || "character" !in info
    then Raised
    else
      match (IntLike(info["scene_idx"]), IntLike(info["dialogue_idx"]), Format(info["character"]))
      case (Some(s), Some(d), Returned(c)) => Returned(RecordPath(outputDir, info["scene_name"].s, info["text"].s, s, d, c))
      case _ => Raised
  }

  /** The path of a line: the sanitised scene name as a directory under the
      output directory, the file name inside it. */
  function RecordPath(outputDir: string, sceneName: string, text: string, s: int, d: int, character: string): (p: string)
    ensures '/' !in character ==>
      Basename(p) == AudioFilename(LineNumber(s, d), character, SanitizeFilename(text, DefaultMaxLength))
  {
    var sceneDir := PathJoin(outputDir, SanitizeFilename(sceneName, DefaultMaxLength));
    var name := AudioFilename(LineNumber(s, d), character, SanitizeFilename(text, DefaultMaxLength));
    if '/' in character then PathJoin(sceneDir, name)
    else
      SanitizedHasNoSlash(text);
      AudioFilenameShape(LineNumber(s, d), character, SanitizeFilename(text, DefaultMaxLength));
      JoinedNameIsBasename(sceneDir, name);
      PathJoin(sceneDir, name)
  }

  lemma SanitizedHasNoSlash(text: string)
    ensures '/' !in SanitizeFilename(text, DefaultMaxLength)
  {
    var r := SanitizeFilename(text, DefaultMaxLength);
    assert forall i :: 0 <= i < |r| ==> r[i] != '/';
  }

  /** A well-formed record always has a path. */
  lemma WellFormedRecordPath(outputDir: string, info: map<string, Value>)
    requires WellFormedRecord(info)
    ensures OutputPathOf(outputDir, info)
      == Returned(RecordPath(outputDir, info["scene_name"].s, info["text"].s,
                             info["scene_idx"].i, info["dialogue_idx"].i, info["character"].s))
  {
  }

  /** `get_output_path`: `None` when no record is selected or the record is
      empty, otherwise the record's output path. */
  function SelectionPath(outputDir: string, info: Option<map<string, Value>>): (r: Outcome<Option<string>>)
    ensures r == Returned(None) <==> info.None? || info.value == map[]
    ensures info.Some? && info.value != map[] ==>
      (r.Raised? <==> OutputPathOf(outputDir, info.value).Raised?)
    ensures forall p :: r == Returned(Some(p)) <==>
      info.Some? && info.value != map[] && OutputPathOf(outputDir, info.value) == Returned(p)
  {
    if info.None? || info.value == map[] then Returned(None)
    else
      match OutputPathOf(outputDir, info.value)
      case Raised => Raised
      case Returned(p) => Returned(Some(p))
  }

  /** The layout of a well-formed record's path: the file sits in the scene
      directory, the scene directory under the output directory, and the file
      name is the number, the character and the text preview. */
  lemma OutputPathLayout(outputDir: string, info: map<string, Value>)
    requires WellFormedRecord(info)
    requires outputDir != [] && outputDir[|outputDir| - 1] != '/'
    requires SanitizeFilename(info["scene_name"].s, DefaultMaxLength) != []
    requires '/' !in info["character"].s
    ensures OutputPathOf(outputDir, info).Returned?
    ensures var p := OutputPathOf(outputDir, info).value;
      && Dirname(Dirname(p)) == outputDir
      && Basename(Dirname(p)) == SanitizeFilename(info["scene_name"].s, DefaultMaxLength)
      && Basename(p) == AudioFilename(LineNumber(info["scene_idx"].i, info["dialogue_idx"].i),
                                      info["character"].s,
                                      SanitizeFilename(info["text"].s, DefaultMaxLength))
  {
    WellFormedRecordPath(outputDir, info);
    RecordPathLayout(outputDir, info["scene_name"].s, info["text"].s,
                     info["scene_idx"].i, info["dialogue_idx"].i, info["character"].s);
  }

  lemma RecordPathLayout(outputDir: string, sceneName: string, text: string, s: int, d: int, character: string)
    requires outputDir != [] && outputDir[|outputDir| - 1] != '/'
    requires SanitizeFilename(sceneName, DefaultMaxLength) != []
    requires '/' !in character
    ensures var p := RecordPath(outputDir, sceneName, text, s, d, character);
      && Dirname(Dirname(p)) == outputDir
      && Basename(Dirname(p)) == SanitizeFilename(sceneName, DefaultMaxLength)
      && Basename(p) == AudioFilename(LineNumber(s, d), character, SanitizeFilename(text, DefaultMaxLength))
  {
    var dirName := SanitizeFilename(sceneName, DefaultMaxLength);
    var preview := SanitizeFilename(text, DefaultMaxLength);
    var name := AudioFilename(LineNumber(s, d), character, preview);
    SanitizedHasNoSlash(sceneName);
    SanitizedHasNoSlash(text);
    AudioFilenameShape(LineNumber(s, d), character, preview);
    FileInDirectory(outputDir, dirName);
    var sceneDir := PathJoin(outputDir, dirName);
    assert sceneDir[|sceneDir| - 1] == dirName[|dirName| - 1];
    FileInDirectory(sceneDir, name);
  }

  /** The character is not sanitised: a slash in it adds a directory level, and
      the last path component is no longer the line's file name. */
  lemma CharacterSlashSplitsFilename(outputDir: string, info: map<string, Value>)
    requires WellFormedRecord(info)
    requires '/' in info["character"].s
    ensures OutputPathOf(outputDir, info).Returned?
    ensures Basename(OutputPathOf(outputDir, info).value)
      != AudioFilename(LineNumber(info["scene_idx"].i, info["dialogue_idx"].i),
                       info["character"].s,
                       SanitizeFilename(info["text"].s, DefaultMaxLength))
  {
    var name := AudioFilename(LineNumber(info["scene_idx"].i, info["dialogue_idx"].i),
                              info["character"].s,
                              SanitizeFilename(info["text"].s, DefaultMaxLength));
    assert '/' in name;
  }

  /** Two lines of scenes with fewer than 1000 lines each never share an output
      path when their characters contain no slash. */
  lemma DistinctLinesDistinctPaths(outputDir: string, info1: map<string, Value>, info2: map<string, Value>)
    requires WellFormedRecord(info1) && WellFormedRecord(info2)
    requires 0 <= info1["dialogue_idx"].i < 1000 && 0 <= info2["dialogue_idx"].i < 1000
    requires (info1["scene_idx"].i, info1["dialogue_idx"].i) != (info2["scene_idx"].i, info2["dialogue_idx"].i)
    requires '/' !in info1["character"].s && '/' !in info2["character"].s
    ensures OutputPathOf(outputDir, info1) != OutputPathOf(outputDir, info2)
  {
    WellFormedRecordPath(outputDir, info1);
    WellFormedRecordPath(outputDir, info2);
    var n1 := LineNumber(info1["scene_idx"].i, info1["dialogue_idx"].i);
    var n2 := LineNumber(info2["scene_idx"].i, info2["dialogue_idx"].i);
    LineNumberInjective(info1["scene_idx"].i, info1["dialogue_idx"].i, info2["scene_idx"].i, info2["dialogue_idx"].i);
    var f1 := AudioFilename(n1, info1["character"].s, SanitizeFilename(info1["text"].s, DefaultMaxLength));
    var f2 := AudioFilename(n2, info2["character"].s, SanitizeFilename(info2["text"].s, DefaultMaxLength));
    AudioFilenameShape(n1, info1["character"].s, SanitizeFilename(info1["text"].s, DefaultMaxLength));
    AudioFilenameShape(n2, info2["character"].s, SanitizeFilename(info2["text"].s, DefaultMaxLength));
    JoinedNameIsBasename(PathJoin(outputDir, SanitizeFilename(info1["scene_name"].s, DefaultMaxLength)), f1);
    JoinedNameIsBasename(PathJoin(outputDir, SanitizeFilename(info2["scene_name"].s, DefaultMaxLength)), f2);
    if f1 == f2 {
      FilenameIdentifiesLine(n1, info1["character"].s, SanitizeFilename(info1["text"].s, DefaultMaxLength),
                             n2, info2["character"].s, SanitizeFilename(info2["text"].s, DefaultMaxLength));
    }
  }

  lemma AudioFilenameShape(n: int, character: string, preview: string)
    requires '/' !in character && '/' !in preview
    ensures AudioFilename(n, character, preview) != []
    ensures '/' !in AudioFilename(n, character, preview)
  {
    Format04Charset(n);
  }

  /** A non-empty file name without slashes is the last component of the
      joined path, whatever the directory. */
  lemma JoinedNameIsBasename(dir: string, name: string)
    requires '/' !in name && name != []
    ensures Basename(PathJoin(dir, name)) == name
  {
    var p := PathJoin(dir, name);
    var k := |p| - |name|;
    assert p[k..] == name;
    assert k == 0 || p[k - 1] == '/';
    var i := RFind(p, '/');
  }
}
