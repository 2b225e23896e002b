/** `parseVianeoFileList`: how the files of an exported folder become
    projects. The readers of HTML and JSON files are parameters of the
    model (their DOM and JSON work is not modelled); everything the pass
    itself does with their results, and with text and image files, is. */
module VianeoFileList {
  import opened Common
  import opened Text
  import opened VianeoParser

  /** A file of the export folder: its folder-relative path ('' when the
      browser gives none), its name, and its text. */
  datatype SourceFile = SourceFile(relativePath: string, name: string, content: string)

  /** `getPath`: the folder-relative path, or the name when there is none. */
  function PathOf(f: SourceFile): string
  {
    if f.relativePath != [] then f.relativePath else f.name
  }

  // ---------------------------------------------------------------- sorting the files

  predicate EndsWith(s: string, suffix: string)
  {
    |suffix| <= |s| && s[|s| - |suffix|..] == suffix
  }

  predicate EndsWithAny(s: string, suffixes: seq<string>)
  {
    exists k :: 0 <= k < |suffixes| && EndsWith(s, suffixes[k])
  }

  datatype FileKind = HtmlFile | JsonFile | TextFile | ImageFile

  /** `/saved_resource/i`. */
  const HtmlMarker: string := "saved_resource"

  /** `/\.(html?|htm)$/i`. */
  const HtmlSuffixes: seq<string> := [".html", ".htm"]

  /** `/\.json$/i`. */
  const JsonSuffixes: seq<string> := [".json"]

  /** `/global[-_]?data/i`. */
  const JsonMarkers: seq<string> := ["globaldata", "global-data", "global_data"]

  /** `/\.(txt|csv|md)$/i`. */
  const TextSuffixes: seq<string> := [".txt", ".csv", ".md"]

  /** `/\.(png|jpe?g|webp|svg)$/i`. */
  const ImageSuffixes: seq<string> := [".png", ".jpg", ".jpeg", ".webp", ".svg"]

  /** The four filters, on the lower-cased path. */
  predicate OfKind(f: SourceFile, kind: FileKind)
  {
    var path := ToLower(PathOf(f));
    match kind
    case HtmlFile => Contains(path, HtmlMarker) || EndsWithAny(path, HtmlSuffixes)
    case JsonFile => EndsWithAny(path, JsonSuffixes) || ContainsAny(path, JsonMarkers)
    case TextFile => EndsWithAny(path, TextSuffixes)
    case ImageFile => EndsWithAny(path, ImageSuffixes)
  }

  /** `arr.filter(...)` for one kind: the files of that kind, in order. */
  function Select(files: seq<SourceFile>, kind: FileKind): (r: seq<SourceFile>)
    ensures |r| <= |files|
    ensures forall k :: 0 <= k < |r| ==> r[k] in files && OfKind(r[k], kind)
    ensures forall f :: f in files && OfKind(f, kind) ==> f in r
  {
    if files == [] then []
    else (if OfKind(files[0], kind) then [files[0]] else []) + Select(files[1..], kind)
  }

  /** A `saved_resource.json`, in any letter case, passes both the HTML and
      the JSON filter, so both readers see it. */
  lemma SavedResourceJsonIsBoth(f: SourceFile)
    requires ToLower(PathOf(f)) == "saved_resource.json"
    ensures OfKind(f, HtmlFile) && OfKind(f, JsonFile)
  {
    var path := ToLower(PathOf(f));
    assert MatchesAt(path, HtmlMarker, 0);
    assert EndsWith(path, JsonSuffixes[0]);
  }

  // ---------------------------------------------------------------- small record updates

  /** The text after the last '.' of `s`, or all of `s` when it has none. */
  function LastSegment(s: string): string
  {
    if s == [] || s[|s| - 1] == '.' then [] else LastSegment(s[..|s| - 1]) + [s[|s| - 1]]
  }

  /** The last segment is the longest suffix without a '.': it ends `s`, holds
      no '.', and a '.' comes right before it unless it is all of `s`. */
  lemma {:induction false} LastSegmentSpec(s: string)
    ensures var r := LastSegment(s);
      && |r| <= |s| && r == s[|s| - |r|..]
      && '.' !in r
      && (|r| < |s| ==> s[|s| - |r| - 1] == '.')
  {
    if s != [] && s[|s| - 1] != '.' {
      var front := s[..|s| - 1];
      LastSegmentSpec(front);
      var r := LastSegment(s);
      assert r == LastSegment(front) + [s[|s| - 1]];
      assert s == front + [s[|s| - 1]];
    }
  }

  const DefaultExt: string := "txt"

  /** `name.split('.').pop() || 'txt'`. */
  function Ext(name: string): string
  {
    var e := LastSegment(name);
    if e == [] then DefaultExt else e
  }

  /** The extension is never blank and holds no '.': it is the text after the
      name's last '.', the whole name when it has no '.', and `txt` when the
      name is blank or ends in '.'. */
  lemma ExtSpec(name: string)
    ensures Ext(name) != [] && '.' !in Ext(name)
    ensures name == [] || name[|name| - 1] == '.' ==> Ext(name) == DefaultExt
    ensures name != [] && name[|name| - 1] != '.' ==> Ext(name) == LastSegment(name)
    ensures '.' !in name && name != [] ==> Ext(name) == name
  {
    LastSegmentSpec(name);
  }

  /** `.slice(0, 5000)`. */
  const TextCap: nat := 5000

  /** The first 5000 characters, or the whole text when it is shorter. */
  function Cap(text: string): (r: string)
    ensures |r| <= TextCap && r <= text
    ensures |text| <= TextCap ==> r == text
    ensures |text| > TextCap ==> |r| == TextCap
  {
    if |text| <= TextCap then text else text[..TextCap]
  }

  /** `rawFields[key]`. */
  function Lookup(fields: seq<Field>, key: string): Option<string>
  {
    if fields == [] then None
    else if fields[0].key == key then Some(fields[0].value)
    else Lookup(fields[1..], key)
  }

  /** `rawFields[key] = value`: an existing key keeps its place and takes the
      value, a new key goes last; no other key changes. */
  function SetField(fields: seq<Field>, key: string, value: string): (r: seq<Field>)
    ensures Lookup(r, key) == Some(value)
    ensures forall other :: other != key ==> Lookup(r, other) == Lookup(fields, other)
    ensures Lookup(fields, key).Some? ==> |r| == |fields|
    ensures Lookup(fields, key).None? ==> r == fields + [Field(key, value)]
  {
    if fields == [] then [Field(key, value)]
    else if fields[0].key == key then [Field(key, value)] + fields[1..]
    else [fields[0]] + SetField(fields[1..], key, value)
  }

  /** `fileTypes[key] || 0`. */
  function Count(m: map<string, nat>, key: string): nat
  {
    if key in m then m[key] else 0
  }

  /** `fileTypes[key] = (fileTypes[key] || 0) + 1`. */
  function Bump(m: map<string, nat>, key: string): map<string, nat>
  {
    m[key := Count(m, key) + 1]
  }

  /** Bumping counts one more under `key` and leaves every other key as it was. */
  lemma BumpSpec(m: map<string, nat>, key: string)
    ensures Count(Bump(m, key), key) == Count(m, key) + 1
    ensures forall other :: other != key ==> Count(Bump(m, key), other) == Count(m, other)
  {
  }

  /** `if (!s.includes(x)) s.push(x)`. */
  function AddUnique(s: seq<string>, x: string): (r: seq<string>)
    ensures x in r && s <= r
    ensures forall y :: y in r <==> y in s || y == x
    ensures x in s ==> r == s
  {
    if x in s then s else s + [x]
  }

  predicate Distinct(s: seq<string>)
  {
    forall i, j :: 0 <= i < j < |s| ==> s[i] != s[j]
  }

  /** `Array.from(new Set(s))`: each element once, at its first occurrence. */
  function Dedup(s: seq<string>): seq<string>
  {
    if s == [] then [] else AddUnique(Dedup(s[..|s| - 1]), s[|s| - 1])
  }

  /** The result has no repeats and the same elements, and a list without
      repeats is returned unchanged. */
  lemma {:induction false} DedupSpec(s: seq<string>)
    ensures Distinct(Dedup(s))
    ensures forall y :: y in Dedup(s) <==> y in s
    ensures Distinct(s) ==> Dedup(s) == s
  {
    if s != [] {
      var front := s[..|s| - 1];
      var x := s[|s| - 1];
      assert s == front + [x];
      DedupSpec(front);
      AddUniqueDistinct(Dedup(front), x);
      forall y
        ensures y in s <==> y in front || y == x
      {
      }
      if Distinct(s) {
        assert Distinct(front) by {
          forall i, j | 0 <= i < j < |front|
            ensures front[i] != front[j]
          {
            assert s[i] == front[i] && s[j] == front[j];
          }
        }
        forall i | 0 <= i < |front|
          ensures front[i] != x
        {
          assert s[i] == front[i];
        }
      }
    }
  }

  /** Adding an element missing from a list without repeats keeps it without repeats. */
  lemma AddUniqueDistinct(s: seq<string>, x: string)
    requires Distinct(s)
    ensures Distinct(AddUnique(s, x))
  {
    if x !in s {
      var r := s + [x];
      forall i, j | 0 <= i < j < |r|
        ensures r[i] != r[j]
      {
        if j == |s| {
          assert r[i] == s[i];
        } else {
          assert r[i] == s[i] && r[j] == s[j];
        }
      }
    }
  }

  // ---------------------------------------------------------------- HTML and JSON results

  const HtmlKey: string := "html"

  /** A matrix without a source takes the file's path. */
  function WithSource(m: Option<NeedsMatrix>, path: string): Option<NeedsMatrix>
  {
    match m
    case Some(x) => if x.source.None? || x.source == Some([]) then Some(x.(source := Some(path))) else m
    case None => None
  }

  /** The annotation of a project read from an HTML file. */
  function AnnotateHtml(p: VianeoProject, f: SourceFile): VianeoProject
  {
    p.(sourceFiles := AddUnique(p.sourceFiles, f.name),
       fileTypes := Bump(p.fileTypes, HtmlKey),
       needsMatrix := WithSource(p.needsMatrix, PathOf(f)))
  }

  function AnnotateAll(ps: seq<VianeoProject>, f: SourceFile): (r: seq<VianeoProject>)
    ensures |r| == |ps|
  {
    seq(|ps|, k requires 0 <= k < |ps| => AnnotateHtml(ps[k], f))
  }

  /** The HTML loop: every file's projects, annotated, in file order. */
  function HtmlProjects(files: seq<SourceFile>, readHtml: SourceFile -> seq<VianeoProject>): seq<VianeoProject>
  {
    if files == [] then []
    else
      var n := |files| - 1;
      HtmlProjects(files[..n], readHtml) + AnnotateAll(readHtml(files[n]), files[n])
  }

  /** The JSON loop: every file's items, in file order. */
  function JsonProjects(files: seq<SourceFile>, readJson: SourceFile -> seq<VianeoProject>): seq<VianeoProject>
  {
    if files == [] then []
    else
      var n := |files| - 1;
      JsonProjects(files[..n], readJson) + readJson(files[n])
  }

  /** Each project read from an HTML file names that file, counts one more
      `html` file, and otherwise keeps what the reader gave. */
  lemma AnnotateHtmlSpec(p: VianeoProject, f: SourceFile)
    ensures var q := AnnotateHtml(p, f);
      && f.name in q.sourceFiles && p.sourceFiles <= q.sourceFiles
      && Count(q.fileTypes, HtmlKey) == Count(p.fileTypes, HtmlKey) + 1
      && (p.needsMatrix.Some? <==> q.needsMatrix.Some?)
      && (p.needsMatrix.Some? ==> q.needsMatrix.value.source.Some? && q.needsMatrix.value.personas == p.needsMatrix.value.personas)
      && q.(sourceFiles := p.sourceFiles, fileTypes := p.fileTypes, needsMatrix := p.needsMatrix) == p
  {
  }

  /** The HTML loop, pushing as it goes. */
  method ReadHtmlFiles(htmlFiles: seq<SourceFile>, readHtml: SourceFile -> seq<VianeoProject>) returns (projects: seq<VianeoProject>)
    ensures projects == HtmlProjects(htmlFiles, readHtml)
  {
    projects := [];
    var i := 0;
    while i < |htmlFiles|
      invariant 0 <= i <= |htmlFiles|
      invariant projects == HtmlProjects(htmlFiles[..i], readHtml)
    {
      assert htmlFiles[..i + 1][..i] == htmlFiles[..i];
      var f := htmlFiles[i];
      var parsed := readHtml(f);
      ghost var before := projects;
      var j := 0;
      while j < |parsed|
        invariant 0 <= j <= |parsed|
        invariant projects == before + AnnotateAll(parsed[..j], f)
      {
        var p := parsed[j];
        if f.name !in p.sourceFiles {
          p := p.(sourceFiles := p.sourceFiles + [f.name]);
        }
        p := p.(fileTypes := p.fileTypes[HtmlKey := Count(p.fileTypes, HtmlKey) + 1]);
        p := p.(needsMatrix := WithSource(p.needsMatrix, PathOf(f)));
        assert AnnotateAll(parsed[..j + 1], f) == AnnotateAll(parsed[..j], f) + [AnnotateHtml(parsed[j], f)];
        projects := projects + [p];
        j := j + 1;
      }
      assert parsed[..j] == parsed;
      i := i + 1;
    }
    assert htmlFiles[..i] == htmlFiles;
  }

  /** The JSON loop. */
  method ReadJsonFiles(jsonFiles: seq<SourceFile>, readJson: SourceFile -> seq<VianeoProject>) returns (projects: seq<VianeoProject>)
    ensures projects == JsonProjects(jsonFiles, readJson)
  {
    projects := [];
    var i := 0;
    while i < |jsonFiles|
      invariant 0 <= i <= |jsonFiles|
      invariant projects == JsonProjects(jsonFiles[..i], readJson)
    {
      assert jsonFiles[..i + 1][..i] == jsonFiles[..i];
      projects := projects + readJson(jsonFiles[i]);
      i := i + 1;
    }
    assert jsonFiles[..i] == jsonFiles;
  }

  // ---------------------------------------------------------------- text files

  const TextProjectId: string := "project-text-1"

  const TextProjectTitle: string := "Vianeo Project (text import)"

  /** What the text loop takes from one text file: its path, the extension of
      its name, its text capped at 5000 characters, and that text's
      diagnostic lines. */
  datatype TextRead = TextRead(path: string, ext: string, text: string, diagnostics: seq<string>)

  function ReadText(f: SourceFile): TextRead
  {
    var text := Cap(f.content);
    TextRead(PathOf(f), Ext(f.name), text, ExtractDiagnostics(text))
  }

  function ReadTexts(files: seq<SourceFile>): (r: seq<TextRead>)
    ensures |r| == |files|
  {
    seq(|files|, k requires 0 <= k < |files| => ReadText(files[k]))
  }

  /** The project a text file starts when there is none yet. */
  function TextProject(t: TextRead): VianeoProject
  {
    VianeoProject(TextProjectId, TextProjectTitle, None, None, [], [Field(t.path, t.text)], [t.path],
                  map[t.ext := 1], t.diagnostics, [], None)
  }

  /** A text file merged into an existing project. */
  function MergeText(p: VianeoProject, t: TextRead): VianeoProject
  {
    p.(rawFields := SetField(p.rawFields, t.path, t.text),
       sourceFiles := AddUnique(p.sourceFiles, t.path),
       fileTypes := Bump(p.fileTypes, t.ext),
       diagnostics := Dedup(p.diagnostics + t.diagnostics))
  }

  /** One text file: a new placeholder project, or a merge into the first. */
  function TextStep(projects: seq<VianeoProject>, t: TextRead): (r: seq<VianeoProject>)
    ensures |r| >= 1
  {
    if projects == [] then [TextProject(t)] else [MergeText(projects[0], t)] + projects[1..]
  }

  /** The text loop over the files read as `texts`. */
  function MergeTexts(projects: seq<VianeoProject>, texts: seq<TextRead>): (r: seq<VianeoProject>)
    ensures texts != [] ==> r != []
  {
    if texts == [] then projects
    else TextStep(MergeTexts(projects, texts[..|texts| - 1]), texts[|texts| - 1])
  }

  /** One more text file is one more step. */
  lemma MergeTextsNext(projects: seq<VianeoProject>, files: seq<SourceFile>, i: nat)
    requires i < |files|
    ensures MergeTexts(projects, ReadTexts(files[..i + 1])) == TextStep(MergeTexts(projects, ReadTexts(files[..i])), ReadText(files[i]))
  {
    assert ReadTexts(files[..i + 1])[..i] == ReadTexts(files[..i]);
  }

  /** One text file merged into the first project, field by field. */
  method MergeIntoFirst(p: VianeoProject, t: TextRead) returns (q: VianeoProject)
    ensures q == MergeText(p, t)
  {
    var fields := SetField(p.rawFields, t.path, t.text);
    var sources := p.sourceFiles;
    if t.path !in sources {
      sources := sources + [t.path];
    }
    var counts := p.fileTypes[t.ext := Count(p.fileTypes, t.ext) + 1];
    var diagnostics := Dedup(p.diagnostics + t.diagnostics);
    q := p.(rawFields := fields, sourceFiles := sources, fileTypes := counts, diagnostics := diagnostics);
  }

  /** The body of the text loop for one file. */
  method MergeTextFile(projects: seq<VianeoProject>, f: SourceFile) returns (r: seq<VianeoProject>)
    ensures r == TextStep(projects, ReadText(f))
  {
    var text := Cap(f.content);
    var path := PathOf(f);
    var ext := Ext(f.name);
    var found := ExtractDiagnostics(text);
    var t := TextRead(path, ext, text, found);
    if |projects| == 0 {
      r := [VianeoProject(TextProjectId, TextProjectTitle, None, None, [], [Field(path, text)], [path],
                          map[ext := 1], found, [], None)];
    } else {
      var merged := MergeIntoFirst(projects[0], t);
      r := [merged] + projects[1..];
    }
  }

  /** The text loop, updating the first project in place. */
  method MergeTextFiles(projects: seq<VianeoProject>, textFiles: seq<SourceFile>) returns (r: seq<VianeoProject>)
    ensures r == MergeTexts(projects, ReadTexts(textFiles))
  {
    r := projects;
    var i := 0;
    while i < |textFiles|
      invariant 0 <= i <= |textFiles|
      invariant r == MergeTexts(projects, ReadTexts(textFiles[..i]))
    {
      MergeTextsNext(projects, textFiles, i);
      r := MergeTextFile(r, textFiles[i]);
      i := i + 1;
    }
    assert textFiles[..i] == textFiles;
  }

  /** The first project's count for `ext`, 0 when there is no project. */
  function FirstCount(projects: seq<VianeoProject>, ext: string): nat
  {
    if projects == [] then 0 else Count(projects[0].fileTypes, ext)
  }

  /** How many of the files read have extension `ext`. */
  function CountExt(texts: seq<TextRead>, ext: string): nat
  {
    if texts == [] then 0
    else CountExt(texts[..|texts| - 1], ext) + (if texts[|texts| - 1].ext == ext then 1 else 0)
  }

  /** Text files only ever touch the first project: with no project a
      placeholder appears, otherwise the first project keeps its identity
      and the others are untouched. */
  lemma {:induction false} MergeTextsShape(projects: seq<VianeoProject>, texts: seq<TextRead>)
    ensures texts == [] ==> MergeTexts(projects, texts) == projects
    ensures texts != [] && projects == [] ==> var r := MergeTexts(projects, texts);
      |r| == 1 && r[0].id == TextProjectId && r[0].title == TextProjectTitle
    ensures texts != [] && projects != [] ==> var r := MergeTexts(projects, texts);
      && |r| == |projects| && r[1..] == projects[1..]
      && r[0].id == projects[0].id && r[0].title == projects[0].title
      && r[0].assets == projects[0].assets && r[0].needsMatrix == projects[0].needsMatrix
      && projects[0].sourceFiles <= r[0].sourceFiles
  {
    if texts != [] {
      MergeTextsShape(projects, texts[..|texts| - 1]);
    }
  }

  /** After the text loop the first project counts every text file under its
      extension, on top of what it counted before. */
  lemma {:induction false} MergeTextsCounts(projects: seq<VianeoProject>, texts: seq<TextRead>, ext: string)
    ensures FirstCount(MergeTexts(projects, texts), ext) == FirstCount(projects, ext) + CountExt(texts, ext)
  {
    if texts != [] {
      MergeTextsCounts(projects, texts[..|texts| - 1], ext);
    }
  }

  /** One text step lists the file's path in the first project and keeps the
      paths listed before. */
  lemma TextStepSources(prev: seq<VianeoProject>, t: TextRead)
    ensures t.path in TextStep(prev, t)[0].sourceFiles
    ensures prev != [] ==> forall y :: y in prev[0].sourceFiles ==> y in TextStep(prev, t)[0].sourceFiles
  {
  }

  /** Every text file's path is among the first project's source files. */
  lemma {:induction false} MergeTextsPaths(projects: seq<VianeoProject>, texts: seq<TextRead>)
    requires texts != []
    ensures forall k :: 0 <= k < |texts| ==> texts[k].path in MergeTexts(projects, texts)[0].sourceFiles
  {
    var n := |texts| - 1;
    var front := texts[..n];
    var prev := MergeTexts(projects, front);
    var r := MergeTexts(projects, texts);
    assert r == TextStep(prev, texts[n]);
    TextStepSources(prev, texts[n]);
    if n > 0 {
      MergeTextsPaths(projects, front);
    }
    forall k | 0 <= k < |texts|
      ensures texts[k].path in r[0].sourceFiles
    {
      if k < n {
        assert texts[k] == front[k];
        assert texts[k].path in prev[0].sourceFiles;
      }
    }
  }

  /** The first project's field for the last text file's path holds that
      file's capped text. */
  lemma MergeTextsLast(projects: seq<VianeoProject>, texts: seq<TextRead>)
    requires texts != []
    ensures Lookup(MergeTexts(projects, texts)[0].rawFields, texts[|texts| - 1].path) == Some(texts[|texts| - 1].text)
  {
    var n := |texts| - 1;
    assert MergeTexts(projects, texts) == TextStep(MergeTexts(projects, texts[..n]), texts[n]);
  }

  /** Once a text file has been merged into an existing project, that
      project's diagnostics have no repeats; a placeholder made from a single
      file keeps them as that file gives them. */
  lemma MergeTextsDistinct(projects: seq<VianeoProject>, texts: seq<TextRead>)
    requires texts != []
    requires projects != [] || |texts| >= 2
    ensures Distinct(MergeTexts(projects, texts)[0].diagnostics)
  {
    var n := |texts| - 1;
    var prev := MergeTexts(projects, texts[..n]);
    if n > 0 {
      assert prev != [];
    }
    DedupSpec(prev[0].diagnostics + texts[n].diagnostics);
  }

  /** The text loop reads each file's path, the extension of its name
      (never empty, without a '.'), the first 5000 characters of its text,
      and the first 50 diagnostic lines of those characters. */
  lemma ReadTextSpec(f: SourceFile)
    ensures var t := ReadText(f);
      && t.path == PathOf(f) && t.ext == Ext(f.name) && t.ext != [] && '.' !in t.ext
      && t.text <= f.content
      && |t.text| == (if |f.content| <= TextCap then |f.content| else TextCap)
      && var kept := DiagnosticLines(SplitLines(t.text));
         t.diagnostics <= kept
         && |t.diagnostics| == (if |kept| <= MaxDiagnostics then |kept| else MaxDiagnostics)
  {
    ExtSpec(f.name);
    ExtractDiagnosticsSpec(Cap(f.content));
  }


  // ---------------------------------------------------------------- image files

  const AssetsProjectId: string := "project-assets-1"

  const AssetsProjectTitle: string := "Vianeo Project"

  const ImageKey: string := "image"

  /** The project images start when there is none yet. */
  const AssetsProject: VianeoProject :=
    VianeoProject(AssetsProjectId, AssetsProjectTitle, None, Some([]), [], [], [], map[], [], [], None)

  function ImageAssetOf(img: SourceFile): Asset
  {
    Asset(PathOf(img), ImageAsset, img.name)
  }

  function AttachImage(p: VianeoProject, img: SourceFile): VianeoProject
  {
    p.(assets := p.assets + [ImageAssetOf(img)],
       fileTypes := Bump(p.fileTypes, ImageKey),
       sourceFiles := AddUnique(p.sourceFiles, PathOf(img)))
  }

  /** Every image attached to one project, in order. */
  function AttachAll(p: VianeoProject, imgs: seq<SourceFile>): VianeoProject
  {
    if imgs == [] then p else AttachImage(AttachAll(p, imgs[..|imgs| - 1]), imgs[|imgs| - 1])
  }

  /** The image step: images go to the first project, made first if need be. */
  function AttachImages(projects: seq<VianeoProject>, imgs: seq<SourceFile>): seq<VianeoProject>
  {
    if imgs == [] then projects
    else if projects == [] then [AttachAll(AssetsProject, imgs)]
    else [AttachAll(projects[0], imgs)] + projects[1..]
  }

  /** The assets of `imgs`, in order. */
  function ImageAssets(imgs: seq<SourceFile>): (r: seq<Asset>)
    ensures |r| == |imgs|
  {
    seq(|imgs|, k requires 0 <= k < |imgs| => ImageAssetOf(imgs[k]))
  }

  /** Attaching images appends one asset per image in order, counts them
      under `image`, lists every image path, and changes nothing else. */
  lemma {:induction false} AttachAllSpec(p: VianeoProject, imgs: seq<SourceFile>)
    ensures var q := AttachAll(p, imgs);
      && q.assets == p.assets + ImageAssets(imgs)
      && Count(q.fileTypes, ImageKey) == Count(p.fileTypes, ImageKey) + |imgs|
      && (forall other :: other != ImageKey ==> Count(q.fileTypes, other) == Count(p.fileTypes, other))
      && p.sourceFiles <= q.sourceFiles
      && (forall img :: img in imgs ==> PathOf(img) in q.sourceFiles)
      && q.(assets := p.assets, fileTypes := p.fileTypes, sourceFiles := p.sourceFiles) == p
  {
    if imgs != [] {
      var n := |imgs| - 1;
      var front := imgs[..n];
      AttachAllSpec(p, front);
      assert ImageAssets(imgs) == ImageAssets(front) + [ImageAssetOf(imgs[n])];
      forall img | img in imgs
        ensures PathOf(img) in AttachAll(p, imgs).sourceFiles
      {
        if img != imgs[n] {
          assert img in front;
        }
      }
    }
  }

  /** The body of the image loop for one image. */
  method AttachImageFile(p: VianeoProject, img: SourceFile) returns (q: VianeoProject)
    ensures q == AttachImage(p, img)
  {
    q := p.(assets := p.assets + [Asset(PathOf(img), ImageAsset, img.name)]);
    q := q.(fileTypes := q.fileTypes[ImageKey := Count(q.fileTypes, ImageKey) + 1]);
    if PathOf(img) !in q.sourceFiles {
      q := q.(sourceFiles := q.sourceFiles + [PathOf(img)]);
    }
  }

  /** One more image is one more attachment. */
  lemma AttachAllNext(p: VianeoProject, imgs: seq<SourceFile>, i: nat)
    requires i < |imgs|
    ensures AttachAll(p, imgs[..i + 1]) == AttachImage(AttachAll(p, imgs[..i]), imgs[i])
  {
    assert imgs[..i + 1][..i] == imgs[..i];
  }

  /** The image loop, pushing every image into one project. */
  method AttachImageLoop(first: VianeoProject, imageFiles: seq<SourceFile>) returns (p: VianeoProject)
    ensures p == AttachAll(first, imageFiles)
  {
    p := first;
    var i := 0;
    while i < |imageFiles|
      invariant 0 <= i <= |imageFiles|
      invariant p == AttachAll(first, imageFiles[..i])
    {
      AttachAllNext(first, imageFiles, i);
      p := AttachImageFile(p, imageFiles[i]);
      i := i + 1;
    }
    assert imageFiles[..i] == imageFiles;
  }

  /** The image step: the first project, made first if need be, takes every image. */
  method AttachImageFiles(projects: seq<VianeoProject>, imageFiles: seq<SourceFile>) returns (r: seq<VianeoProject>)
    ensures r == AttachImages(projects, imageFiles)
  {
    r := projects;
    if |imageFiles| > 0 {
      if |r| == 0 {
        r := [AssetsProject];
      }
      var p := AttachImageLoop(r[0], imageFiles);
      r := [p] + r[1..];
    }
  }

  // ---------------------------------------------------------------- duplicates by id

  predicate HasId(s: seq<VianeoProject>, id: string)
  {
    exists k :: 0 <= k < |s| && s[k].id == id
  }

  /** `p` is `s[j]` for a `j` before which no project has `p`'s id. */
  predicate EarliestWithId(s: seq<VianeoProject>, p: VianeoProject)
  {
    exists j :: 0 <= j < |s| && s[j] == p && forall i :: 0 <= i < j ==> s[i].id != p.id
  }

  lemma HasIdAppend(s: seq<VianeoProject>, p: VianeoProject, id: string)
    ensures HasId(s + [p], id) <==> HasId(s, id) || p.id == id
  {
    if HasId(s, id) {
      var k :| 0 <= k < |s| && s[k].id == id;
      assert (s + [p])[k].id == id;
    }
    if p.id == id {
      assert (s + [p])[|s|].id == id;
    }
    if HasId(s + [p], id) && !HasId(s, id) {
      var k :| 0 <= k < |s + [p]| && (s + [p])[k].id == id;
      if k < |s| {
        assert s[k].id == id;
      }
    }
  }

  /** The projects kept by `byId`, in the order their ids were first seen. */
  function FirstById(projects: seq<VianeoProject>): seq<VianeoProject>
  {
    if projects == [] then []
    else
      var n := |projects| - 1;
      var prev := FirstById(projects[..n]);
      if HasId(prev, projects[n].id) then prev else prev + [projects[n]]
  }

  /** No two kept projects share an id, and every id of the input is kept. */
  lemma {:induction false} FirstByIdIds(projects: seq<VianeoProject>)
    ensures var r := FirstById(projects);
      && |r| <= |projects|
      && (forall i, j :: 0 <= i < j < |r| ==> r[i].id != r[j].id)
      && (forall id :: HasId(r, id) <==> HasId(projects, id))
  {
    if projects != [] {
      var n := |projects| - 1;
      var front := projects[..n];
      FirstByIdIds(front);
      var r := FirstById(projects);
      var prev := FirstById(front);
      assert projects == front + [projects[n]];
      forall id
        ensures HasId(r, id) <==> HasId(projects, id)
      {
        HasIdAppend(front, projects[n], id);
        HasIdAppend(prev, projects[n], id);
      }
    }
  }

  /** A project no earlier project shares an id with is the earliest with its id. */
  lemma EarliestWithIdAt(s: seq<VianeoProject>, j: nat)
    requires j < |s| && forall i :: 0 <= i < j ==> s[i].id != s[j].id
    ensures EarliestWithId(s, s[j])
  {
  }

  /** The earliest project with its id stays so when more come after it. */
  lemma EarliestWithIdExtend(s: seq<VianeoProject>, x: VianeoProject, p: VianeoProject)
    requires EarliestWithId(s, p)
    ensures EarliestWithId(s + [x], p)
  {
    var j :| 0 <= j < |s| && s[j] == p && forall i :: 0 <= i < j ==> s[i].id != p.id;
    assert (s + [x])[j] == p;
    forall i | 0 <= i < j
      ensures (s + [x])[i].id != p.id
    {
      assert (s + [x])[i] == s[i];
    }
  }

  /** Each kept project is the earliest of the input with its id, and the
      first project of the input is always kept first. */
  lemma {:induction false} FirstByIdEarliest(projects: seq<VianeoProject>)
    ensures var r := FirstById(projects);
      && (forall k :: 0 <= k < |r| ==> EarliestWithId(projects, r[k]))
      && (projects != [] ==> r != [] && r[0] == projects[0])
  {
    if projects != [] {
      var n := |projects| - 1;
      var front := projects[..n];
      FirstByIdEarliest(front);
      FirstByIdIds(front);
      var prev := FirstById(front);
      var r := FirstById(projects);
      forall k | 0 <= k < |r|
        ensures EarliestWithId(projects, r[k])
      {
        if k < |prev| {
          assert r[k] == prev[k];
          EarliestWithIdExtend(front, projects[n], prev[k]);
          assert front + [projects[n]] == projects;
        } else {
          assert r[k] == projects[n];
          assert !HasId(front, projects[n].id);
          forall i | 0 <= i < n
            ensures projects[i].id != projects[n].id
          {
            assert front[i] == projects[i];
          }
          EarliestWithIdAt(projects, n);
        }
      }
      if n > 0 {
        assert r[0] == prev[0];
      }
    }
  }

  /** The `byId` loop, with the kept projects listed in the order their ids
      were first set. `Object.values` lists integer-like ids such as "7"
      first, in numeric order, and that ordering is not modelled. */
  method DedupById(projects: seq<VianeoProject>) returns (r: seq<VianeoProject>)
    ensures r == FirstById(projects)
  {
    var byId: map<string, VianeoProject> := map[];
    var order: seq<string> := [];
    ghost var kept: seq<VianeoProject> := [];
    var i := 0;
    while i < |projects|
      invariant 0 <= i <= |projects|
      invariant kept == FirstById(projects[..i])
      invariant |order| == |kept|
      invariant forall k :: 0 <= k < |order| ==> order[k] == kept[k].id && order[k] in byId && byId[order[k]] == kept[k]
      invariant forall id :: id in byId <==> HasId(kept, id)
    {
      assert projects[..i + 1][..i] == projects[..i];
      var p := projects[i];
      forall id {
        HasIdAppend(kept, p, id);
      }
      if p.id !in byId {
        byId := byId[p.id := p];
        order := order + [p.id];
        kept := kept + [p];
      }
      i := i + 1;
    }
    assert projects[..i] == projects;
    r := seq(|order|, k requires 0 <= k < |order| && order[k] in byId => byId[order[k]]);
  }

  // ---------------------------------------------------------------- the whole pass

  /** `parseVianeoFileList` as one value. */
  function ParseFiles(files: seq<SourceFile>, readHtml: SourceFile -> seq<VianeoProject>, readJson: SourceFile -> seq<VianeoProject>): seq<VianeoProject>
  {
    var structured := HtmlProjects(Select(files, HtmlFile), readHtml) + JsonProjects(Select(files, JsonFile), readJson);
    FirstById(AttachImages(MergeTexts(structured, ReadTexts(Select(files, TextFile))), Select(files, ImageFile)))
  }

  /** `parseVianeoFileList`, stage by stage. */
  method ParseFileList(files: seq<SourceFile>, readHtml: SourceFile -> seq<VianeoProject>, readJson: SourceFile -> seq<VianeoProject>)
    returns (projects: seq<VianeoProject>)
    ensures projects == ParseFiles(files, readHtml, readJson)
  {
    var htmlFiles := Select(files, HtmlFile);
    var jsonFiles := Select(files, JsonFile);
    var textFiles := Select(files, TextFile);
    var imageFiles := Select(files, ImageFile);
    var fromHtml := ReadHtmlFiles(htmlFiles, readHtml);
    var fromJson := ReadJsonFiles(jsonFiles, readJson);
    projects := fromHtml + fromJson;
    projects := MergeTextFiles(projects, textFiles);
    projects := AttachImageFiles(projects, imageFiles);
    projects := DedupById(projects);
  }

  /** After the text loop, the first project lists the path of every text file. */
  lemma MergeTextFilesCovered(structured: seq<VianeoProject>, textFiles: seq<SourceFile>)
    ensures var merged := MergeTexts(structured, ReadTexts(textFiles));
      textFiles != [] ==> merged != [] && forall f :: f in textFiles ==> PathOf(f) in merged[0].sourceFiles
  {
    var texts := ReadTexts(textFiles);
    var merged := MergeTexts(structured, texts);
    if texts != [] {
      MergeTextsPaths(structured, texts);
      forall f | f in textFiles
        ensures PathOf(f) in merged[0].sourceFiles
      {
        var k :| 0 <= k < |textFiles| && textFiles[k] == f;
        assert texts[k].path == PathOf(f);
      }
    }
  }

  /** The image step keeps the first project's paths and adds every image path. */
  lemma AttachImagesCovered(projects: seq<VianeoProject>, imgs: seq<SourceFile>)
    ensures var r := AttachImages(projects, imgs);
      && (projects != [] || imgs != [] ==> r != [])
      && (projects != [] ==> projects[0].sourceFiles <= r[0].sourceFiles)
      && (forall img :: img in imgs ==> PathOf(img) in r[0].sourceFiles)
  {
    if imgs != [] {
      var base := if projects == [] then AssetsProject else projects[0];
      AttachAllSpec(base, imgs);
      assert AttachImages(projects, imgs)[0] == AttachAll(base, imgs);
    }
  }

  /** The pass returns projects with distinct ids; any text or image file
      yields at least one project, and the first one lists the path of every
      text and image file. */
  lemma ParseFilesSpec(files: seq<SourceFile>, readHtml: SourceFile -> seq<VianeoProject>, readJson: SourceFile -> seq<VianeoProject>)
    ensures var r := ParseFiles(files, readHtml, readJson);
      && (forall i, j :: 0 <= i < j < |r| ==> r[i].id != r[j].id)
      && ((exists f :: f in files && (OfKind(f, TextFile) || OfKind(f, ImageFile))) ==> r != [])
      && (forall f :: f in files && (OfKind(f, TextFile) || OfKind(f, ImageFile)) ==> PathOf(f) in r[0].sourceFiles)
  {
    var structured := HtmlProjects(Select(files, HtmlFile), readHtml) + JsonProjects(Select(files, JsonFile), readJson);
    var textFiles := Select(files, TextFile);
    var imgs := Select(files, ImageFile);
    var merged := MergeTexts(structured, ReadTexts(textFiles));
    var attached := AttachImages(merged, imgs);
    FirstByIdIds(attached);
    FirstByIdEarliest(attached);
    MergeTextFilesCovered(structured, textFiles);
    AttachImagesCovered(merged, imgs);
  }
}
