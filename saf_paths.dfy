/**
 * Paths behind Storage Access Framework URIs (FileUtils): a tree document id such as
 * "primary:Music/Band" names a volume and a path inside it, and the folder's absolute
 * path is the volume's mount path joined with that path.
 *
 * The document id a URI carries and the table from volume ids to mount paths are inputs.
 */
module SafPaths {
  import opened Wrappers
  import opened Strings

  const SEPARATOR: char := '/'
  const DOC_ID_SEPARATOR: char := ':'

  /** `cutTrailingSlash`: one trailing '/' is removed, any other text is kept. */
  function CutTrailingSlash(path: string): (r: string)
    ensures EndsWith(path, [SEPARATOR]) ==> r + [SEPARATOR] == path
    ensures !EndsWith(path, [SEPARATOR]) ==> r == path
  {
    if EndsWith(path, [SEPARATOR]) then path[..|path| - 1] else path
  }

  /** Only one slash goes: a path ending in two keeps one. */
  lemma CutTrailingSlashOnce()
    ensures CutTrailingSlash("/storage//") == "/storage/"
    ensures CutTrailingSlash("/") == ""
    ensures CutTrailingSlash("/storage") == "/storage"
  {
    assert !EndsWith("/storage", [SEPARATOR]);
  }

  /** The first field of a split is the text before the first separator. */
  lemma {:induction false} FirstFieldOfSplit(s: string, sep: char)
    ensures StartsWith(s, SplitAll(s, sep)[0])
    ensures var k := |SplitAll(s, sep)[0]|; k == |s| || s[k] == sep
  {
    if s != [] && s[0] != sep {
      FirstFieldOfSplit(s[1..], sep);
    }
  }

  /**
   * `getVolumeIdFromTreeUri`: the first ':'-field of the document id, which is null only
   * when the id is nothing but ':' characters.
   */
  function VolumeId(docId: string): (r: Option<string>)
    ensures r.Some? ==> DOC_ID_SEPARATOR !in r.value && StartsWith(docId, r.value) &&
                        (|r.value| == |docId| || docId[|r.value|] == DOC_ID_SEPARATOR)
    ensures r.None? <==> docId != [] && forall i :: 0 <= i < |docId| ==> docId[i] == DOC_ID_SEPARATOR
  {
    var split := JavaSplit(docId, DOC_ID_SEPARATOR);
    JavaSplitCases(docId, DOC_ID_SEPARATOR);
    if |split| > 0 then
      FirstFieldOfSplit(docId, DOC_ID_SEPARATOR);
      if DOC_ID_SEPARATOR !in docId then SplitAllNoSeparator(docId, DOC_ID_SEPARATOR); Some(split[0])
      else Some(split[0])
    else
      NotAllSeparators(docId, DOC_ID_SEPARATOR);
      None
  }

  /** A split whose fields are all dropped came from a text of separators only. */
  lemma NotAllSeparators(s: string, sep: char)
    requires sep in s && DropTrailingEmpties(SplitAll(s, sep)) == []
    ensures forall i :: 0 <= i < |s| ==> s[i] == sep
  {
    forall i | 0 <= i < |s|
      ensures s[i] == sep
    {
      JoinSplitAll(s, sep);
      AllEmptyJoin(SplitAll(s, sep), sep, i);
    }
  }

  /** In a join of empty fields every character is the separator. */
  lemma {:induction false} AllEmptyJoin(xs: seq<string>, sep: char, i: nat)
    requires forall k :: 0 <= k < |xs| ==> xs[k] == []
    requires i < |Join(xs, [sep])|
    ensures Join(xs, [sep])[i] == sep
  {
    if |xs| >= 2 {
      assert Join(xs, [sep]) == [sep] + Join(xs[1..], [sep]);
      if i > 0 {
        AllEmptyJoin(xs[1..], sep, i - 1);
      }
    }
  }

  /**
   * `getDocumentPathFromTreeUri`: the second ':'-field of the document id when Java's split
   * keeps one, otherwise "/".
   */
  function DocumentPath(docId: string): (r: string)
    ensures |JavaSplit(docId, DOC_ID_SEPARATOR)| >= 2 ==> r == SplitAll(docId, DOC_ID_SEPARATOR)[1] && DOC_ID_SEPARATOR !in r
    ensures |JavaSplit(docId, DOC_ID_SEPARATOR)| < 2 ==> r == [SEPARATOR]
  {
    var split := JavaSplit(docId, DOC_ID_SEPARATOR);
    if |split| >= 2 then split[1] else [SEPARATOR]
  }

  /**
   * `getAbsolutePathFromTreeUri`: null without a URI or a volume id, "/" for a volume the
   * table does not know, and otherwise the volume path and the document path, each
   * without one trailing '/', joined by a '/' unless the document path brings its own.
   */
  function AbsolutePathFromTreeUri(docId: Option<string>, volumes: map<string, string>): (r: Option<string>)
    ensures docId.None? ==> r.None?
    ensures docId.Some? ==> (r.None? <==> VolumeId(docId.value).None?)
    ensures docId.Some? && VolumeId(docId.value).Some? && VolumeId(docId.value).value !in volumes ==> r == Some([SEPARATOR])
    ensures docId.Some? && VolumeId(docId.value).Some? && VolumeId(docId.value).value in volumes ==>
              r.Some? && StartsWith(r.value, CutTrailingSlash(volumes[VolumeId(docId.value).value]))
  {
    if docId.None? then None
    else
      var volumeId := VolumeId(docId.value);
      if volumeId.None? then None
      else if volumeId.value !in volumes then Some([SEPARATOR])
      else
        var volumePath := CutTrailingSlash(volumes[volumeId.value]);
        var documentPath := CutTrailingSlash(DocumentPath(docId.value));
        if |documentPath| > 0 then
          if StartsWith(documentPath, [SEPARATOR]) then Some(volumePath + documentPath)
          else Some(volumePath + [SEPARATOR] + documentPath)
        else Some(volumePath)
  }

  /**
   * A document id "<volume>:<path>" leads to the volume's path, a '/', and the path, with
   * a trailing '/' on the volume path and on the path dropped.
   */
  lemma TreeUriPath(volume: string, path: string, volumes: map<string, string>)
    requires volume != [] && DOC_ID_SEPARATOR !in volume && volume in volumes
    requires path != [] && DOC_ID_SEPARATOR !in path && path[0] != SEPARATOR
    ensures AbsolutePathFromTreeUri(Some(volume + [DOC_ID_SEPARATOR] + path), volumes) ==
              Some(CutTrailingSlash(volumes[volume]) + [SEPARATOR] + CutTrailingSlash(path))
  {
    SplitVolumeAndPath(volume, path);
    var documentPath := CutTrailingSlash(path);
    assert documentPath != [] && !StartsWith(documentPath, [SEPARATOR]) by {
      assert documentPath[0] == path[0];
    }
  }

  /** "<volume>:<path>" splits at its one ':' into the volume and the path. */
  lemma SplitVolumeAndPath(volume: string, path: string)
    requires volume != [] && DOC_ID_SEPARATOR !in volume
    requires path != [] && DOC_ID_SEPARATOR !in path
    ensures JavaSplit(volume + [DOC_ID_SEPARATOR] + path, DOC_ID_SEPARATOR) == [volume, path]
    ensures VolumeId(volume + [DOC_ID_SEPARATOR] + path) == Some(volume)
    ensures DocumentPath(volume + [DOC_ID_SEPARATOR] + path) == path
  {
    var docId := volume + [DOC_ID_SEPARATOR] + path;
    SplitAllJoin([volume, path], DOC_ID_SEPARATOR);
    assert Join([volume, path], [DOC_ID_SEPARATOR]) == docId;
    assert DOC_ID_SEPARATOR in docId by { assert docId[|volume|] == DOC_ID_SEPARATOR; }
    assert JavaSplit(docId, DOC_ID_SEPARATOR) == [volume, path];
  }

  /** A document id with nothing after the ':' is the volume's own path. */
  lemma VolumeRootPath(volume: string, volumes: map<string, string>)
    requires volume != [] && DOC_ID_SEPARATOR !in volume && volume in volumes
    ensures AbsolutePathFromTreeUri(Some(volume + [DOC_ID_SEPARATOR]), volumes) == Some(CutTrailingSlash(volumes[volume]))
  {
    var docId := volume + [DOC_ID_SEPARATOR];
    SplitAllJoin([volume, []], DOC_ID_SEPARATOR);
    assert Join([volume, []], [DOC_ID_SEPARATOR]) == docId;
    assert DOC_ID_SEPARATOR in docId by { assert docId[|volume|] == DOC_ID_SEPARATOR; }
    assert JavaSplit(docId, DOC_ID_SEPARATOR) == [volume];
    assert CutTrailingSlash([SEPARATOR]) == [];
  }

  /** Text after a second ':' is dropped from the document path. */
  lemma SecondSeparatorDropsRest(volume: string, path: string, more: string)
    requires DOC_ID_SEPARATOR !in volume && DOC_ID_SEPARATOR !in path && DOC_ID_SEPARATOR !in more
    requires path != []
    ensures DocumentPath(volume + [DOC_ID_SEPARATOR] + path + [DOC_ID_SEPARATOR] + more) == path
  {
    var docId := volume + [DOC_ID_SEPARATOR] + path + [DOC_ID_SEPARATOR] + more;
    SplitAllJoin([volume, path, more], DOC_ID_SEPARATOR);
    assert [volume, path, more][1..] == [path, more];
    assert Join([path, more], [DOC_ID_SEPARATOR]) == path + [DOC_ID_SEPARATOR] + more;
    assert Join([volume, path, more], [DOC_ID_SEPARATOR]) == docId;
    assert DOC_ID_SEPARATOR in docId by { assert docId[|volume|] == DOC_ID_SEPARATOR; }
    var split := JavaSplit(docId, DOC_ID_SEPARATOR);
    assert |split| >= 2 by {
      assert DropTrailingEmpties([volume, path, more]) == split;
      assert [volume, path, more][1] != [];
    }
  }

  // ---------------------------------------------------------------------------
  // The external files folder as a document URI

  const EXTERNAL_STORAGE_DOCUMENT: string := "content://com.android.externalstorage.documents/document/"

  /** The document URI of `<volume>:Android/data/<package>/files`, with ':' and '/' escaped. */
  function FilesDocumentUri(volumeId: string, packageName: string): string {
    EXTERNAL_STORAGE_DOCUMENT + volumeId + "%3AAndroid%2Fdata%2F" + packageName + "%2Ffiles"
  }

  /**
   * `getExternalFilesDirUri`: the first external files dir other than the app's primary
   * one, its third '/'-field taken as volume id. Without such a dir, or when the dir is
   * null or its path has fewer than three fields, the result is null (an exception inside
   * is caught and also yields null).
   */
  function ExternalFilesDirUri(externalFilesDirs: seq<Option<string>>, ownDir: Option<string>,
                               packageName: string): (r: Option<string>)
    ensures var dirs := RemoveFirst(externalFilesDirs, ownDir);
            r.Some? <==> dirs != [] && dirs[0].Some? && |JavaSplit(dirs[0].value, SEPARATOR)| >= 3
    ensures r.Some? ==> var dirs := RemoveFirst(externalFilesDirs, ownDir);
                        r.value == FilesDocumentUri(JavaSplit(dirs[0].value, SEPARATOR)[2], packageName)
  {
    var dirs := RemoveFirst(externalFilesDirs, ownDir);
    if |dirs| == 0 then None
    else if dirs[0].None? then None
    else
      var segments := JavaSplit(dirs[0].value, SEPARATOR);
      if |segments| < 2 then None
      else if |segments| < 3 then None
      else Some(FilesDocumentUri(segments[2], packageName))
  }

  /**
   * For a secondary volume mounted at "/<dir>/<volume>" the URI names that volume,
   * whatever follows in the path.
   */
  lemma ExternalFilesDirVolume(dir: string, volume: string, rest: string, ownDir: Option<string>, packageName: string)
    requires SEPARATOR !in dir && SEPARATOR !in volume && volume != []
    requires rest == [] || rest[0] == SEPARATOR
    requires Some([SEPARATOR] + dir + [SEPARATOR] + volume + rest) != ownDir
    ensures ExternalFilesDirUri([ownDir, Some([SEPARATOR] + dir + [SEPARATOR] + volume + rest)], ownDir, packageName) ==
              Some(FilesDocumentUri(volume, packageName))
  {
    var path := [SEPARATOR] + dir + [SEPARATOR] + volume + rest;
    assert RemoveFirst([ownDir, Some(path)], ownDir) == [Some(path)];
    VolumeField(dir, volume, rest);
  }

  /** The third '/'-field of "/<dir>/<volume>..." is the volume, and the split keeps it. */
  lemma VolumeField(dir: string, volume: string, rest: string)
    requires SEPARATOR !in dir && SEPARATOR !in volume && volume != []
    requires rest == [] || rest[0] == SEPARATOR
    ensures var split := JavaSplit([SEPARATOR] + dir + [SEPARATOR] + volume + rest, SEPARATOR);
            |split| >= 3 && split[2] == volume
  {
    var path := [SEPARATOR] + dir + [SEPARATOR] + volume + rest;
    var fields := SplitAll(path, SEPARATOR);
    ThirdField(dir, volume, rest);
    assert SEPARATOR in path by { assert path[0] == SEPARATOR; }
    assert |DropTrailingEmpties(fields)| >= 3;
  }

  /** Splitting "/<dir>/<volume>..." at '/' gives an empty field, the dir, then the volume. */
  lemma ThirdField(dir: string, volume: string, rest: string)
    requires SEPARATOR !in dir && SEPARATOR !in volume
    requires rest == [] || rest[0] == SEPARATOR
    ensures var fields := SplitAll([SEPARATOR] + dir + [SEPARATOR] + volume + rest, SEPARATOR);
            |fields| >= 3 && fields[2] == volume
  {
    var afterDir := [SEPARATOR] + (volume + rest);
    FieldBeforeSeparator(volume, rest);
    LeadingSeparator(volume + rest);
    SplitAllPrefix(dir, afterDir, SEPARATOR);
    LeadingSeparator(dir + afterDir);
    Regroup([SEPARATOR], dir, volume, rest);
  }

  lemma Regroup<T>(sep: seq<T>, a: seq<T>, b: seq<T>, c: seq<T>)
    ensures sep + a + sep + b + c == sep + (a + (sep + (b + c)))
  {
  }

  /** A separator-free text followed by nothing or by a separator is a whole first field. */
  lemma FieldBeforeSeparator(a: string, rest: string)
    requires SEPARATOR !in a
    requires rest == [] || rest[0] == SEPARATOR
    ensures SplitAll(a + rest, SEPARATOR)[0] == a
  {
    SplitAllPrefix(a, rest, SEPARATOR);
    if rest != [] {
      LeadingSeparator(rest[1..]);
      assert rest == [SEPARATOR] + rest[1..];
    }
    assert a + [] == a;
  }

  /** A leading separator splits off an empty first field. */
  lemma LeadingSeparator(t: string)
    ensures SplitAll([SEPARATOR] + t, SEPARATOR) == [[]] + SplitAll(t, SEPARATOR)
  {
    assert ([SEPARATOR] + t)[1..] == t;
  }
}
