/**
 * The folder picker (FolderPickerActivity). The file system is an input: the set of paths
 * that are existing directories, and for each readable directory the paths of its
 * entries. Paths are normalised absolute Unix paths, so a `java.io.File` is its path and
 * two files are equal iff their paths are.
 *
 * The picker shows either the list of roots or the contents of `location`; a directory's
 * contents are listed directories first, each group by name.
 */
module FolderPicker {
  import opened Wrappers
  import opened Strings
  import opened SyncthingConfig

  datatype FileSystem = FileSystem(directories: set<string>, listing: map<string, seq<string>>)

  /** `File.isDirectory()`: the path exists and is a directory. */
  predicate IsDirectory(fs: FileSystem, path: string) {
    path in fs.directories
  }

  // ---------------------------------------------------------------------------
  // Paths

  /** Index of the last '/' in `s`, or -1. */
  function LastSlash(s: string): (i: int)
    ensures -1 <= i < |s|
    ensures i >= 0 ==> s[i] == '/'
    ensures forall k :: i < k < |s| ==> s[k] != '/'
  {
    if s == [] then -1
    else if s[|s| - 1] == '/' then |s| - 1
    else LastSlash(s[..|s| - 1])
  }

  /** `File.getName()`: the text after the last '/'. */
  function FileName(path: string): (name: string)
    ensures '/' !in name
    ensures EndsWith(path, name)
  {
    path[LastSlash(path) + 1..]
  }

  /**
   * `File.getParentFile()` on Unix: the text before the last '/', "/" for a file directly
   * under the root, and null for the root itself and for a path without '/'.
   */
  function ParentPath(path: string): (r: Option<string>)
    ensures r.Some? ==> |r.value| < |path| && StartsWith(path, r.value)
    ensures r.None? <==> LastSlash(path) < 0 || path == "/"
  {
    var index := LastSlash(path);
    var prefixLength := if path != [] && path[0] == '/' then 1 else 0;
    if index < prefixLength then
      if prefixLength > 0 && |path| > prefixLength then Some("/") else None
    else Some(path[..index])
  }

  // ---------------------------------------------------------------------------
  // Orders

  /** The listing order: directories before files, then by name. */
  predicate EntryLe(fs: FileSystem, a: string, b: string) {
    (IsDirectory(fs, a) && !IsDirectory(fs, b)) ||
    (IsDirectory(fs, a) == IsDirectory(fs, b) && NameLe(FileName(a), FileName(b)))
  }

  predicate ListingSorted(fs: FileSystem, s: seq<string>) {
    forall i :: 0 <= i < |s| - 1 ==> EntryLe(fs, s[i], s[i + 1])
  }

  /** Insert `x` into a sorted listing. */
  function InsertEntry(fs: FileSystem, x: string, s: seq<string>): (r: seq<string>)
    requires ListingSorted(fs, s)
    ensures ListingSorted(fs, r) && multiset(r) == multiset(s) + multiset{x}
    ensures |r| == |s| + 1 && (r[0] == x || (s != [] && r[0] == s[0]))
  {
    if s == [] then [x]
    else if EntryLe(fs, x, s[0]) then [x] + s
    else
      NameLeTotal(FileName(x), FileName(s[0]));
      var rest := InsertEntry(fs, x, s[1..]);
      assert s == [s[0]] + s[1..];
      [s[0]] + rest
  }

  /**
   * `contents.sortWith(compareByDescending { isDirectory }.thenBy { name })`: the same
   * entries, directories first and each group by name.
   */
  function SortListing(fs: FileSystem, s: seq<string>): (r: seq<string>)
    ensures ListingSorted(fs, r) && multiset(r) == multiset(s)
  {
    if s == [] then []
    else
      assert s == [s[0]] + s[1..];
      InsertEntry(fs, s[0], SortListing(fs, s[1..]))
  }

  function InsertPath(x: string, s: seq<string>): (r: seq<string>)
    requires StrictlySorted(s)
    ensures StrictlySorted(r) && forall p :: p in r <==> p in s || p == x
    ensures r != [] && (r[0] == x || (s != [] && r[0] == s[0]))
  {
    if s == [] then [x]
    else if x == s[0] then s
    else if NameLe(x, s[0]) then [x] + s
    else
      NameLeTotal(x, s[0]);
      var rest := InsertPath(x, s[1..]);
      assert s == [s[0]] + s[1..];
      [s[0]] + rest
  }

  /** `toSortedSet()`: the distinct paths in increasing order. */
  function ToSortedSet(s: seq<string>): (r: seq<string>)
    ensures StrictlySorted(r) && forall p :: p in r <==> p in s
  {
    if s == [] then []
    else
      assert s == [s[0]] + s[1..];
      InsertPath(s[0], ToSortedSet(s[1..]))
  }

  // ---------------------------------------------------------------------------
  // Intent

  const EXTRA_INITIAL_DIRECTORY: string := "activities.syncthingandroid.nutomic.dev.FolderPickerActivity.INITIAL_DIRECTORY"
  const EXTRA_ROOT_DIRECTORY: string := "activities.syncthingandroid.nutomic.dev.FolderPickerActivity.ROOT_DIRECTORY"

  /** `createIntent`: each directory is passed as an extra only when it is neither null nor empty. */
  function CreateIntentExtras(initialDirectory: Option<string>, rootDirectory: Option<string>): (extras: map<string, string>)
    ensures EXTRA_INITIAL_DIRECTORY in extras <==> initialDirectory.Some? && initialDirectory.value != []
    ensures EXTRA_ROOT_DIRECTORY in extras <==> rootDirectory.Some? && rootDirectory.value != []
    ensures EXTRA_INITIAL_DIRECTORY in extras ==> extras[EXTRA_INITIAL_DIRECTORY] == initialDirectory.value
    ensures EXTRA_ROOT_DIRECTORY in extras ==> extras[EXTRA_ROOT_DIRECTORY] == rootDirectory.value
    ensures extras.Keys <= {EXTRA_INITIAL_DIRECTORY, EXTRA_ROOT_DIRECTORY}
  {
    var withInitial: map<string, string> :=
      if initialDirectory.Some? && initialDirectory.value != [] then map[EXTRA_INITIAL_DIRECTORY := initialDirectory.value]
      else map[];
    if rootDirectory.Some? && rootDirectory.value != [] then withInitial[EXTRA_ROOT_DIRECTORY := rootDirectory.value]
    else withInitial
  }

  // ---------------------------------------------------------------------------
  // Roots

  /**
   * The candidates `populateRoots` adds after the external files dirs: the root directory
   * passed in when it is given and not empty; otherwise the standard directories and, for
   * the advanced picker, the entries of /storage/ and "/" itself. An unreadable /storage/
   * makes the spread of its null listing throw.
   */
  function RootCandidates(rootDirectory: Option<string>, standardDirs: seq<Option<string>>, advanced: bool,
                          storageListing: Option<seq<string>>): (r: Result<seq<Option<string>>, ()>)
    ensures rootDirectory.Some? && rootDirectory.value != [] ==> r == Ok([rootDirectory])
    ensures r.Err? <==> !(rootDirectory.Some? && rootDirectory.value != []) && advanced && storageListing.None?
    ensures !(rootDirectory.Some? && rootDirectory.value != []) && !advanced ==> r == Ok(standardDirs)
  {
    if rootDirectory.Some? && rootDirectory.value != [] then Ok([rootDirectory])
    else if !advanced then Ok(standardDirs)
    else if storageListing.None? then Err(())
    else Ok(standardDirs + Somes(storageListing.value) + [Some("/")])
  }

  /** The entries `listFiles` gives for `folder`; an unreadable folder shows none. */
  function ListingAt(fs: FileSystem, folder: string): (r: seq<string>)
    ensures folder !in fs.listing ==> r == []
    ensures folder in fs.listing ==> r == fs.listing[folder]
  {
    if folder in fs.listing then fs.listing[folder] else []
  }

  /** The final roots: the distinct existing directories among the candidates, in order. */
  ghost predicate RootsOf(fs: FileSystem, candidates: seq<Option<string>>, roots: seq<string>) {
    StrictlySorted(roots) &&
    forall p :: p in roots <==> Some(p) in candidates && IsDirectory(fs, p)
  }

  // ---------------------------------------------------------------------------
  // Back navigation

  datatype Navigation = ShowFolder(folder: Option<string>) | ShowRoots | Cancel

  /**
   * The back callback as written: outside the roots with a location, go to its parent;
   * on a root with several roots, show the roots; otherwise cancel. A location that is no
   * root and has no parent yields `ShowFolder(None)`, which `displayFolder` dereferences.
   */
  function BackActionAsWritten(roots: seq<string>, location: Option<string>): Navigation {
    var atRoot := location.Some? && location.value in roots;
    if !atRoot && location.Some? then ShowFolder(ParentPath(location.value))
    else if atRoot && |roots| > 1 then ShowRoots
    else Cancel
  }

  /** The root folder "/" as initial directory, with another root, reaches the null folder. */
  lemma BackFromFilesystemRootCrashes()
    ensures BackActionAsWritten(["/storage/emulated/0"], Some("/")) == ShowFolder(None)
  {
    assert "/" !in ["/storage/emulated/0"];
  }

  /**
   * The back callback with the missing case handled: a location that is no root and has no
   * parent goes up to the roots, as the callback's own description promises.
   */
  function BackAction(roots: seq<string>, location: Option<string>): (a: Navigation)
    ensures a != ShowFolder(None)
    ensures a.ShowFolder? ==> location.Some? && location.value !in roots && a.folder == ParentPath(location.value)
    ensures location.Some? && location.value !in roots && ParentPath(location.value).Some? ==>
              a == ShowFolder(ParentPath(location.value))
    ensures location.Some? && location.value in roots ==> a == (if |roots| > 1 then ShowRoots else Cancel)
    ensures location.None? ==> a == Cancel
    ensures BackActionAsWritten(roots, location) != ShowFolder(None) ==> a == BackActionAsWritten(roots, location)
  {
    var atRoot := location.Some? && location.value in roots;
    if !atRoot && location.Some? then
      var parent := ParentPath(location.value);
      if parent.Some? then ShowFolder(parent) else ShowRoots
    else if atRoot && |roots| > 1 then ShowRoots
    else Cancel
  }

  // ---------------------------------------------------------------------------
  // The activity

  datatype PickerResult = Canceled | Selected(path: string)

  /** `File(parent, name)` for a name without '/'. */
  function ChildPath(parent: string, name: string): (r: string)
    ensures parent != "/" ==> StartsWith(r, parent + "/")
  {
    if parent == "/" then "/" + name else parent + "/" + name
  }

  /** The file system after `mkdir` made the empty directory `child` in `parent`. */
  function WithNewDirectory(fs: FileSystem, parent: string, child: string): (r: FileSystem)
    ensures r.directories == fs.directories + {child}
    ensures child in r.listing && r.listing[child] == []
    ensures parent != child && parent in fs.listing ==> parent in r.listing && r.listing[parent] == fs.listing[parent] + [child]
  {
    var listing := if parent in fs.listing then fs.listing[parent := fs.listing[parent] + [child]] else fs.listing;
    FileSystem(fs.directories + {child}, listing[child := []])
  }

  class FolderPickerActivity {
    var fs: FileSystem
    /** The roots adapter's items. */
    var roots: seq<string>
    /** The files adapter's items. */
    var files: seq<string>
    /** Whether the list view shows the roots adapter. */
    var showingRoots: bool
    var location: Option<string>
    /** The activity result once it is finishing. */
    var result: Option<PickerResult>

    ghost predicate Valid()
      reads this
    {
      StrictlySorted(roots) && (forall p :: p in roots ==> IsDirectory(fs, p)) &&
      (location.Some? ==> ListingSorted(fs, files))
    }

    constructor (fs: FileSystem)
      ensures this.fs == fs && roots == [] && files == [] && !showingRoots && location == None && result == None
      ensures Valid()
    {
      this.fs := fs;
      roots := [];
      files := [];
      showingRoots := false;
      location := None;
      result := None;
    }

    /**
     * `populateRoots`: the external files dirs without the first occurrence of the app's
     * own, then the candidates of `RootCandidates`; entries that are null, missing or not
     * directories are removed and the rest are added as a sorted set. An unreadable
     * /storage/ in the advanced picker throws before anything is added.
     */
    method PopulateRoots(externalFilesDirs: seq<Option<string>>, ownDir: Option<string>, rootDirectory: Option<string>,
                         standardDirs: seq<Option<string>>, advanced: bool, storageListing: Option<seq<string>>)
      returns (r: Result<(), ()>)
      requires Valid() && roots == []
      modifies this
      ensures Valid()
      ensures var candidates := RootCandidates(rootDirectory, standardDirs, advanced, storageListing);
              (r.Err? <==> candidates.Err?) &&
              (candidates.Ok? ==> RootsOf(fs, RemoveFirst(externalFilesDirs, ownDir) + candidates.value, roots)) &&
              (candidates.Err? ==> roots == [])
      ensures fs == old(fs) && files == old(files) && location == old(location) && showingRoots == old(showingRoots)
      ensures result == old(result)
    {
      var others := RootCandidates(rootDirectory, standardDirs, advanced, storageListing);
      if others.Err? {
        return Err(());
      }
      var candidates := RemoveFirst(externalFilesDirs, ownDir) + others.value;
      var kept := ExistingDirectories(candidates);
      roots := roots + ToSortedSet(kept);
      return Ok(());
    }

    /** The loop of `populateRoots` that drops null, missing and non-directory entries. */
    method ExistingDirectories(candidates: seq<Option<string>>) returns (kept: seq<string>)
      ensures forall p :: p in kept <==> Some(p) in candidates && IsDirectory(fs, p)
    {
      kept := [];
      var i := 0;
      while i < |candidates|
        invariant 0 <= i <= |candidates|
        invariant forall p :: p in kept <==> Some(p) in candidates[..i] && IsDirectory(fs, p)
      {
        var f := candidates[i];
        if f.Some? && IsDirectory(fs, f.value) {
          kept := kept + [f.value];
        }
        assert candidates[..i + 1] == candidates[..i] + [f];
        i := i + 1;
      }
      assert candidates[..i] == candidates;
    }

    /** `RootsAdapter.contains`: some root equals the file. */
    method Contains(file: Option<string>) returns (found: bool)
      ensures found <==> file.Some? && file.value in roots
    {
      var i := 0;
      while i < |roots|
        invariant 0 <= i <= |roots|
        invariant forall k :: 0 <= k < i ==> Some(roots[k]) != file
      {
        if Some(roots[i]) == file {
          return true;
        }
        i := i + 1;
      }
      return false;
    }

    /**
     * `displayFolder`: the folder becomes the location and its listing, sorted, becomes the
     * files list; an unreadable folder shows nothing.
     */
    method DisplayFolder(folder: string)
      requires Valid()
      modifies this
      ensures Valid()
      ensures location == Some(folder) && !showingRoots
      ensures folder in fs.listing ==> multiset(files) == multiset(fs.listing[folder])
      ensures folder !in fs.listing ==> files == []
      ensures ListingSorted(fs, files)
      ensures fs == old(fs) && roots == old(roots) && result == old(result)
    {
      location := Some(folder);
      files := [];
      var contents := if folder in fs.listing then fs.listing[folder] else [];
      contents := SortListing(fs, contents);
      AddFiles(contents);
      assert files == contents;
      showingRoots := false;
    }

    /** The files adapter's `add`, once per entry in order. */
    method AddFiles(entries: seq<string>)
      modifies this
      ensures files == old(files) + entries
      ensures location == old(location) && showingRoots == old(showingRoots)
      ensures fs == old(fs) && roots == old(roots) && result == old(result)
    {
      var i := 0;
      while i < |entries|
        invariant 0 <= i <= |entries|
        invariant files == old(files) + entries[..i]
        invariant location == old(location) && showingRoots == old(showingRoots)
        invariant fs == old(fs) && roots == old(roots) && result == old(result)
      {
        assert entries[..i + 1] == entries[..i] + [entries[i]];
        files := files + [entries[i]];
        i := i + 1;
      }
      assert entries[..i] == entries;
    }

    /** `displayRoot`: the only root's contents, or else the roots list with no location. */
    method DisplayRoot()
      requires Valid()
      modifies this
      ensures Valid()
      ensures |roots| == 1 ==> location == Some(roots[0]) && !showingRoots
      ensures |roots| == 1 ==> multiset(files) == multiset(ListingAt(fs, roots[0]))
      ensures |roots| != 1 ==> location == None && showingRoots && files == []
      ensures fs == old(fs) && roots == old(roots) && result == old(result)
    {
      files := [];
      if |roots| == 1 {
        DisplayFolder(roots[0]);
      } else {
        showingRoots := true;
        location := None;
      }
    }

    /**
     * `onCreate` after the layout: the roots are populated, then the initial directory or
     * the roots are shown.
     */
    method OnCreate(externalFilesDirs: seq<Option<string>>, ownDir: Option<string>, rootDirectory: Option<string>,
                    standardDirs: seq<Option<string>>, advanced: bool, storageListing: Option<seq<string>>,
                    initialDirectory: Option<string>)
      returns (r: Result<(), ()>)
      requires Valid() && roots == []
      modifies this
      ensures Valid()
      ensures var candidates := RootCandidates(rootDirectory, standardDirs, advanced, storageListing);
              (r.Err? <==> candidates.Err?) &&
              (candidates.Ok? ==> RootsOf(fs, RemoveFirst(externalFilesDirs, ownDir) + candidates.value, roots))
      ensures r.Ok? && initialDirectory.Some? ==> location == initialDirectory && !showingRoots
      ensures r.Ok? && initialDirectory.None? && |roots| != 1 ==> showingRoots && location == None
      ensures r.Ok? && initialDirectory.None? && |roots| == 1 ==> location == Some(roots[0]) && !showingRoots
      ensures r.Ok? && location.Some? && !showingRoots ==> multiset(files) == multiset(ListingAt(fs, location.value))
      ensures r.Ok? && showingRoots ==> files == []
      ensures r.Err? ==> files == old(files) && location == old(location) && showingRoots == old(showingRoots)
      ensures fs == old(fs) && result == old(result)
    {
      r := PopulateRoots(externalFilesDirs, ownDir, rootDirectory, standardDirs, advanced, storageListing);
      if r.Err? {
        return;
      }
      if initialDirectory.Some? {
        DisplayFolder(initialDirectory.value);
      } else {
        DisplayRoot();
      }
    }

    /** A click on item `i` of the list shown: a directory is entered, anything else is ignored. */
    method OnItemClick(i: nat)
      requires Valid()
      requires if showingRoots then i < |roots| else i < |files|
      modifies this
      ensures Valid()
      ensures var f := if old(showingRoots) then old(roots)[i] else old(files)[i];
              (IsDirectory(fs, f) ==> location == Some(f) && !showingRoots &&
                                      multiset(files) == multiset(ListingAt(fs, f))) &&
              (!IsDirectory(fs, f) ==> location == old(location) && files == old(files) && showingRoots == old(showingRoots))
      ensures fs == old(fs) && roots == old(roots) && result == old(result)
    {
      var f := if showingRoots then roots[i] else files[i];
      if IsDirectory(fs, f) {
        DisplayFolder(f);
      }
    }

    /**
     * The back callback with a parentless location sent to the roots (`BackAction`): up
     * one directory, up to the roots, or cancel.
     */
    method OnBack()
      requires Valid()
      modifies this
      ensures Valid()
      ensures match BackAction(old(roots), old(location))
              case ShowFolder(p) =>
                location == p && !showingRoots && result == old(result) &&
                multiset(files) == multiset(ListingAt(fs, p.value))
              case ShowRoots =>
                (|roots| == 1 ==> location == Some(roots[0]) && !showingRoots &&
                                  multiset(files) == multiset(ListingAt(fs, roots[0]))) &&
                (|roots| != 1 ==> showingRoots && location == None && files == []) &&
                result == old(result)
              case Cancel =>
                result == Some(Canceled) && location == old(location) &&
                files == old(files) && showingRoots == old(showingRoots)
      ensures fs == old(fs) && roots == old(roots)
    {
      var atRoot := Contains(location);
      if !atRoot && location.Some? {
        var parent := ParentPath(location.value);
        if parent.Some? {
          DisplayFolder(parent.value);
        } else {
          DisplayRoot();
        }
      } else if atRoot && |roots| > 1 {
        DisplayRoot();
      } else {
        result := Some(Canceled);
      }
    }

    /**
     * The create-folder dialog: `made` is whether `mkdir` created the folder named `name`
     * in the location; a created folder joins the file system and is entered.
     */
    method CreateFolder(name: string, made: bool)
      requires Valid() && location.Some?
      modifies this
      ensures Valid()
      ensures var child := ChildPath(old(location).value, name);
              (made ==> location == Some(child) && IsDirectory(fs, child) && files == [] &&
                        fs.directories == old(fs.directories) + {child}) &&
              (!made ==> fs == old(fs) && location == old(location) && files == old(files) &&
                         showingRoots == old(showingRoots))
      ensures var parent := old(location).value;
              made && parent in old(fs.listing) && parent != ChildPath(parent, name) ==>
                parent in fs.listing && fs.listing[parent] == old(fs.listing[parent]) + [ChildPath(parent, name)]
      ensures roots == old(roots) && result == old(result)
    {
      if made {
        var child := ChildPath(location.value, name);
        files := [];
        fs := WithNewDirectory(fs, location.value, child);
        DisplayFolder(child);
        assert |multiset(files)| == 0;
      }
    }

    /** The select item: the location is the result; without a location it throws. */
    method OnSelect() returns (r: Result<(), ()>)
      modifies this
      ensures r.Ok? <==> old(location).Some?
      ensures r.Ok? ==> result == Some(Selected(old(location).value))
      ensures r.Err? ==> result == old(result)
      ensures fs == old(fs) && roots == old(roots) && location == old(location) && files == old(files)
      ensures showingRoots == old(showingRoots)
    {
      if location.None? {
        return Err(());
      }
      result := Some(Selected(location.value));
      return Ok(());
    }

    /** A service state other than ACTIVE cancels the picker unless it is already finishing. */
    method OnServiceStateChange(state: ServiceState)
      modifies this
      ensures state != Active && old(result).None? ==> result == Some(Canceled)
      ensures state == Active || old(result).Some? ==> result == old(result)
      ensures fs == old(fs) && roots == old(roots) && location == old(location) && files == old(files)
      ensures showingRoots == old(showingRoots)
    {
      if result.None? && state != Active {
        result := Some(Canceled);
      }
    }
  }

  /** In a sorted listing every entry before a directory is a directory. */
  lemma {:induction false} DirectoriesFirst(fs: FileSystem, s: seq<string>, i: nat, j: nat)
    requires ListingSorted(fs, s) && i < j < |s|
    requires IsDirectory(fs, s[j])
    ensures IsDirectory(fs, s[i])
    decreases j - i
  {
    if i + 1 < j {
      DirectoriesFirst(fs, s, i + 1, j);
    }
  }

  /** In a sorted listing the directories, and the other entries, come in name order. */
  lemma {:induction false} NamesInOrder(fs: FileSystem, s: seq<string>, i: nat, j: nat)
    requires ListingSorted(fs, s) && i < j < |s|
    requires IsDirectory(fs, s[i]) == IsDirectory(fs, s[j])
    ensures NameLe(FileName(s[i]), FileName(s[j]))
    decreases j - i
  {
    if i + 1 < j {
      if IsDirectory(fs, s[i + 1]) == IsDirectory(fs, s[i]) {
        NamesInOrder(fs, s, i + 1, j);
        NameLeTransitive(FileName(s[i]), FileName(s[i + 1]), FileName(s[j]));
      } else {
        DirectoriesFirst(fs, s, i + 1, j);
      }
    }
  }
}
