/** Project scaffolding: `new(name, path)` creates the directory `path` when one
    is given, then writes a fresh manifest into it (or into the current
    directory), refusing to replace a manifest that is already there. */
module Scaffold {
  import opened Wrappers
  import opened Fs
  import opened Manifest

  const ManifestFile: Path := "apollo.toml"

  /** The ways `new` fails; each I/O failure keeps its cause. */
  datatype InitError =
    | AlreadyExists
    | WritingFile(cause: IoError)
    | CreatingDirectory(cause: IoError)

  const AlreadyExistsMessage: string := "package already present"
  const WritingFilePrefix: string := "can not write to the `apollo.toml` file: "
  const CreatingDirectoryPrefix: string := "can not create directory: "

  /** The `Display` rendering of an `InitError`. */
  function Display(e: InitError): (s: string)
    ensures e.AlreadyExists? ==> s == AlreadyExistsMessage
    ensures e.WritingFile? ==>
              |s| == |WritingFilePrefix| + |Describe(e.cause)| &&
              s[..|WritingFilePrefix|] == WritingFilePrefix &&
              s[|WritingFilePrefix|..] == Describe(e.cause)
    ensures e.CreatingDirectory? ==>
              |s| == |CreatingDirectoryPrefix| + |Describe(e.cause)| &&
              s[..|CreatingDirectoryPrefix|] == CreatingDirectoryPrefix &&
              s[|CreatingDirectoryPrefix|..] == Describe(e.cause)
  {
    match e
    case AlreadyExists => AlreadyExistsMessage
    case WritingFile(cause) => WritingFilePrefix + Describe(cause)
    case CreatingDirectory(cause) => CreatingDirectoryPrefix + Describe(cause)
  }

  /** The message tells the three kinds of failure apart: errors of different
      kinds never render alike, and within a kind the message fixes the text of
      the cause. */
  lemma DisplayIdentifiesError(e1: InitError, e2: InitError)
    requires Display(e1) == Display(e2)
    ensures e1.AlreadyExists? <==> e2.AlreadyExists?
    ensures e1.WritingFile? <==> e2.WritingFile?
    ensures e1.CreatingDirectory? <==> e2.CreatingDirectory?
    ensures !e1.AlreadyExists? ==> Describe(e1.cause) == Describe(e2.cause)
  {
    var s := Display(e1);
    // "package ..." starts with 'p', both prefixes with "can not "; the
    // prefixes part at index 8, 'w' against 'c'.
    assert AlreadyExistsMessage[0] == 'p';
    assert WritingFilePrefix[0] == 'c' && WritingFilePrefix[8] == 'w';
    assert CreatingDirectoryPrefix[0] == 'c' && CreatingDirectoryPrefix[8] == 'c';
  }

  /** Where `new` puts the manifest: inside the new directory `p`, or in the
      current directory. */
  function ManifestPath(path: Option<Path>): (target: Path)
    ensures path.None? ==> target == ManifestFile && Ancestors(target) == {}
    ensures path.Some? ==> target == path.value + "/" + ManifestFile &&
                           Ancestors(target) == Ancestors(path.value) + {path.value}
  {
    var leaf := ManifestFile;
    assert forall k :: 0 <= k < |leaf| ==> leaf[k] != '/';
    match path
    case None => NoAncestors(leaf); leaf
    case Some(p) => AncestorsOfChild(p, leaf); p + "/" + leaf
  }

  /** The outcome of `new`: its result and the filesystem it leaves. */
  datatype Outcome = Outcome(result: Result<(), InitError>, dirs: set<Path>, files: map<Path, Contents>)

  /** `new` as a function of the filesystem it starts in, one step per effect in
      the order the source takes them: create the directory, check for an
      existing manifest, write. */
  function NewSpec(dirs: set<Path>, files: map<Path, Contents>, faults: Faults,
                   name: string, path: Option<Path>): (o: Outcome)
    // Existing files are never changed: in particular no manifest is overwritten.
    ensures forall f :: f in files ==> f in o.files && o.files[f] == files[f]
    // Success adds exactly the manifest, at a path that held no file.
    ensures o.result.Ok? ==>
              ManifestPath(path) !in files &&
              o.files == files[ManifestPath(path) := ManifestText(NewManifest(name))]
    // A failure adds no file, except that a write which breaks off leaves a
    // truncated manifest at a path that held no file.
    ensures o.result.Err? ==>
              o.files == files ||
              (o.result.error.WritingFile? && ManifestPath(path) !in files &&
               o.files == files[ManifestPath(path) := Truncated(ManifestText(NewManifest(name)))])
    // The only directory that may appear is the requested one, and only if it was new.
    ensures o.dirs == dirs || (path.Some? && path.value !in dirs && o.dirs == dirs + {path.value})
    // A failed directory creation changes nothing; every other outcome has the directory.
    ensures o.result.Err? && o.result.error.CreatingDirectory? ==> o.dirs == dirs && o.files == files
    ensures path.Some? && !(o.result.Err? && o.result.error.CreatingDirectory?) ==> path.value in o.dirs
    // AlreadyExists is reported only when a file sits at the manifest path.
    ensures o.result == Err(AlreadyExists) ==> ManifestPath(path) in files
  {
    var target := ManifestPath(path);
    var created := if path.Some? then CreateDirFailure(dirs, files, faults, path.value) else None;
    if created.Some? then
      Outcome(Err(CreatingDirectory(created.value)), dirs, files)
    else
      var dirs' := if path.Some? then dirs + {path.value} else dirs;
      var manifest := ManifestText(NewManifest(name));
      if target in files then
        Outcome(Err(AlreadyExists), dirs', files)
      else if CreateFileFailure(dirs', faults, target).Some? then
        Outcome(Err(WritingFile(CreateFileFailure(dirs', faults, target).value)), dirs', files)
      else if target in faults.interrupted then
        Outcome(Err(WritingFile(faults.interrupted[target])), dirs', files[target := Truncated(manifest)])
      else
        Outcome(Ok(()), dirs', files[target := manifest])
  }

  /** `new(name, Some(p))` with `p` already a directory fails at creation and
      leaves everything as it was. */
  lemma NewOnExistingDirectory(dirs: set<Path>, files: map<Path, Contents>, faults: Faults,
                               name: string, p: Path)
    requires p in dirs && p != ""
    ensures NewSpec(dirs, files, faults, name, Some(p)) == Outcome(Err(CreatingDirectory(Exists)), dirs, files)
  {
  }

  /** `new(name, Some(""))`: the empty path cannot be created, so `new` fails
      with `CreatingDirectory(NotFound)` and changes nothing. */
  lemma NewWithEmptyDirectory(dirs: set<Path>, files: map<Path, Contents>, faults: Faults, name: string)
    ensures NewSpec(dirs, files, faults, name, Some("")) == Outcome(Err(CreatingDirectory(NotFound)), dirs, files)
  {
  }

  /** `new .` and `new ..` name directories that always exist, so `new` fails
      with `CreatingDirectory(Exists)` and changes nothing. */
  lemma NewOnCurrentOrParentDirectory(dirs: set<Path>, files: map<Path, Contents>, faults: Faults,
                                      name: string, p: Path)
    requires Consistent(dirs, files)
    requires p == "." || p == ".."
    ensures NewSpec(dirs, files, faults, name, Some(p)) == Outcome(Err(CreatingDirectory(Exists)), dirs, files)
  {
  }

  /** A directory that `create_dir` has just made is empty, so on the
      `Some(p)` path the manifest check never finds a manifest. */
  lemma AlreadyExistsUnreachableInNewDirectory(dirs: set<Path>, files: map<Path, Contents>,
                                               faults: Faults, name: string, p: Path)
    requires Consistent(dirs, files)
    ensures NewSpec(dirs, files, faults, name, Some(p)).result != Err(AlreadyExists)
  {
  }

  /** The conditions under which `new(name, Some(p))` succeeds: `p` is new, its
      enclosing directories exist, and the OS hinders none of the steps. */
  lemma NewSucceedsInFreshDirectory(dirs: set<Path>, files: map<Path, Contents>,
                                    faults: Faults, name: string, p: Path)
    requires Consistent(dirs, files)
    requires p != "" && p !in dirs && p !in files && Ancestors(p) <= dirs
    requires p !in faults.refused
    requires ManifestPath(Some(p)) !in faults.refused && ManifestPath(Some(p)) !in faults.interrupted
    ensures NewSpec(dirs, files, faults, name, Some(p)) ==
              Outcome(Ok(()), dirs + {p}, files[p + "/" + ManifestFile := ManifestText(NewManifest(name))])
  {
  }

  /** `new(name, None)` in the current directory: AlreadyExists exactly when a
      file named `apollo.toml` is there, otherwise the write decides. */
  lemma NewInCurrentDirectory(dirs: set<Path>, files: map<Path, Contents>,
                              faults: Faults, name: string)
    ensures var o := NewSpec(dirs, files, faults, name, None);
            && o.dirs == dirs
            && (o.result == Err(AlreadyExists) <==> ManifestFile in files)
            && (ManifestFile !in files && ManifestFile !in dirs &&
                ManifestFile !in faults.refused && ManifestFile !in faults.interrupted ==>
                  o.result.Ok?)
            && (ManifestFile !in files && ManifestFile in dirs ==>
                  o.result == Err(WritingFile(IsADirectory)))
  {
  }

  /** A write that breaks off leaves a truncated `apollo.toml` behind, and
      running the same `new` again then fails without writing: `AlreadyExists`
      in the current directory, `CreatingDirectory(Exists)` for a directory. */
  lemma InterruptedWriteBlocksRetry(dirs: set<Path>, files: map<Path, Contents>,
                                    faults: Faults, name: string, path: Option<Path>)
    requires Consistent(dirs, files)
    requires NewSpec(dirs, files, faults, name, path).result.Err?
    requires NewSpec(dirs, files, faults, name, path).files != files
    ensures var o := NewSpec(dirs, files, faults, name, path);
            var again := NewSpec(o.dirs, o.files, faults, name, path);
            && o.files[ManifestPath(path)] == Truncated(ManifestText(NewManifest(name)))
            && again.result == (if path.None? then Err(AlreadyExists) else Err(CreatingDirectory(Exists)))
            && again.dirs == o.dirs && again.files == o.files
  {
  }

  /** `new` keeps the filesystem a tree. */
  lemma NewPreservesConsistency(dirs: set<Path>, files: map<Path, Contents>,
                                faults: Faults, name: string, path: Option<Path>)
    requires Consistent(dirs, files)
    ensures var o := NewSpec(dirs, files, faults, name, path);
            Consistent(o.dirs, o.files)
  {
  }

  /** `new(name, path)` against a filesystem, as the source runs it: each
      effect in turn, returning at the first failure. */
  method New(fs: FileSystem, name: string, path: Option<Path>) returns (r: Result<(), InitError>)
    requires fs.Valid()
    modifies fs
    ensures fs.Valid()
    ensures Outcome(r, fs.dirs, fs.files) == NewSpec(old(fs.dirs), old(fs.files), fs.faults, name, path)
    ensures path.Some? ==> r != Err(AlreadyExists)
    ensures forall f :: f in old(fs.files) ==> f in fs.files && fs.files[f] == old(fs.files)[f]
  {
    var target: Path;
    if path.Some? {
      AlreadyExistsUnreachableInNewDirectory(fs.dirs, fs.files, fs.faults, name, path.value);
      var created := fs.CreateDir(path.value);
      if created.Err? {
        return Err(CreatingDirectory(created.error));
      }
      target := path.value + "/" + ManifestFile;
    } else {
      target := ManifestFile;
    }
    var contents := NewManifest(name);
    var existing := fs.Read(target);
    if existing.Ok? {
      return Err(AlreadyExists);
    }
    var written := fs.Write(target, ManifestText(contents));
    if written.Err? {
      return Err(WritingFile(written.error));
    }
    return Ok(());
  }
}
