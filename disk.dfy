/**
 * The part of the file system the scripts touch, and the four `fs` calls they
 * make on it: `existsSync`, `readFileSync`, `copyFileSync`, `mkdirSync` with
 * `recursive: true`, and `writeFileSync`. Each call is a pure step on a
 * `Disk` value; the class `FileSystem` holds the same state in mutable fields
 * and performs the steps in place.
 */
module Disk {
  import opened Results
  import opened Paths

  /** The errors a call can throw, by errno. */
  datatype FsError =
    | NoSuchFile(path: string)           // ENOENT
    | IsADirectory(path: string)         // EISDIR
    | NotADirectory(path: string)        // ENOTDIR
    | AlreadyExists(path: string)        // EEXIST
    | Refused(path: string, code: string) // EACCES, ENOSPC, EROFS, ...: decided by the environment

  /** Regular files with their text, and the directories that exist. */
  datatype Disk = Disk(files: map<string, string>, dirs: set<string>)

  /**
   * Failures the environment raises at each step of one request (permission
   * denied, disk full, ...), given as an error code; None means the step is
   * not obstructed by anything but the state of the disk itself.
   * `configProbe` and `dirProbe` obstruct the two `existsSync` checks, of the
   * config file and of its directory: `existsSync` swallows the error and
   * answers false.
   */
  datatype Faults = Faults(configProbe: Option<string>, dirProbe: Option<string>,
                           read: Option<string>, copy: Option<string>, mkdir: Option<string>, write: Option<string>)

  /** No path is both a file and a directory, and every file sits in an existing directory. */
  predicate Consistent(d: Disk)
  {
    && d.files.Keys !! d.dirs
    && forall p :: p in d.files ==> Dirname(p) in d.dirs
  }

  /** `p` is a file or a directory on the disk. */
  predicate Exists(d: Disk, p: string)
  {
    p in d.files || p in d.dirs
  }

  /**
   * `fs.existsSync(p)`: never throws; an error while checking (no search
   * permission on a parent, say) reads as "does not exist".
   */
  predicate ExistsStep(d: Disk, p: string, fault: Option<string>)
  {
    fault.None? && Exists(d, p)
  }

  /**
   * A regular file stands where a directory above `p` has to be: at its
   * parent, or at any ancestor higher up.
   */
  predicate UnderFile(d: Disk, p: string)
  {
    Dirname(p) in d.files || exists q :: q in d.files && q + "/" <= p
  }

  /** `fs.readFileSync(p, 'utf8')` */
  function ReadStep(d: Disk, p: string, fault: Option<string>): (r: Result<string, FsError>)
    ensures r.Success? <==> p in d.files && p !in d.dirs && fault.None?
    ensures r.Success? ==> r.value == d.files[p]
  {
    if p !in d.files && p !in d.dirs then Failure(NoSuchFile(p))
    else if fault.Some? then Failure(Refused(p, fault.value))
    else if p in d.dirs then Failure(IsADirectory(p))
    else Success(d.files[p])
  }

  /** `fs.copyFileSync(src, dst)`: overwrites `dst` with the text of `src`. */
  function CopyStep(d: Disk, src: string, dst: string, fault: Option<string>): (r: Result<Disk, FsError>)
    ensures r.Success? ==> r.value.dirs == d.dirs && src in d.files
    ensures r.Success? ==> r.value.files == d.files[dst := d.files[src]]
    ensures Consistent(d) && r.Success? ==> Consistent(r.value)
  {
    if src !in d.files && src !in d.dirs then Failure(NoSuchFile(src))
    else if fault.Some? then Failure(Refused(dst, fault.value))
    else if src in d.dirs then Failure(IsADirectory(src))
    else if dst in d.dirs then Failure(IsADirectory(dst))
    else if Dirname(dst) in d.files then Failure(NotADirectory(dst))
    else if Dirname(dst) !in d.dirs then Failure(NoSuchFile(dst))
    else Success(Disk(d.files[dst := d.files[src]], d.dirs))
  }

  /**
   * `fs.mkdirSync(p, { recursive: true })`: an existing directory is no error,
   * a file at `p` (EEXIST) or at any directory above it (ENOTDIR) is. Only
   * `p` itself is recorded; the intermediate directories it would also
   * create are not tracked.
   */
  function MkdirStep(d: Disk, p: string, fault: Option<string>): (r: Result<Disk, FsError>)
    ensures r.Success? <==> p !in d.files && !UnderFile(d, p) && fault.None?
    ensures r.Success? ==> r.value == Disk(d.files, d.dirs + {p})
    ensures Consistent(d) && r.Success? ==> Consistent(r.value)
  {
    if p in d.files then Failure(AlreadyExists(p))
    else if UnderFile(d, p) then Failure(NotADirectory(p))
    else if fault.Some? then Failure(Refused(p, fault.value))
    else Success(Disk(d.files, d.dirs + {p}))
  }

  /** `fs.writeFileSync(p, text)`: creates or truncates `p`; its directory must exist. */
  function WriteStep(d: Disk, p: string, text: string, fault: Option<string>): (r: Result<Disk, FsError>)
    ensures r.Success? <==> p !in d.dirs && Dirname(p) in d.dirs && Dirname(p) !in d.files && fault.None?
    ensures r.Success? ==> r.value == Disk(d.files[p := text], d.dirs)
    ensures Consistent(d) && r.Success? ==> Consistent(r.value)
  {
    if p in d.dirs then Failure(IsADirectory(p))
    else if Dirname(p) in d.files then Failure(NotADirectory(p))
    else if Dirname(p) !in d.dirs then Failure(NoSuchFile(p))
    else if fault.Some? then Failure(Refused(p, fault.value))
    else Success(Disk(d.files[p := text], d.dirs))
  }

  /** A call that returned `err` took the disk from `before` to `after` as `step` says. */
  predicate Took(step: Result<Disk, FsError>, err: Option<FsError>, before: Disk, after: Disk)
  {
    match step
    case Success(next) => err == None && after == next
    case Failure(e) => err == Some(e) && after == before
  }

  /** The shared file state both scripts act on. */
  class FileSystem {
    var files: map<string, string>
    var dirs: set<string>

    function State(): Disk
      reads this
    {
      Disk(files, dirs)
    }

    ghost predicate Valid()
      reads this
    {
      Consistent(State())
    }

    constructor (initial: Disk)
      requires Consistent(initial)
      ensures Valid() && State() == initial
    {
      files := initial.files;
      dirs := initial.dirs;
    }

    predicate ExistsSync(p: string, fault: Option<string>)
      reads this
      ensures ExistsSync(p, fault) == ExistsStep(State(), p, fault)
    {
      ExistsStep(State(), p, fault)
    }

    method ReadFileSync(p: string, fault: Option<string>) returns (r: Result<string, FsError>)
      ensures r == ReadStep(State(), p, fault)
    {
      if p !in files && p !in dirs {
        return Failure(NoSuchFile(p));
      }
      if fault.Some? {
        return Failure(Refused(p, fault.value));
      }
      if p in dirs {
        return Failure(IsADirectory(p));
      }
      r := Success(files[p]);
    }

    method CopyFileSync(src: string, dst: string, fault: Option<string>) returns (err: Option<FsError>)
      requires Valid()
      modifies this
      ensures Valid()
      ensures Took(CopyStep(old(State()), src, dst, fault), err, old(State()), State())
    {
      if src !in files && src !in dirs {
        return Some(NoSuchFile(src));
      }
      if fault.Some? {
        return Some(Refused(dst, fault.value));
      }
      if src in dirs {
        return Some(IsADirectory(src));
      }
      if dst in dirs {
        return Some(IsADirectory(dst));
      }
      var parent := Dirname(dst);
      if parent in files {
        return Some(NotADirectory(dst));
      }
      if parent !in dirs {
        return Some(NoSuchFile(dst));
      }
      files := files[dst := files[src]];
      err := None;
    }

    method MkdirSync(p: string, fault: Option<string>) returns (err: Option<FsError>)
      requires Valid()
      modifies this
      ensures Valid()
      ensures Took(MkdirStep(old(State()), p, fault), err, old(State()), State())
    {
      if p in files {
        return Some(AlreadyExists(p));
      }
      if UnderFile(State(), p) {
        return Some(NotADirectory(p));
      }
      if fault.Some? {
        return Some(Refused(p, fault.value));
      }
      dirs := dirs + {p};
      err := None;
    }

    method WriteFileSync(p: string, text: string, fault: Option<string>) returns (err: Option<FsError>)
      requires Valid()
      modifies this
      ensures Valid()
      ensures Took(WriteStep(old(State()), p, text, fault), err, old(State()), State())
    {
      if p in dirs {
        return Some(IsADirectory(p));
      }
      var parent := Dirname(p);
      if parent in files {
        return Some(NotADirectory(p));
      }
      if parent !in dirs {
        return Some(NoSuchFile(p));
      }
      if fault.Some? {
        return Some(Refused(p, fault.value));
      }
      files := files[p := text];
      err := None;
    }
  }
}
