/** An abstract directory: a map from path to file contents, with the three
    operating-system calls the persistence code uses (write, unlink,
    rename), and the "safe dump" pattern built from them. */
module FileStores {
  import opened Wrappers

  newtype byte = x: int | 0 <= x < 256
  type Bytes = seq<byte>

  /** What `pickle.load` gives for some bytes: the object, an ImportError
      (or ModuleNotFoundError) for a class it cannot find, or any other
      error, such as a corrupt or truncated pickle. */
  datatype Unpickled<T> = Loaded(value: T) | ImportFailure | OtherFailure

  /** The bytes of an ASCII string literal such as b'citchat'. */
  function AsciiBytes(s: string): (r: Bytes)
    requires forall i | 0 <= i < |s| :: s[i] as int < 256
    ensures |r| == |s| && forall i | 0 <= i < |s| :: r[i] as int == s[i] as int
  {
    seq(|s|, i requires 0 <= i < |s| => s[i] as int as byte)
  }

  datatype OsError = FileNotFound

  /** The name the safe dump writes to first: `f"{path}.{token}"`. */
  function TempPath(path: string, token: string): (t: string)
    ensures t != path
  {
    assert |path + "." + token| > |path|;
    path + "." + token
  }

  class FileStore {
    var files: map<string, Bytes>
    /** Every state the directory has been in, oldest first. */
    ghost var history: seq<map<string, Bytes>>

    constructor (init: map<string, Bytes>)
      ensures files == init && history == [init]
    {
      files := init;
      history := [init];
    }

    /** `os.path.exists(p)`. */
    method Exists(p: string) returns (b: bool)
      ensures b <==> p in files
    {
      b := p in files;
    }

    /** `open(p, 'rb').read()`. */
    method Read(p: string) returns (r: Result<Bytes, OsError>)
      ensures p in files ==> r == Ok(files[p])
      ensures p !in files ==> r == Err(FileNotFound)
    {
      if p in files {
        r := Ok(files[p]);
      } else {
        r := Err(FileNotFound);
      }
    }

    /** `open(p, 'wb').write(data)`: creates or truncates. */
    method Write(p: string, data: Bytes)
      modifies this
      ensures files == old(files)[p := data]
      ensures history == old(history) + [files]
    {
      files := files[p := data];
      history := history + [files];
    }

    /** `os.unlink(p)`. */
    method Unlink(p: string) returns (e: Option<OsError>)
      modifies this
      ensures p in old(files) ==> e == None && files == old(files) - {p} && history == old(history) + [files]
      ensures p !in old(files) ==> e == Some(FileNotFound) && unchanged(this)
    {
      if p !in files {
        return Some(FileNotFound);
      }
      files := files - {p};
      history := history + [files];
      e := None;
    }

    /** `os.rename(src, dst)`: replaces `dst` when it exists. */
    method Rename(src: string, dst: string) returns (e: Option<OsError>)
      modifies this
      ensures src in old(files) ==> e == None && files == (old(files) - {src})[dst := old(files)[src]] && history == old(history) + [files]
      ensures src !in old(files) ==> e == Some(FileNotFound) && unchanged(this)
    {
      if src !in files {
        return Some(FileNotFound);
      }
      files := (files - {src})[dst := files[src]];
      history := history + [files];
      e := None;
    }
  }

  /** The directory after a safe dump of `data` to `path`. */
  function Dumped(files: map<string, Bytes>, path: string, token: string, data: Bytes): (r: map<string, Bytes>)
    ensures path in r && r[path] == data
    ensures path in files ==> TempPath(path, token) !in r
    ensures forall p | p != path && p != TempPath(path, token) :: (p in r <==> p in files) && (p in r ==> r[p] == files[p])
  {
    if path in files then (files - {TempPath(path, token)})[path := data] else files[path := data]
  }

  /** The safe dump shared by the session file and the identity map: an
      absent file is written directly; an existing one is replaced by
      writing a temporary file, unlinking the original and renaming the
      temporary file over it. The replacement is not atomic: there is a
      state in which the canonical path does not exist and the new record is
      only under the temporary name. */
  method SafeDump(fs: FileStore, path: string, token: string, data: Bytes)
    modifies fs
    ensures fs.files == Dumped(old(fs.files), path, token, data)
    ensures path in old(fs.files) ==>
      && |fs.history| == |old(fs.history)| + 3
      && path !in fs.history[|old(fs.history)| + 1]
      && TempPath(path, token) in fs.history[|old(fs.history)| + 1]
      && fs.history[|old(fs.history)| + 1][TempPath(path, token)] == data
  {
    var present := fs.Exists(path);
    if !present {
      fs.Write(path, data);
    } else {
      var temp := TempPath(path, token);
      fs.Write(temp, data);
      var _ := fs.Unlink(path);
      var _ := fs.Rename(temp, path);
    }
  }
}
