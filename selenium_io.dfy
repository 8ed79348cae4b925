/**
 * Temporary-file bookkeeping of WebDriver: a TemporaryFilesystem creates temporary
 * directories under a base directory, remembers each one, and deletes only those
 * it remembers, either one at a time or all together, unless the
 * "webdriver.reap_profile" property turns reaping off.
 *
 * The disk is an abstract set of existing paths.
 */
module SeleniumIo {
  import opened Wrappers

  type Path = string

  /** `p` is `dir` itself or lies beneath it. */
  predicate Under(p: Path, dir: Path)
  {
    p == dir || dir + "/" <= p
  }

  /** The paths of `paths` that deleting `dir` recursively removes. */
  function Subtree(paths: set<Path>, dir: Path): set<Path>
  {
    set p | p in paths && Under(p, dir)
  }

  datatype Failure =
    | WebDriverException(message: string)
    | IllegalArgumentException(message: string)
    | DeleteFailed(path: Path)  // FileHandler.delete threw

  /**
   * The file system as the temporary-file code sees it: which paths exist, which
   * are writable, and which cannot be deleted (deleting them throws).
   */
  class Disk {
    var paths: set<Path>
    var writable: set<Path>
    const undeletable: set<Path>

    constructor (paths: set<Path>, writable: set<Path>, undeletable: set<Path>)
      ensures this.paths == paths && this.writable == writable && this.undeletable == undeletable
    {
      this.paths := paths;
      this.writable := writable;
      this.undeletable := undeletable;
    }

    /** FileHandler.delete: removes `f` and everything beneath it, or throws and removes nothing. */
    method Delete(f: Path) returns (ok: bool)
      modifies this
      ensures ok == (f !in undeletable)
      ensures paths == if ok then old(paths) - Subtree(old(paths), f) else old(paths)
      ensures writable == old(writable)
    {
      ok := f !in undeletable;
      if ok {
        paths := paths - Subtree(paths, f);
      }
    }

    /**
     * File.mkdirs once the temporary file is gone. It answers false for a path that
     * already exists; otherwise `succeeds` is the file system's answer.
     */
    method MakeDirs(dir: Path, succeeds: bool) returns (ok: bool)
      modifies this
      ensures ok == (succeeds && Subtree(old(paths), dir) == {})
      ensures paths == if ok then old(paths) + {dir} else old(paths)
      ensures writable == old(writable)
    {
      ok := succeeds && Subtree(paths, dir) == {};
      if ok {
        paths := paths + {dir};
      }
    }
  }

  // ---------------------------------------------------------------------------
  // Construction and the reap switch
  // ---------------------------------------------------------------------------

  /**
   * Why a base directory is refused: it must exist, and then it must be writable;
   * a missing directory is reported as missing even when it is also not writable.
   */
  function BaseDirError(baseDir: Path, paths: set<Path>, writable: set<Path>): (e: Option<Failure>)
    ensures e == None <==> baseDir in paths && baseDir in writable
    ensures baseDir !in paths ==> e == Some(WebDriverException("Unable to find tmp dir: " + baseDir))
    ensures baseDir in paths && baseDir !in writable ==> e == Some(WebDriverException("Unable to write to tmp dir: " + baseDir))
  {
    if baseDir !in paths then Some(WebDriverException("Unable to find tmp dir: " + baseDir))
    else if baseDir !in writable then Some(WebDriverException("Unable to write to tmp dir: " + baseDir))
    else None
  }

  /** Character.toLowerCase on the letters that can match a letter of "true". */
  function ToLowerAscii(c: char): char
  {
    if 'A' <= c <= 'Z' then (c as int + 32) as char else c
  }

  predicate EqualsIgnoreCase(a: string, b: string)
  {
    |a| == |b| && forall i :: 0 <= i < |a| ==> ToLowerAscii(a[i]) == ToLowerAscii(b[i])
  }

  /** Boolean.valueOf(String): true only for a non-null "true" in any mix of cases. */
  predicate BooleanValueOf(s: Option<string>)
  {
    s.Some? && EqualsIgnoreCase(s.value, "true")
  }

  /** The sixteen spellings of "true". */
  predicate SpellsTrue(s: string)
  {
    |s| == 4 && s[0] in "tT" && s[1] in "rR" && s[2] in "uU" && s[3] in "eE"
  }

  /**
   * shouldReap: the "webdriver.reap_profile" property (`reapProfile`, null when
   * unset) read with default "true": reaping is on when the property is unset or
   * spells "true" in any case, and off for every other value.
   */
  function ShouldReap(reapProfile: Option<string>): (r: bool)
    ensures reapProfile == None ==> r
    ensures r <==> SpellsTrue(reapProfile.GetOr("true"))
  {
    BooleanValueOf(Some(reapProfile.GetOr("true")))
  }

  // ---------------------------------------------------------------------------
  // The bookkeeping, as functions of the tracked set and the disk
  // ---------------------------------------------------------------------------

  /** The tracked directories and the existing paths. */
  datatype TmpState = TmpState(tracked: set<Path>, paths: set<Path>)

  /** deleteTempDir(file): with reaping on, a tracked `file` is untracked and then deleted. */
  function AfterDeleteTempDir(s: TmpState, file: Path, reap: bool, undeletable: set<Path>): (t: TmpState)
    ensures t.tracked <= s.tracked && t.paths <= s.paths
    ensures t.tracked == s.tracked ==> t == s  // nothing is deleted unless the file was tracked
    ensures t.tracked != s.tracked ==> t.tracked == s.tracked - {file} && reap
  {
    if !reap || file !in s.tracked then s
    else TmpState(s.tracked - {file}, if file in undeletable then s.paths else s.paths - Subtree(s.paths, file))
  }

  /** A second deleteTempDir of the same file changes nothing. */
  lemma DeleteTempDirIdempotent(s: TmpState, file: Path, reap: bool, undeletable: set<Path>)
    ensures AfterDeleteTempDir(AfterDeleteTempDir(s, file, reap, undeletable), file, reap, undeletable)
         == AfterDeleteTempDir(s, file, reap, undeletable)
  {
  }

  /**
   * deleteTempDir touches nothing for an untracked file or with reaping off; otherwise
   * it untracks the file and removes nothing but the file's own subtree.
   */
  lemma DeleteTempDirOnlyTracked(s: TmpState, file: Path, reap: bool, undeletable: set<Path>)
    ensures var t := AfterDeleteTempDir(s, file, reap, undeletable);
      && (!reap || file !in s.tracked ==> t == s)
      && (reap && file in s.tracked ==> t.tracked == s.tracked - {file})
      && t.paths <= s.paths
      && (forall p :: p in s.paths && p !in t.paths ==> file in s.tracked && Under(p, file))
  {
  }

  /** `p` lies in a tracked directory that can be deleted. */
  predicate Reaped(p: Path, dirs: set<Path>, undeletable: set<Path>)
  {
    exists d :: d in dirs && d !in undeletable && Under(p, d)
  }

  /** The paths left after deleting every directory of `dirs`, each failure ignored. */
  function Sweep(paths: set<Path>, dirs: set<Path>, undeletable: set<Path>): (r: set<Path>)
    ensures r <= paths
    ensures dirs <= undeletable ==> r == paths
    ensures forall d :: d in dirs && d !in undeletable ==> Subtree(r, d) == {}
  {
    set p | p in paths && !Reaped(p, dirs, undeletable)
  }

  /** Each directory can be swept on its own, in any order: one more directory removes its subtree. */
  lemma SweepOneMore(paths: set<Path>, dirs: set<Path>, d: Path, undeletable: set<Path>)
    ensures Sweep(paths, dirs + {d}, undeletable)
         == if d in undeletable then Sweep(paths, dirs, undeletable)
            else Sweep(paths, dirs, undeletable) - Subtree(Sweep(paths, dirs, undeletable), d)
  {
    var before := Sweep(paths, dirs, undeletable);
    var after := Sweep(paths, dirs + {d}, undeletable);
    if d in undeletable {
      forall p | p in paths
        ensures Reaped(p, dirs + {d}, undeletable) == Reaped(p, dirs, undeletable)
      {
        if Reaped(p, dirs + {d}, undeletable) {
          var e :| e in dirs + {d} && e !in undeletable && Under(p, e);
          assert e in dirs;
        }
      }
    } else {
      forall p | p in paths
        ensures Reaped(p, dirs + {d}, undeletable) == (Reaped(p, dirs, undeletable) || Under(p, d))
      {
        if Reaped(p, dirs + {d}, undeletable) && !Under(p, d) {
          var e :| e in dirs + {d} && e !in undeletable && Under(p, e);
          assert e in dirs;
        }
      }
    }
  }

  /**
   * The sweep removes nothing outside the swept directories, and every sweepable
   * directory, with all beneath it, is gone afterwards.
   */
  lemma SweepRemovesExactlyTracked(paths: set<Path>, dirs: set<Path>, undeletable: set<Path>)
    ensures Sweep(paths, dirs, undeletable) <= paths
    ensures forall p :: p in paths && p !in Sweep(paths, dirs, undeletable) ==>
      exists d :: d in dirs && d !in undeletable && Under(p, d)
    ensures forall d, p :: d in dirs && d !in undeletable && p in paths && Under(p, d) ==>
      p !in Sweep(paths, dirs, undeletable)
  {
  }

  // ---------------------------------------------------------------------------
  // The temporary file system
  // ---------------------------------------------------------------------------

  class TemporaryFilesystem {
    const baseDir: Path
    const disk: Disk
    var temporaryFiles: set<Path>
    ghost var created: set<Path>  // every directory CreateTempDir has returned

    /** Only directories this instance created are tracked. */
    ghost predicate Valid()
      reads this
    {
      temporaryFiles <= created
    }

    constructor Private(baseDir: Path, disk: Disk)
      ensures this.baseDir == baseDir && this.disk == disk
      ensures temporaryFiles == {} && created == {} && Valid()
    {
      this.baseDir := baseDir;
      this.disk := disk;
      temporaryFiles := {};
      created := {};
    }

    /** getTmpFsBasedOn: a new instance over `directory`, which must exist and be writable. */
    static method GetTmpFsBasedOn(directory: Path, disk: Disk) returns (r: Result<TemporaryFilesystem, Failure>)
      ensures r.Failure? <==> BaseDirError(directory, disk.paths, disk.writable).Some?
      ensures r.Failure? ==> Some(r.error) == BaseDirError(directory, disk.paths, disk.writable)
      ensures r.Success? ==> fresh(r.value) && r.value.baseDir == directory && r.value.disk == disk
      ensures r.Success? ==> r.value.temporaryFiles == {} && r.value.created == {} && r.value.Valid()
    {
      if directory !in disk.paths {
        return Failure(WebDriverException("Unable to find tmp dir: " + directory));
      }
      if directory !in disk.writable {
        return Failure(WebDriverException("Unable to write to tmp dir: " + directory));
      }
      var fs := new TemporaryFilesystem.Private(directory, disk);
      r := Success(fs);
    }

    /**
     * Creates a fresh directory in the base directory and tracks it. File.createTempFile
     * is an oracle: `tempName` is the unique part of the name it picks, None when it
     * throws an IOException; `mkdirsOk` is what File.mkdirs answers for a path that
     * does not exist yet. The directory returned did not exist before, nor did
     * anything beneath it.
     */
    method CreateTempDir(prefix: string, suffix: Option<string>, tempName: Option<string>, mkdirsOk: bool)
      returns (r: Result<Path, Failure>)
      modifies this, disk
      ensures r == TempDirOutcome(baseDir, old(disk.paths), prefix, suffix, tempName, mkdirsOk)
      ensures r.Success? ==> Subtree(old(disk.paths), r.value) == {}
      ensures r.Success? ==> temporaryFiles == old(temporaryFiles) + {r.value} && created == old(created) + {r.value}
      ensures r.Success? ==> disk.paths == old(disk.paths) + {r.value}
      ensures r.Failure? ==> temporaryFiles == old(temporaryFiles) && created == old(created) && disk.paths == old(disk.paths)
      ensures disk.writable == old(disk.writable)
      ensures old(Valid()) ==> Valid()
    {
      if Utf16Length(prefix) < 3 {
        return Failure(IllegalArgumentException("Prefix string too short"));
      }
      if tempName == None {
        return Failure(WebDriverException("Unable to create temporary file at " + baseDir));
      }
      // the temporary file is created and deleted again at once: no net effect on the disk
      var dir := TempFilePath(baseDir, prefix, suffix, tempName.value);
      var made := disk.MakeDirs(dir, mkdirsOk);
      if !made {
        return Failure(WebDriverException("Cannot create profile directory at " + dir));
      }
      temporaryFiles := temporaryFiles + {dir};
      created := created + {dir};
      r := Success(dir);
    }

    /** Deletes `file` only if this instance tracks it, untracking it first; nothing at all with reaping off. */
    method DeleteTempDir(file: Path, reapProfile: Option<string>) returns (r: Result<(), Failure>)
      modifies this, disk
      ensures TmpState(temporaryFiles, disk.paths)
           == AfterDeleteTempDir(TmpState(old(temporaryFiles), old(disk.paths)), file, ShouldReap(reapProfile), disk.undeletable)
      ensures r.Failure? <==> ShouldReap(reapProfile) && file in old(temporaryFiles) && file in disk.undeletable
      ensures r.Failure? ==> r.error == DeleteFailed(file)
      ensures created == old(created) && disk.writable == old(disk.writable)
      ensures old(Valid()) ==> Valid()
      ensures old(Valid()) && disk.paths != old(disk.paths) ==> file in created
    {
      if !ShouldReap(reapProfile) {
        return Success(());
      }
      if file in temporaryFiles {
        temporaryFiles := temporaryFiles - {file};
        var deleted := disk.Delete(file);
        if !deleted {
          return Failure(DeleteFailed(file));
        }
      }
      r := Success(());
    }

    /** The shutdown sweep: tries to delete every tracked directory, ignoring failures, and keeps them all tracked. */
    method DeleteTemporaryFiles(reapProfile: Option<string>)
      modifies disk
      ensures disk.paths == if ShouldReap(reapProfile) then Sweep(old(disk.paths), temporaryFiles, disk.undeletable) else old(disk.paths)
      ensures temporaryFiles == old(temporaryFiles) && disk.writable == old(disk.writable)
    {
      if !ShouldReap(reapProfile) {
        return;
      }
      var pending := temporaryFiles;
      assert temporaryFiles - pending == {};
      assert Sweep(disk.paths, {}, disk.undeletable) == disk.paths;
      while pending != {}
        invariant pending <= temporaryFiles
        invariant disk.paths == Sweep(old(disk.paths), temporaryFiles - pending, disk.undeletable)
        invariant disk.writable == old(disk.writable)
        decreases pending
      {
        var file :| file in pending;
        SweepOneMore(old(disk.paths), temporaryFiles - pending, file, disk.undeletable);
        assert (temporaryFiles - pending) + {file} == temporaryFiles - (pending - {file});
        var _ := disk.Delete(file);  // a failure is ignored
        pending := pending - {file};
      }
      assert temporaryFiles - pending == temporaryFiles;
    }
  }

  /**
   * String.length: the number of UTF-16 code units, two for a character outside the
   * Basic Multilingual Plane and one for any other.
   */
  function Utf16Length(s: string): (n: nat)
    ensures |s| <= n <= 2 * |s|
    ensures (forall i :: 0 <= i < |s| ==> s[i] as int < 0x1_0000) ==> n == |s|
  {
    if s == [] then 0 else (if s[0] as int >= 0x1_0000 then 2 else 1) + Utf16Length(s[1..])
  }

  /** Two emoji make a prefix of Java length 4, long enough for File.createTempFile. */
  lemma SupplementaryPrefixLongEnough()
    ensures Utf16Length("\U{1F600}\U{1F600}") == 4
    ensures TempDirOutcome("/tmp", {"/tmp"}, "\U{1F600}\U{1F600}", None, Some("1"), true).Success?
  {
    var p := "\U{1F600}\U{1F600}";
    assert p[1..][1..] == [];
    var dir := TempFilePath("/tmp", p, None, "1");
    assert !Under("/tmp", dir) by {
      assert |dir| > |"/tmp"|;
    }
    assert Subtree({"/tmp"}, dir) == {};
  }

  /** Where File.createTempFile puts its file: the base directory, the prefix, the unique part, the suffix (".tmp" when null). */
  function TempFilePath(baseDir: Path, prefix: string, suffix: Option<string>, tempName: string): Path
  {
    baseDir + "/" + prefix + tempName + suffix.GetOr(".tmp")
  }

  /** A created directory lies strictly inside the base directory. */
  lemma TempDirInsideBaseDir(baseDir: Path, paths: set<Path>, prefix: string, suffix: Option<string>,
                             tempName: Option<string>, mkdirsOk: bool)
    ensures var r := TempDirOutcome(baseDir, paths, prefix, suffix, tempName, mkdirsOk);
      r.Success? ==> Under(r.value, baseDir) && r.value != baseDir
  {
    var r := TempDirOutcome(baseDir, paths, prefix, suffix, tempName, mkdirsOk);
    if r.Success? {
      var rest := prefix + tempName.value + suffix.GetOr(".tmp");
      assert r.value == (baseDir + "/") + rest;
    }
  }

  /**
   * What CreateTempDir returns or throws on a disk holding `paths`: it succeeds
   * exactly when the prefix is long enough, the temporary file can be made, and
   * mkdirs creates a directory that did not exist before.
   */
  function TempDirOutcome(baseDir: Path, paths: set<Path>, prefix: string, suffix: Option<string>,
                          tempName: Option<string>, mkdirsOk: bool): (r: Result<Path, Failure>)
    ensures r.Success? <==> Utf16Length(prefix) >= 3 && tempName.Some? && mkdirsOk
                            && Subtree(paths, TempFilePath(baseDir, prefix, suffix, tempName.value)) == {}
    ensures r.Success? ==> r.value == TempFilePath(baseDir, prefix, suffix, tempName.value) && Subtree(paths, r.value) == {}
    ensures Utf16Length(prefix) < 3 ==> r == Failure(IllegalArgumentException("Prefix string too short"))
  {
    if Utf16Length(prefix) < 3 then Failure(IllegalArgumentException("Prefix string too short"))
    else if tempName == None then Failure(WebDriverException("Unable to create temporary file at " + baseDir))
    else
      var dir := TempFilePath(baseDir, prefix, suffix, tempName.value);
      if !mkdirsOk || Subtree(paths, dir) != {} then Failure(WebDriverException("Cannot create profile directory at " + dir))
      else Success(dir)
  }

  /** Nothing exists at or beneath "/tmp/profile42.tmp" on a disk holding only "/tmp" and "/data". */
  lemma NameIsUnused()
    ensures Subtree({"/tmp", "/data"}, "/tmp/profile42.tmp") == {}
  {
    assert !Under("/tmp", "/tmp/profile42.tmp");
    assert !Under("/data", "/tmp/profile42.tmp") by {
      assert "/data"[1] != ("/tmp/profile42.tmp" + "/")[1];
    }
  }

  /**
   * Create a directory, delete it twice, and ask to delete a directory this instance
   * did not create: the created one goes, the second call changes nothing, the
   * foreign one stays.
   */
  method DeleteOnlyOwnScenario() returns (createdExists: bool, createdGone: bool, foreignKept: bool, stillTracked: nat)
    ensures createdExists && createdGone && foreignKept && stillTracked == 0
  {
    var disk := new Disk({"/tmp", "/data"}, {"/tmp"}, {});
    var made := TemporaryFilesystem.GetTmpFsBasedOn("/tmp", disk);
    if made.Failure? {
      assert false;
      return;
    }
    var fs := made.value;
    NameIsUnused();
    assert TempFilePath("/tmp", "profile", None, "42") == "/tmp/profile42.tmp";
    var r := fs.CreateTempDir("profile", None, Some("42"), true);
    if r.Failure? {
      assert false;
      return;
    }
    var dir := r.value;
    assert dir == "/tmp/profile42.tmp";
    createdExists := dir in disk.paths;
    var _ := fs.DeleteTempDir(dir, None);
    var again := disk.paths;
    var _ := fs.DeleteTempDir(dir, None);
    assert disk.paths == again;
    assert !Under("/data", dir);
    var _ := fs.DeleteTempDir("/data", Some("TRUE"));
    createdGone := dir !in disk.paths;
    foreignKept := "/data" in disk.paths;
    stillTracked := |fs.temporaryFiles|;
  }

  /**
   * A name that already exists on disk is never handed out: mkdirs refuses it, the
   * call throws, nothing is tracked, and what was there survives a later deleteTempDir.
   */
  method ExistingDirRefusedScenario() returns (refused: bool, tracked: nat, kept: bool)
    ensures refused && tracked == 0 && kept
  {
    var disk := new Disk({"/tmp", "/tmp/profile42.tmp", "/tmp/profile42.tmp/user-data"}, {"/tmp"}, {});
    var made := TemporaryFilesystem.GetTmpFsBasedOn("/tmp", disk);
    if made.Failure? {
      assert false;
      return;
    }
    var fs := made.value;
    assert TempFilePath("/tmp", "profile", None, "42") == "/tmp/profile42.tmp";
    assert "/tmp/profile42.tmp" in Subtree(disk.paths, "/tmp/profile42.tmp");
    var r := fs.CreateTempDir("profile", None, Some("42"), true);
    refused := r.Failure?;
    assert fs.temporaryFiles == {};
    var _ := fs.DeleteTempDir("/tmp/profile42.tmp", None);
    tracked := |fs.temporaryFiles|;
    kept := "/tmp/profile42.tmp/user-data" in disk.paths;
  }
}
