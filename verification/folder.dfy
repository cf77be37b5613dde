/**
 * `read_folder` of the document server: a top-down walk of a directory
 * tree that skips ignored directories, keeps `.md`/`.txt` files, and
 * concatenates their text under per-file headers, with a cap of 30 files
 * and a 50000-character check on the accumulated text plus the next file.
 */
module Folder {
  import opened Text

  const MaxFiles: nat := 30
  const MaxChars: nat := 50000
  const IgnoredDirs: set<string> := {".git", ".github", "translations", "images", "node_modules", ".devcontainer", "solution"}

  /** A directory as `os.walk` lists it: its file names and its subdirectories, in listing order. */
  datatype Dir = Dir(name: string, files: seq<string>, subdirs: seq<Dir>)

  /**
   * The file system as the document server sees it: the paths that exist,
   * the tree under each directory path, what `urllib.parse.unquote` makes
   * of a path, and what the pdf, docx and text readers return for a path
   * (their own error messages included).
   */
  datatype Disk = Disk(
    present: set<string>,
    dirs: map<string, Dir>,
    unquote: string -> string,
    pdf: string -> string,
    docx: string -> string,
    text: string -> string)

  /** The `(root, files)` pairs `os.walk` yields top-down from `d` at `root`, ignored subdirectories pruned. */
  function Walk(root: string, d: Dir): (levels: seq<(string, seq<string>)>)
    ensures |levels| >= 1 && levels[0] == (root, d.files)
    decreases d
  {
    [(root, d.files)] + WalkSubdirs(root, d.subdirs)
  }

  function WalkSubdirs(root: string, ds: seq<Dir>): seq<(string, seq<string>)>
    decreases ds
  {
    if ds == [] then []
    else (if ds[0].name in IgnoredDirs then [] else Walk(PathJoin(root, ds[0].name), ds[0])) + WalkSubdirs(root, ds[1..])
  }

  /** The number of directories reachable from `d` without entering an ignored one, `d` included. */
  function Visible(d: Dir): nat
    decreases d
  {
    1 + VisibleIn(d.subdirs)
  }

  function VisibleIn(ds: seq<Dir>): nat
    decreases ds
  {
    if ds == [] then 0 else (if ds[0].name in IgnoredDirs then 0 else Visible(ds[0])) + VisibleIn(ds[1..])
  }

  /** The walk visits each non-ignored directory exactly once and never descends into an ignored one. */
  lemma {:induction false} WalkVisitsVisible(root: string, d: Dir)
    ensures |Walk(root, d)| == Visible(d)
    decreases d, 1
  {
    WalkSubdirsVisitsVisible(root, d.subdirs);
  }

  lemma {:induction false} WalkSubdirsVisitsVisible(root: string, ds: seq<Dir>)
    ensures |WalkSubdirs(root, ds)| == VisibleIn(ds)
    decreases ds, 0
  {
    if ds != [] {
      if ds[0].name !in IgnoredDirs {
        WalkVisitsVisible(PathJoin(root, ds[0].name), ds[0]);
      }
      WalkSubdirsVisitsVisible(root, ds[1..]);
    }
  }

  /** `os.path.splitext(file)[1].lower() in [".md", ".txt"]` */
  predicate Wanted(file: string)
  {
    Lower(Ext(file)) in {".md", ".txt"}
  }

  /**
   * The files of one directory that `keep` accepts, as (name,
   * `os.path.join(root, name)`), in order; `read_folder` keeps the `Wanted` ones.
   */
  function Picks(keep: string -> bool, root: string, files: seq<string>): seq<(string, string)>
  {
    if files == [] then []
    else
      var last := files[|files| - 1];
      Picks(keep, root, files[..|files| - 1]) + (if keep(last) then [(last, PathJoin(root, last))] else [])
  }

  /** The accepted files of a walk, in visiting order. */
  function Eligible(keep: string -> bool, levels: seq<(string, seq<string>)>): seq<(string, string)>
  {
    if levels == [] then []
    else Eligible(keep, levels[..|levels| - 1]) + Picks(keep, levels[|levels| - 1].0, levels[|levels| - 1].1)
  }

  /** Each pick is an accepted file of the directory, paired with its joined path. */
  lemma {:induction false} PicksKept(keep: string -> bool, root: string, files: seq<string>)
    ensures |Picks(keep, root, files)| <= |files|
    ensures forall k :: 0 <= k < |Picks(keep, root, files)| ==>
              var e := Picks(keep, root, files)[k];
              keep(e.0) && e.0 in files && e.1 == PathJoin(root, e.0)
  {
    if files != [] {
      var init := files[..|files| - 1];
      PicksKept(keep, root, init);
      forall k | 0 <= k < |Picks(keep, root, files)|
        ensures var e := Picks(keep, root, files)[k];
                keep(e.0) && e.0 in files && e.1 == PathJoin(root, e.0)
      {
        if k < |Picks(keep, root, init)| {
          assert Picks(keep, root, files)[k] == Picks(keep, root, init)[k];
          assert Picks(keep, root, init)[k].0 in init;
        }
      }
    }
  }

  /** Every file a walk yields as eligible is accepted. */
  lemma {:induction false} EligibleKept(keep: string -> bool, levels: seq<(string, seq<string>)>)
    ensures forall k :: 0 <= k < |Eligible(keep, levels)| ==> keep(Eligible(keep, levels)[k].0)
  {
    if levels != [] {
      var init := levels[..|levels| - 1];
      var last := levels[|levels| - 1];
      EligibleKept(keep, init);
      PicksKept(keep, last.0, last.1);
      var all, before, here := Eligible(keep, levels), Eligible(keep, init), Picks(keep, last.0, last.1);
      assert all == before + here;
      forall k | 0 <= k < |all|
        ensures keep(all[k].0)
      {
        if k < |before| {
          assert all[k] == before[k];
        } else {
          assert all[k] == here[k - |before|];
        }
      }
    }
  }

  lemma {:induction false} PicksPrefix(keep: string -> bool, root: string, files: seq<string>, k: nat)
    requires k <= |files|
    ensures Picks(keep, root, files[..k]) <= Picks(keep, root, files)
    decreases |files| - k
  {
    if k < |files| {
      PicksPrefix(keep, root, files, k + 1);
      assert files[..k + 1][..k] == files[..k];
    } else {
      assert files[..k] == files;
    }
  }

  lemma {:induction false} EligiblePrefix(keep: string -> bool, levels: seq<(string, seq<string>)>, i: nat)
    requires i <= |levels|
    ensures Eligible(keep, levels[..i]) <= Eligible(keep, levels)
    decreases |levels| - i
  {
    if i < |levels| {
      EligiblePrefix(keep, levels, i + 1);
      assert levels[..i + 1][..i] == levels[..i];
    } else {
      assert levels[..i] == levels;
    }
  }

  /** The line that introduces a file's text: its name and its joined path. */
  function FileHeader(file: string, filePath: string): string
  {
    "\n\n=== FILE: " + file + " (" + filePath + ") ===\n\n"
  }

  /** The header and text one file contributes. */
  function Block(disk: Disk, e: (string, string)): string
  {
    FileHeader(e.0, e.1) + disk.text(e.1)
  }

  /** The blocks of `es`, concatenated in order. */
  function Combined(disk: Disk, es: seq<(string, string)>): string
  {
    if es == [] then "" else Combined(disk, es[..|es| - 1]) + Block(disk, es[|es| - 1])
  }

  /** The `j`-th wanted file passes the size check: the text gathered before it plus its content is at most 50000 characters. */
  predicate Fits(disk: Disk, es: seq<(string, string)>, j: nat)
    requires j < |es|
  {
    |Combined(disk, es[..j])| + |disk.text(es[j].1)| <= MaxChars
  }

  /** The first of the wanted files `j..n-1` that fails the size check, or `n` when all pass. */
  function FirstMiss(disk: Disk, es: seq<(string, string)>, j: nat, n: nat): (r: nat)
    requires j <= n <= |es|
    ensures j <= r <= n
    decreases n - j
  {
    if j == n then n else if !Fits(disk, es, j) then j else FirstMiss(disk, es, j + 1, n)
  }

  /** Every file before the first miss passes the size check, and the miss itself fails it. */
  lemma {:induction false} FirstMissSpec(disk: Disk, es: seq<(string, string)>, j: nat, n: nat)
    requires j <= n <= |es|
    ensures forall i :: j <= i < FirstMiss(disk, es, j, n) ==> Fits(disk, es, i)
    ensures FirstMiss(disk, es, j, n) < n ==> !Fits(disk, es, FirstMiss(disk, es, j, n))
    decreases n - j
  {
    if j < n && Fits(disk, es, j) {
      FirstMissSpec(disk, es, j + 1, n);
    }
  }

  function Missing(path: string): string
  {
    "目录不存在: " + path
  }

  function NoDocuments(path: string): string
  {
    "目录 " + path + " 下没有找到支持的文档文件 (['.md', '.txt']) (已忽略 translations 等目录)。"
  }

  const LimitNotice := "\n\n[系统提示] 已达到最大字符数限制 (50000)，停止读取更多文件。"

  function TruncatedHeader(path: string, count: nat): string
  {
    "已成功读取目录 " + path + " 下的前 " + NatToString(count) + " 个文件 (因达到字符限制已截断)。\n"
  }

  function Truncated(path: string, count: nat, combined: string): string
  {
    TruncatedHeader(path, count) + combined + LimitNotice
  }

  function CompleteHeader(path: string, count: nat): string
  {
    "已成功读取目录 " + path + " 下的前 " + NatToString(count) + " 个文件 (总文件数可能更多，但为防止上下文溢出已截断)。\n"
  }

  function Complete(path: string, count: nat, combined: string): string
  {
    CompleteHeader(path, count) + combined
  }

  /** What `os.walk(path)` yields: nothing when `path` is not a directory. */
  function LevelsAt(disk: Disk, path: string): seq<(string, seq<string>)>
  {
    if path in disk.dirs then Walk(path, disk.dirs[path]) else []
  }

  /** The wanted files under `path`, in walk order. */
  function Found(disk: Disk, path: string): seq<(string, string)>
  {
    Eligible(Wanted, LevelsAt(disk, path))
  }

  /** Every file `read_folder` considers has a `.md` or `.txt` extension, in any letter case. */
  lemma FoundWanted(disk: Disk, path: string)
    ensures forall k :: 0 <= k < |Found(disk, path)| ==> Wanted(Found(disk, path)[k].0)
  {
    EligibleKept(Wanted, LevelsAt(disk, path));
  }

  /**
   * `read_folder(path)`: of the first 30 wanted files in walk order, the
   * blocks before the first one that fails the size check; a run cut short
   * by that check says so, a run with no file says none was found.
   */
  function FolderText(disk: Disk, path: string): string
  {
    if path !in disk.present then Missing(path)
    else
      var es := Found(disk, path);
      var n := Min(MaxFiles, |es|);
      var s := FirstMiss(disk, es, 0, n);
      if s < n then Truncated(path, s, Combined(disk, es[..s]))
      else if n == 0 then NoDocuments(path)
      else Complete(path, n, Combined(disk, es[..n]))
  }

  /** With no wanted file under an existing path, `read_folder` says none was found. */
  lemma FolderEmpty(disk: Disk, path: string)
    requires path in disk.present && Found(disk, path) == []
    ensures FolderText(disk, path) == NoDocuments(path)
  {
  }

  /**
   * When each of the first min(30, wanted) files passes the size check, all
   * of them are read, in walk order, under the complete-run header.
   */
  lemma FolderComplete(disk: Disk, path: string)
    requires path in disk.present
    requires var es := Found(disk, path);
             && es != []
             && forall j :: 0 <= j < Min(MaxFiles, |es|) ==> Fits(disk, es, j)
    ensures var es := Found(disk, path);
            var n := Min(MaxFiles, |es|);
            && 0 < n <= MaxFiles
            && FolderText(disk, path) == Complete(path, n, Combined(disk, es[..n]))
  {
    var es := Found(disk, path);
    FirstMissSpec(disk, es, 0, Min(MaxFiles, |es|));
  }

  /**
   * When file `s` (one of the first 30) is the first to fail the size check,
   * the files before it are read and the text ends with the limit notice.
   */
  lemma FolderTruncated(disk: Disk, path: string, s: nat)
    requires path in disk.present
    requires var es := Found(disk, path);
             && s < Min(MaxFiles, |es|)
             && (forall j :: 0 <= j < s ==> Fits(disk, es, j))
             && !Fits(disk, es, s)
    ensures FolderText(disk, path) == Truncated(path, s, Combined(disk, Found(disk, path)[..s]))
  {
    var es := Found(disk, path);
    FirstMissSpec(disk, es, 0, Min(MaxFiles, |es|));
  }

  /** Appending one more wanted file to the gathered list. */
  lemma CombinedSnoc(disk: Disk, es: seq<(string, string)>, e: (string, string))
    ensures Combined(disk, es + [e]) == Combined(disk, es) + Block(disk, e)
  {
    assert (es + [e])[..|es|] == es;
  }

  /** The picks of one more file of a directory. */
  lemma PicksSnoc(keep: string -> bool, root: string, files: seq<string>, k: nat)
    requires k < |files|
    ensures Picks(keep, root, files[..k + 1]) == Picks(keep, root, files[..k]) + (if keep(files[k]) then [(files[k], PathJoin(root, files[k]))] else [])
  {
    assert files[..k + 1][..k] == files[..k];
  }

  lemma PrefixConcat<T>(before: seq<T>, x: seq<T>, y: seq<T>, all: seq<T>)
    requires x <= y && before + y <= all
    ensures before + x <= all
  {
    assert (before + x) == (before + y)[..|before| + |x|];
  }

  /** Every file of the gathered list `xs` passed the size check when it was reached. */
  predicate FitsAll(disk: Disk, xs: seq<(string, string)>)
  {
    xs == [] || (FitsAll(disk, xs[..|xs| - 1]) && |Combined(disk, xs[..|xs| - 1])| + |disk.text(xs[|xs| - 1].1)| <= MaxChars)
  }

  lemma FitsAllSnoc(disk: Disk, xs: seq<(string, string)>, e: (string, string))
    ensures FitsAll(disk, xs + [e]) <==> FitsAll(disk, xs) && |Combined(disk, xs)| + |disk.text(e.1)| <= MaxChars
  {
    assert (xs + [e])[..|xs|] == xs;
  }

  /** For a prefix of the wanted list, passing the size check file by file is the spec's `Fits` at each index. */
  lemma {:induction false} FitsAllPrefix(disk: Disk, es: seq<(string, string)>, m: nat)
    requires m <= |es|
    ensures FitsAll(disk, es[..m]) <==> forall j :: 0 <= j < m ==> Fits(disk, es, j)
  {
    if m > 0 {
      FitsAllPrefix(disk, es, m - 1);
      var xs := es[..m];
      assert xs[..|xs| - 1] == es[..m - 1];
      assert xs[|xs| - 1] == es[m - 1];
      assert FitsAll(disk, xs) <==> FitsAll(disk, es[..m - 1]) && Fits(disk, es, m - 1);
    }
  }

  /** The read stopped at the first wanted file that failed the size check. */
  lemma MissAt(disk: Disk, es: seq<(string, string)>, done: seq<(string, string)>, e: (string, string), n: nat)
    requires done + [e] <= es && |done| < n <= |es|
    requires FitsAll(disk, done)
    requires |Combined(disk, done)| + |disk.text(e.1)| > MaxChars
    ensures FirstMiss(disk, es, 0, n) == |done| && es[..|done|] == done
  {
    assert es[..|done|] == (done + [e])[..|done|];
    assert es[|done|] == e;
    FitsAllPrefix(disk, es, |done|);
    assert !Fits(disk, es, |done|);
    FirstMissSpec(disk, es, 0, n);
  }

  /** The read went through all of the first `n` wanted files. */
  lemma NoMiss(disk: Disk, es: seq<(string, string)>, n: nat)
    requires n <= |es| && FitsAll(disk, es[..n])
    ensures FirstMiss(disk, es, 0, n) == n
  {
    FitsAllPrefix(disk, es, n);
    FirstMissSpec(disk, es, 0, n);
  }

  /** The text of a read that went through all of the first min(30, wanted) files. */
  lemma ReadAll(disk: Disk, path: string, n: nat)
    requires path in disk.present
    requires var es := Found(disk, path);
             n == Min(MaxFiles, |es|) && FitsAll(disk, es[..n])
    ensures FolderText(disk, path) == if n == 0 then NoDocuments(path) else Complete(path, n, Combined(disk, Found(disk, path)[..n]))
  {
    NoMiss(disk, Found(disk, path), n);
  }

  /** The text of a read stopped by the size check at `next`. */
  lemma ReadStopped(disk: Disk, path: string, done: seq<(string, string)>, next: (string, string))
    requires path in disk.present
    requires var es := Found(disk, path);
             done + [next] <= es && |done| < Min(MaxFiles, |es|)
    requires FitsAll(disk, done) && |Combined(disk, done)| + |disk.text(next.1)| > MaxChars
    ensures FolderText(disk, path) == Truncated(path, |done|, Combined(disk, done))
  {
    var es := Found(disk, path);
    MissAt(disk, es, done, next, Min(MaxFiles, |es|));
  }

  /** What has been picked from the first `k` files of a directory is a prefix of the wanted list. */
  lemma WithinPicks(keep: string -> bool, root: string, files: seq<string>, k: nat, before: seq<(string, string)>, es: seq<(string, string)>)
    requires k <= |files| && before + Picks(keep, root, files) <= es
    ensures before + Picks(keep, root, files[..k]) <= es
  {
    PicksPrefix(keep, root, files, k);
    PrefixConcat(before, Picks(keep, root, files[..k]), Picks(keep, root, files), es);
  }

  /** A wanted file reached after the first `k` files comes right after their picks in the wanted list. */
  lemma NextWithinPicks(keep: string -> bool, root: string, files: seq<string>, k: nat, before: seq<(string, string)>, es: seq<(string, string)>)
    requires k < |files| && keep(files[k]) && before + Picks(keep, root, files) <= es
    ensures before + Picks(keep, root, files[..k]) + [(files[k], PathJoin(root, files[k]))] <= es
  {
    WithinPicks(keep, root, files, k + 1, before, es);
    PicksSnoc(keep, root, files, k);
    AppendAssoc(before, Picks(keep, root, files[..k]), [(files[k], PathJoin(root, files[k]))]);
  }

  /** Reading one more wanted file that passes the size check keeps the loop's account of what was read. */
  lemma ReadStep(keep: string -> bool, disk: Disk, root: string, files: seq<string>, k: nat, before: seq<(string, string)>,
                 done: seq<(string, string)>, combined: string)
    requires k < |files| && keep(files[k]) && done == before + Picks(keep, root, files[..k])
    requires combined == Combined(disk, done) && FitsAll(disk, done)
    requires |combined| + |disk.text(PathJoin(root, files[k]))| <= MaxChars
    ensures var e := (files[k], PathJoin(root, files[k]));
            && done + [e] == before + Picks(keep, root, files[..k + 1])
            && Combined(disk, done + [e]) == combined + Block(disk, e)
            && FitsAll(disk, done + [e])
  {
    var e := (files[k], PathJoin(root, files[k]));
    PicksSnoc(keep, root, files, k);
    FitsAllSnoc(disk, done, e);
    CombinedSnoc(disk, done, e);
    AppendAssoc(before, Picks(keep, root, files[..k]), [e]);
  }

  /** A file that is not wanted adds nothing to the picks. */
  lemma SkipStep(keep: string -> bool, root: string, files: seq<string>, k: nat)
    requires k < |files| && !keep(files[k])
    ensures Picks(keep, root, files[..k + 1]) == Picks(keep, root, files[..k])
  {
    PicksSnoc(keep, root, files, k);
  }

  /**
   * The body of `read_folder`'s file loop for a wanted file, once fewer than
   * 30 files have been read: either the file fails the size check
   * (`overflow`, nothing is added) or its header and text are appended.
   */
  method TakeFile(keep: string -> bool, disk: Disk, root: string, files: seq<string>, k: nat, combined0: string, count0: nat,
                  ghost before: seq<(string, string)>, ghost done0: seq<(string, string)>)
    returns (overflow: bool, combined: string, count: nat, ghost done: seq<(string, string)>)
    requires k < |files| && keep(files[k]) && done0 == before + Picks(keep, root, files[..k])
    requires count0 == |done0| < MaxFiles && combined0 == Combined(disk, done0) && FitsAll(disk, done0)
    ensures overflow ==> && |combined0| + |disk.text(PathJoin(root, files[k]))| > MaxChars
                         && combined == combined0 && count == count0 && done == done0
    ensures !overflow ==> && done == before + Picks(keep, root, files[..k + 1]) && count == |done| <= MaxFiles
                          && combined == Combined(disk, done) && FitsAll(disk, done)
  {
    combined, count, done := combined0, count0, done0;
    var file := files[k];
    var filePath := PathJoin(root, file);
    if |combined| + |disk.text(filePath)| > MaxChars {
      return true, combined, count, done;
    }
    ReadStep(keep, disk, root, files, k, before, done, combined);
    combined := combined + Block(disk, (file, filePath));
    done := done + [(file, filePath)];
    count := count + 1;
    overflow := false;
  }

  /**
   * One directory's turn in `read_folder`'s walk loop: the files are taken
   * in order until 30 have been read; a wanted file that fails the size
   * check stops the whole read (`stop`), before it is added. `m` counts the
   * files of the directory that were taken.
   */
  method ReadDirectory(keep: string -> bool, disk: Disk, root: string, files: seq<string>, combined0: string, count0: nat,
                       ghost before: seq<(string, string)>)
    returns (stop: bool, combined: string, count: nat, ghost done: seq<(string, string)>, ghost m: nat)
    requires count0 == |before| <= MaxFiles && combined0 == Combined(disk, before)
    requires FitsAll(disk, before)
    ensures m <= |files| && done == before + Picks(keep, root, files[..m])
    ensures count == |done| <= MaxFiles
    ensures combined == Combined(disk, done) && FitsAll(disk, done)
    ensures stop ==> m < |files| && keep(files[m]) && count < MaxFiles
                     && |combined| + |disk.text(PathJoin(root, files[m]))| > MaxChars
    ensures !stop ==> m == |files| || count == MaxFiles
  {
    combined, count, done := combined0, count0, before;
    var k := 0;
    while k < |files|
      invariant 0 <= k <= |files|
      invariant done == before + Picks(keep, root, files[..k])
      invariant count == |done| <= MaxFiles
      invariant combined == Combined(disk, done)
      invariant FitsAll(disk, done)
    {
      if count >= MaxFiles {
        return false, combined, count, done, k;
      }
      if !keep(files[k]) {
        SkipStep(keep, root, files, k);
      } else {
        var overflow;
        overflow, combined, count, done := TakeFile(keep, disk, root, files, k, combined, count, before, done);
        if overflow {
          return true, combined, count, done, k;
        }
      }
      k := k + 1;
    }
    return false, combined, count, done, k;
  }

  /** The accepted files of the first `i + 1` directories: those of the first `i`, then the `i`-th's picks. */
  lemma LevelStep(keep: string -> bool, levels: seq<(string, seq<string>)>, i: nat)
    requires i < |levels|
    ensures Eligible(keep, levels[..i + 1]) == Eligible(keep, levels[..i]) + Picks(keep, levels[i].0, levels[i].1)
    ensures Eligible(keep, levels[..i + 1]) <= Eligible(keep, levels)
  {
    EligiblePrefix(keep, levels, i + 1);
    assert levels[..i + 1][..i] == levels[..i];
  }

  /**
   * `read_folder`'s walk loop over the directories `os.walk` yields: it
   * gathers the blocks of the wanted files `es` in order until 30 are read,
   * or until the wanted file `next` fails the size check (`stop`).
   */
  method Gather(disk: Disk, levels: seq<(string, seq<string>)>, ghost es: seq<(string, string)>)
    returns (stop: bool, combined: string, count: nat, ghost done: seq<(string, string)>, ghost next: (string, string))
    requires es == Eligible(Wanted, levels)
    ensures done <= es && count == |done| <= MaxFiles
    ensures combined == Combined(disk, done) && FitsAll(disk, done)
    ensures stop ==> done + [next] <= es && |combined| + |disk.text(next.1)| > MaxChars && count < MaxFiles
    ensures !stop ==> done == es || count == MaxFiles
  {
    combined, count, done := "", 0, [];
    next := ("", "");
    var i := 0;
    while i < |levels|
      invariant 0 <= i <= |levels|
      invariant done <= es && count == |done| < MaxFiles
      invariant done == Eligible(Wanted, levels[..i])
      invariant combined == Combined(disk, done)
      invariant FitsAll(disk, done)
    {
      LevelStep(Wanted, levels, i);
      ghost var before := done;
      ghost var m;
      stop, combined, count, done, m := ReadDirectory(Wanted, disk, levels[i].0, levels[i].1, combined, count, done);
      if stop {
        NextWithinPicks(Wanted, levels[i].0, levels[i].1, m, before, es);
        return true, combined, count, done, (levels[i].1[m], PathJoin(levels[i].0, levels[i].1[m]));
      }
      WithinPicks(Wanted, levels[i].0, levels[i].1, m, before, es);
      if count >= MaxFiles {
        return false, combined, count, done, next;
      }
      assert levels[i].1[..m] == levels[i].1;
      i := i + 1;
    }
    assert levels[..i] == levels;
    stop := false;
  }

  /** `read_folder(path)`: the walk loop, then the header that says how the read ended. */
  method ReadFolder(disk: Disk, path: string) returns (r: string)
    ensures r == FolderText(disk, path)
  {
    if path !in disk.present {
      return Missing(path);
    }
    ghost var es := Found(disk, path);
    var stop, combined, count, done, next := Gather(disk, LevelsAt(disk, path), es);
    if stop {
      ReadStopped(disk, path, done, next);
      AppendAssoc(TruncatedHeader(path, count), combined, LimitNotice);
      combined := combined + LimitNotice;
      return TruncatedHeader(path, count) + combined;
    }
    assert done == es[..count] && count == Min(MaxFiles, |es|);
    ReadAll(disk, path, count);
    if count == 0 {
      return NoDocuments(path);
    }
    return CompleteHeader(path, count) + combined;
  }
}
