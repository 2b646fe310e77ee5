/** create_AD_json: check the cache path, build the membership snapshot, and, when the
    snapshot differs from what the cache holds, archive the cache and write the snapshot
    through the handle that read it. */
module Hierarchy {
  import opened Wrappers
  import opened Files
  import opened Json
  import opened Snapshot
  import opened Timestamp

  /** `json.load` on the file's text: `None` when it raises (bad JSON, empty file). */
  type Parser = string -> Option<Json>

  /** `json.dumps(..., indent = 4, sort_keys = True)`. */
  type Serializer = Json -> string

  datatype RunError = CacheNotAFile | BuildFailed(error: BuildError)

  /** How a run ends: it returns, or it stops (`sys.exit` or an exception). */
  datatype Outcome = Done | Aborted(reason: RunError)

  /** hierarchy.py:134-142: `<YYYYMMDDHHMMSS>_<name>` beside the cache file. */
  function ArchivePath(cache: Path, now: DateTime): (r: Path)
    requires Timestamp.Valid(now)
    ensures r.dir == cache.dir && r != cache
    ensures |r.name| == 15 + |cache.name|
    ensures ParseStamp(r.name[..14]) == Some(now) && r.name[14] == '_' && r.name[15..] == cache.name
  {
    StampRoundTrip(now);
    var name := Stamp(now) + "_" + cache.name;
    assert name[..14] == Stamp(now);
    Path(cache.dir, name)
  }

  /** hierarchy.py:128-131: the parsed cache, or `""` when it cannot be parsed. */
  function OldData(content: string, parse: Parser): Json {
    match parse(content)
    case Some(j) => j
    case None => Str("")
  }

  /** hierarchy.py:124-154 as written: on a difference, copy the cache to the archive, then
      write the serialised snapshot at the handle's position, which `json.load` has left
      at the end of the file. */
  function Reconciled(tree: Tree, cache: Path, snapshot: Json, now: DateTime,
                      parse: Parser, serialize: Serializer): (r: Tree)
    requires IsFile(tree, cache) && Timestamp.Valid(now)
    ensures IsFile(r, cache)
  {
    var content := tree[cache].content;
    if PyEq(OldData(content, parse), snapshot) then tree
    else
      var archived := tree[ArchivePath(cache, now) := RegularFile(content)];
      archived[cache := RegularFile(Overwrite(content, |content|, serialize(snapshot)))]
  }

  /** hierarchy.py:124-154 as evidently intended: the new document replaces the cache content. */
  function ReconciledIntended(tree: Tree, cache: Path, snapshot: Json, now: DateTime,
                              parse: Parser, serialize: Serializer): Tree
    requires IsFile(tree, cache) && Timestamp.Valid(now)
  {
    var content := tree[cache].content;
    if PyEq(OldData(content, parse), snapshot) then tree
    else
      var archived := tree[ArchivePath(cache, now) := RegularFile(content)];
      archived[cache := RegularFile(Overwrite(content[..0], 0, serialize(snapshot)))]
  }

  /** The whole of create_AD_json: the resulting outcome and filesystem. */
  function Run(tree: Tree, cache: Path, root: string, query: string, dir: Directory, passwd: Passwd,
               now: DateTime, parse: Parser, serialize: Serializer): (Outcome, Tree)
    requires Timestamp.Valid(now)
  {
    if CheckPathExistsIsFile(tree, cache).None? then (Aborted(CacheNotAFile), tree)
    else
      match Build(root, query, dir, passwd)
      case Failure(e) => (Aborted(BuildFailed(e)), tree)
      case Success(s) => (Done, Reconciled(tree, cache, ToJson(s), now, parse, serialize))
  }

  // ---- the code, step by step ----

  /** hierarchy.py:124-154: open with "r+", load, compare, and on a difference `cp` then write. */
  method Reconcile(fs: FileSystem, cache: Path, snapshot: Json, now: DateTime,
                   parse: Parser, serialize: Serializer)
    requires IsFile(fs.tree, cache) && Timestamp.Valid(now)
    modifies fs
    ensures fs.tree == Reconciled(old(fs.tree), cache, snapshot, now, parse, serialize)
  {
    var handle := new Handle.Open(fs, cache);
    var text := handle.Read();
    var oldData := OldData(text, parse);
    if !PyEq(oldData, snapshot) {
      var archive := ArchivePath(cache, now);
      fs.Copy(cache, archive);
      handle.Write(serialize(snapshot));
    }
  }

  /** The same steps with the handle rewound and truncated before the write. */
  method ReconcileIntended(fs: FileSystem, cache: Path, snapshot: Json, now: DateTime,
                           parse: Parser, serialize: Serializer)
    requires IsFile(fs.tree, cache) && Timestamp.Valid(now)
    modifies fs
    ensures fs.tree == ReconciledIntended(old(fs.tree), cache, snapshot, now, parse, serialize)
  {
    var handle := new Handle.Open(fs, cache);
    var text := handle.Read();
    var oldData := OldData(text, parse);
    if !PyEq(oldData, snapshot) {
      var archive := ArchivePath(cache, now);
      fs.Copy(cache, archive);
      handle.Seek(0);
      handle.Truncate();
      handle.Write(serialize(snapshot));
    }
  }

  /** create_AD_json (hierarchy.py:69-156). */
  method CreateAdJson(fs: FileSystem, cache: Path, root: string, query: string, dir: Directory,
                      passwd: Passwd, now: DateTime, parse: Parser, serialize: Serializer)
    returns (outcome: Outcome)
    requires Timestamp.Valid(now)
    modifies fs
    ensures (outcome, fs.tree) == Run(old(fs.tree), cache, root, query, dir, passwd, now, parse, serialize)
  {
    var checked := CheckPathExistsIsFile(fs.tree, cache);
    if checked.None? {
      return Aborted(CacheNotAFile);
    }
    var built := BuildSnapshot(root, query, dir, passwd);
    if built.Failure? {
      return Aborted(BuildFailed(built.error));
    }
    Reconcile(fs, checked.value, ToJson(built.value), now, parse, serialize);
    return Done;
  }

  // ---- properties of a run ----

  /** A cache path that is missing or not a regular file stops the run before any
      query, with the filesystem untouched. */
  lemma MissingCacheStopsFirst(tree: Tree, cache: Path, root: string, query: string, dir: Directory,
                               passwd: Passwd, now: DateTime, parse: Parser, serialize: Serializer)
    requires Timestamp.Valid(now) && !IsFile(tree, cache)
    ensures Run(tree, cache, root, query, dir, passwd, now, parse, serialize) == (Aborted(CacheNotAFile), tree)
  {
  }

  /** A failed build writes nothing. */
  lemma FailedBuildWritesNothing(tree: Tree, cache: Path, root: string, query: string, dir: Directory,
                                 passwd: Passwd, now: DateTime, parse: Parser, serialize: Serializer)
    requires Timestamp.Valid(now) && IsFile(tree, cache)
    requires Build(root, query, dir, passwd).Failure?
    ensures Run(tree, cache, root, query, dir, passwd, now, parse, serialize)
            == (Aborted(BuildFailed(Build(root, query, dir, passwd).error)), tree)
  {
  }

  /** When the cache already holds a document equal to the snapshot, nothing is
      archived and nothing is written. */
  lemma EqualLeavesCache(tree: Tree, cache: Path, snapshot: Json, now: DateTime,
                         parse: Parser, serialize: Serializer)
    requires IsFile(tree, cache) && Timestamp.Valid(now)
    requires PyEq(OldData(tree[cache].content, parse), snapshot)
    ensures Reconciled(tree, cache, snapshot, now, parse, serialize) == tree
  {
  }

  /** On a difference exactly one path is added or replaced besides the cache: the
      archive, holding the content from before the write; the cache then holds its old
      content followed by the new document. */
  lemma ChangeArchivesThenAppends(tree: Tree, cache: Path, snapshot: Json, now: DateTime,
                                  parse: Parser, serialize: Serializer)
    requires IsFile(tree, cache) && Timestamp.Valid(now)
    requires !PyEq(OldData(tree[cache].content, parse), snapshot)
    ensures var t := Reconciled(tree, cache, snapshot, now, parse, serialize);
            var archive := ArchivePath(cache, now);
            && t.Keys == tree.Keys + {archive}
            && t[archive] == RegularFile(tree[cache].content)
            && t[cache] == RegularFile(tree[cache].content + serialize(snapshot))
            && forall p :: p in tree && p != archive && p != cache ==> t[p] == tree[p]
  {
    WriteAtEndAppends(tree[cache].content, serialize(snapshot));
  }

  /** A cache that cannot be parsed is read as `""`, which never equals a snapshot:
      the run always archives it and appends. */
  lemma UnparsableCacheAlwaysChanges(tree: Tree, cache: Path, s: Snapshot, now: DateTime,
                                     parse: Parser, serialize: Serializer)
    requires IsFile(tree, cache) && Timestamp.Valid(now)
    requires parse(tree[cache].content).None?
    ensures var c := tree[cache].content;
            Reconciled(tree, cache, ToJson(s), now, parse, serialize)
            == tree[ArchivePath(cache, now) := RegularFile(c)][cache := RegularFile(c + serialize(ToJson(s)))]
  {
    StrNeverEqualsObject("", ToJson(s).fields);
    WriteAtEndAppends(tree[cache].content, serialize(ToJson(s)));
  }

  /** With a cache holding the document of snapshot `cached`, a run that builds `s`
      leaves the filesystem alone exactly when `s == cached`, and otherwise archives and
      appends. */
  lemma RunChangesIffSnapshotDiffers(tree: Tree, cache: Path, root: string, query: string, dir: Directory,
                                     passwd: Passwd, now: DateTime, parse: Parser, serialize: Serializer,
                                     cached: Snapshot)
    requires Timestamp.Valid(now) && IsFile(tree, cache)
    requires Build(root, query, dir, passwd).Success?
    requires parse(tree[cache].content) == Some(ToJson(cached))
    ensures var s := Build(root, query, dir, passwd).value;
            var c := tree[cache].content;
            var r := Run(tree, cache, root, query, dir, passwd, now, parse, serialize);
            && r.0 == Done
            && (s == cached ==> r.1 == tree)
            && (s != cached ==>
                  r.1 == tree[ArchivePath(cache, now) := RegularFile(c)][cache := RegularFile(c + serialize(ToJson(s)))])
  {
    var s := Build(root, query, dir, passwd).value;
    SnapshotJsonEqIff(cached, s);
    WriteAtEndAppends(tree[cache].content, serialize(ToJson(s)));
  }

  // ---- the append, and the replacement it was meant to be ----

  /** `k` copies of `d`, one after the other. */
  function Repeat(d: string, k: nat): string {
    if k == 0 then "" else Repeat(d, k - 1) + d
  }

  /** Successive runs of the as-written update with the same snapshot, one per clock
      reading in `times`. */
  function RunsAsWritten(tree: Tree, cache: Path, snapshot: Json, times: seq<DateTime>,
                         parse: Parser, serialize: Serializer): (r: Tree)
    requires IsFile(tree, cache)
    requires forall i :: 0 <= i < |times| ==> Timestamp.Valid(times[i])
    ensures IsFile(r, cache)
    decreases |times|
  {
    if times == [] then tree
    else
      var before := RunsAsWritten(tree, cache, snapshot, times[..|times| - 1], parse, serialize);
      Reconciled(before, cache, snapshot, times[|times| - 1], parse, serialize)
  }

  /** As written: once the old content `c` is a document of its own, `c` followed by
      copies of the new document `d` is never one document again (JSON rejects extra
      data), so every run with the same snapshot appends one more copy: after `n` runs
      the cache holds `c` and `n` copies of `d`. */
  lemma {:induction false} AsWrittenKeepsAppending(tree: Tree, cache: Path, snapshot: Json, times: seq<DateTime>,
                                                   parse: Parser, serialize: Serializer)
    requires IsFile(tree, cache)
    requires forall i :: 0 <= i < |times| ==> Timestamp.Valid(times[i])
    requires snapshot.Object?
    requires !PyEq(OldData(tree[cache].content, parse), snapshot)
    requires forall k :: 1 <= k < |times| ==>
               parse(tree[cache].content + Repeat(serialize(snapshot), k)).None?
    ensures RunsAsWritten(tree, cache, snapshot, times, parse, serialize)[cache]
            == RegularFile(tree[cache].content + Repeat(serialize(snapshot), |times|))
    decreases |times|
  {
    var c, d := tree[cache].content, serialize(snapshot);
    if times == [] {
      assert c + "" == c;
    } else {
      var n := |times|;
      var init := times[..n - 1];
      assert forall i :: 0 <= i < |init| ==> Timestamp.Valid(init[i]) by {
        forall i | 0 <= i < |init| ensures Timestamp.Valid(init[i]) {
          assert init[i] == times[i];
        }
      }
      AsWrittenKeepsAppending(tree, cache, snapshot, init, parse, serialize);
      var before := RunsAsWritten(tree, cache, snapshot, init, parse, serialize);
      LaterRunChanges(before, cache, snapshot, parse, c, d, n - 1);
      AppendsOneCopy(before, cache, snapshot, times[n - 1], parse, serialize, c, n - 1);
    }
  }

  /** The cache after `m` as-written runs, `c` and `m` copies of `d`, still differs from
      the snapshot: for `m = 0` by assumption, otherwise because it no longer parses. */
  lemma LaterRunChanges(before: Tree, cache: Path, snapshot: Json, parse: Parser,
                        c: string, d: string, m: nat)
    requires IsFile(before, cache) && before[cache].content == c + Repeat(d, m)
    requires snapshot.Object?
    requires m == 0 ==> !PyEq(OldData(c, parse), snapshot)
    requires m > 0 ==> parse(c + Repeat(d, m)).None?
    ensures !PyEq(OldData(before[cache].content, parse), snapshot)
  {
    if m == 0 {
      assert c + Repeat(d, 0) == c;
    } else {
      StrNeverEqualsObject("", snapshot.fields);
    }
  }

  /** As written, the update never settles: after `n >= 1` runs with the same snapshot,
      the last run too has archived the previous content, `c` and `n - 1` copies of
      `d`, and left one copy more. */
  lemma AsWrittenNeverSettles(tree: Tree, cache: Path, snapshot: Json, times: seq<DateTime>,
                              parse: Parser, serialize: Serializer)
    requires IsFile(tree, cache) && |times| >= 1
    requires forall i :: 0 <= i < |times| ==> Timestamp.Valid(times[i])
    requires snapshot.Object?
    requires !PyEq(OldData(tree[cache].content, parse), snapshot)
    requires forall k :: 1 <= k < |times| ==>
               parse(tree[cache].content + Repeat(serialize(snapshot), k)).None?
    ensures var c, d := tree[cache].content, serialize(snapshot);
            var t := RunsAsWritten(tree, cache, snapshot, times, parse, serialize);
            var archive := ArchivePath(cache, times[|times| - 1]);
            && t[cache] == RegularFile(c + Repeat(d, |times|))
            && archive in t && t[archive] == RegularFile(c + Repeat(d, |times| - 1))
  {
    var c, d := tree[cache].content, serialize(snapshot);
    var n := |times|;
    var init := times[..n - 1];
    assert forall i :: 0 <= i < |init| ==> Timestamp.Valid(init[i]) by {
      forall i | 0 <= i < |init| ensures Timestamp.Valid(init[i]) {
        assert init[i] == times[i];
      }
    }
    AsWrittenKeepsAppending(tree, cache, snapshot, init, parse, serialize);
    var before := RunsAsWritten(tree, cache, snapshot, init, parse, serialize);
    LaterRunChanges(before, cache, snapshot, parse, c, d, n - 1);
    AppendsOneCopy(before, cache, snapshot, times[n - 1], parse, serialize, c, n - 1);
  }

  /** One as-written run on a cache holding `c` and `m` copies of the document: it
      archives that content and leaves one copy more. */
  lemma AppendsOneCopy(before: Tree, cache: Path, snapshot: Json, now: DateTime,
                       parse: Parser, serialize: Serializer, c: string, m: nat)
    requires IsFile(before, cache) && Timestamp.Valid(now)
    requires before[cache].content == c + Repeat(serialize(snapshot), m)
    requires !PyEq(OldData(before[cache].content, parse), snapshot)
    ensures var t := Reconciled(before, cache, snapshot, now, parse, serialize);
            && t[cache] == RegularFile(c + Repeat(serialize(snapshot), m + 1))
            && ArchivePath(cache, now) in t
            && t[ArchivePath(cache, now)] == RegularFile(c + Repeat(serialize(snapshot), m))
  {
    var d := serialize(snapshot);
    ChangeArchivesThenAppends(before, cache, snapshot, now, parse, serialize);
    RepeatOnceMore(c, d, m);
  }

  lemma RepeatOnceMore(c: string, d: string, m: nat)
    ensures c + Repeat(d, m) + d == c + Repeat(d, m + 1)
  {
  }

  /** As written, a cache created empty does settle: the first write lands in an empty
      file, so a later run with the same snapshot finds it equal. */
  lemma AsWrittenSettlesFromEmpty(tree: Tree, cache: Path, snapshot: Json, now: DateTime, later: DateTime,
                                  parse: Parser, serialize: Serializer)
    requires IsFile(tree, cache) && Timestamp.Valid(now) && Timestamp.Valid(later)
    requires tree[cache].content == "" && parse("").None? && snapshot.Object?
    requires parse(serialize(snapshot)) == Some(snapshot)
    ensures var t1 := Reconciled(tree, cache, snapshot, now, parse, serialize);
            && t1[cache] == RegularFile(serialize(snapshot))
            && Reconciled(t1, cache, snapshot, later, parse, serialize) == t1
  {
    StrNeverEqualsObject("", snapshot.fields);
    ChangeArchivesThenAppends(tree, cache, snapshot, now, parse, serialize);
    assert "" + serialize(snapshot) == serialize(snapshot);
    PyEqReflexive(snapshot);
  }

  /** Corrected: after one run the cache holds the snapshot's document (or already held
      an equal one), and a second run with the same snapshot changes nothing. */
  lemma IntendedSettles(tree: Tree, cache: Path, snapshot: Json, now: DateTime, later: DateTime,
                        parse: Parser, serialize: Serializer)
    requires IsFile(tree, cache) && Timestamp.Valid(now) && Timestamp.Valid(later)
    requires parse(serialize(snapshot)) == Some(snapshot)
    ensures var t1 := ReconciledIntended(tree, cache, snapshot, now, parse, serialize);
            && (t1 == tree || t1[cache] == RegularFile(serialize(snapshot)))
            && ReconciledIntended(t1, cache, snapshot, later, parse, serialize) == t1
  {
    WriteIntoEmpty(serialize(snapshot));
    PyEqReflexive(snapshot);
  }

  /** Corrected: a cache holding snapshot `s1`'s document, reconciled with a different
      snapshot `s2`, gains exactly one archive holding `s1`'s document and then holds
      `s2`'s document. */
  lemma IntendedArchivesPrevious(tree: Tree, cache: Path, s1: Snapshot, s2: Snapshot, now: DateTime,
                                 parse: Parser, serialize: Serializer)
    requires IsFile(tree, cache) && Timestamp.Valid(now)
    requires tree[cache].content == serialize(ToJson(s1))
    requires parse(serialize(ToJson(s1))) == Some(ToJson(s1))
    requires s1 != s2
    ensures var t := ReconciledIntended(tree, cache, ToJson(s2), now, parse, serialize);
            var archive := ArchivePath(cache, now);
            && t.Keys == tree.Keys + {archive}
            && t[archive] == RegularFile(serialize(ToJson(s1)))
            && t[cache] == RegularFile(serialize(ToJson(s2)))
            && forall p :: p in tree && p != archive && p != cache ==> t[p] == tree[p]
  {
    SnapshotJsonEqIff(s1, s2);
    WriteIntoEmpty(serialize(ToJson(s2)));
  }
}
