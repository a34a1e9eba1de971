// File selection and exit code of the clang-format runner
// (tools/run-clang-format.py, list_files and the result loop of main).
module ListFiles {

  // A directory as os.walk lists it: files and subdirectories, each in listing order.
  datatype Dir = Dir(files: seq<string>, subdirs: seq<Sub>)
  datatype Sub = Sub(name: string, dir: Dir)

  // fnmatch(path, pattern), and whether the extension of a path is listed: both as given.
  datatype Rules = Rules(matches: (string, string) -> bool, exclude: seq<string>, listed: string -> bool)

  // os.path.join for a name without a leading slash.
  function Join(dirpath: string, name: string): string {
    if dirpath == "" || dirpath[|dirpath| - 1] == '/' then dirpath + name else dirpath + "/" + name
  }

  predicate Excluded(r: Rules, path: string) {
    exists i :: 0 <= i < |r.exclude| && r.matches(path, r.exclude[i])
  }

  // ---- the pruned walk ----

  // One application of a pattern to the two lists of a directory.
  function DropSubs(r: Rules, pattern: string, dirpath: string, subs: seq<Sub>): seq<Sub> {
    if subs == [] then [] else
      (if r.matches(Join(dirpath, subs[0].name), pattern) then [] else [subs[0]])
      + DropSubs(r, pattern, dirpath, subs[1..])
  }

  function DropPaths(r: Rules, pattern: string, paths: seq<string>): seq<string> {
    if paths == [] then [] else
      (if r.matches(paths[0], pattern) then [] else [paths[0]]) + DropPaths(r, pattern, paths[1..])
  }

  function KeepSubs(r: Rules, dirpath: string, subs: seq<Sub>): seq<Sub> {
    if subs == [] then [] else
      (if Excluded(r, Join(dirpath, subs[0].name)) then [] else [subs[0]]) + KeepSubs(r, dirpath, subs[1..])
  }

  function KeepPaths(r: Rules, paths: seq<string>): seq<string> {
    if paths == [] then [] else
      (if Excluded(r, paths[0]) then [] else [paths[0]]) + KeepPaths(r, paths[1..])
  }

  function Paths(dirpath: string, names: seq<string>): seq<string> {
    if names == [] then [] else [Join(dirpath, names[0])] + Paths(dirpath, names[1..])
  }

  function Listed(r: Rules, paths: seq<string>): seq<string> {
    if paths == [] then [] else (if r.listed(paths[0]) then [paths[0]] else []) + Listed(r, paths[1..])
  }

  // ---- a full walk, and the filter it should be equal to ----

  // A file with the directories between the root and it.
  datatype Entry = Entry(path: string, above: seq<string>)

  // Top down: the files of a directory, then its subdirectories one after the other.
  function FullWalk(dirpath: string, above: seq<string>, d: Dir): seq<Entry>
    decreases d, 1
  {
    Entries(dirpath, above, d.files) + FullWalks(dirpath, above, d.subdirs)
  }

  function FullWalks(dirpath: string, above: seq<string>, subs: seq<Sub>): seq<Entry>
    decreases subs, 0
  {
    if subs == [] then [] else
      var path := Join(dirpath, subs[0].name);
      FullWalk(path, above + [path], subs[0].dir) + FullWalks(dirpath, above, subs[1..])
  }

  function Entries(dirpath: string, above: seq<string>, names: seq<string>): seq<Entry> {
    if names == [] then [] else [Entry(Join(dirpath, names[0]), above)] + Entries(dirpath, above, names[1..])
  }

  predicate Wanted(r: Rules, e: Entry) {
    && r.listed(e.path) && !Excluded(r, e.path)
    && forall i :: 0 <= i < |e.above| ==> !Excluded(r, e.above[i])
  }

  function Filter(r: Rules, es: seq<Entry>): seq<string> {
    if es == [] then [] else (if Wanted(r, es[0]) then [es[0].path] else []) + Filter(r, es[1..])
  }

  // ---- the walk as the code does it: prune, list, descend into what is left ----

  function PrunedWalk(r: Rules, dirpath: string, d: Dir): seq<string>
    decreases d, 1
  {
    Listed(r, KeepPaths(r, Paths(dirpath, d.files))) + PrunedWalks(r, dirpath, d.subdirs)
  }

  function PrunedWalks(r: Rules, dirpath: string, subs: seq<Sub>): seq<string>
    decreases subs, 0
  {
    if subs == [] then [] else
      var path := Join(dirpath, subs[0].name);
      (if Excluded(r, path) then [] else PrunedWalk(r, path, subs[0].dir)) + PrunedWalks(r, dirpath, subs[1..])
  }

  // ---- pruned equals filtered ----

  lemma {:induction false} FilterAppend(r: Rules, a: seq<Entry>, b: seq<Entry>)
    ensures Filter(r, a + b) == Filter(r, a) + Filter(r, b)
  {
    if a == [] {
      assert a + b == b;
    } else {
      assert (a + b)[1..] == a[1..] + b;
      FilterAppend(r, a[1..], b);
    }
  }

  ghost predicate Clear(r: Rules, above: seq<string>) {
    forall i :: 0 <= i < |above| ==> !Excluded(r, above[i])
  }

  lemma {:induction false} FilesFilter(r: Rules, dirpath: string, above: seq<string>, names: seq<string>)
    requires Clear(r, above)
    ensures Filter(r, Entries(dirpath, above, names)) == Listed(r, KeepPaths(r, Paths(dirpath, names)))
  {
    if names != [] {
      FilesFilter(r, dirpath, above, names[1..]);
      var path, rest := Join(dirpath, names[0]), Paths(dirpath, names[1..]);
      var es := Entries(dirpath, above, names);
      assert es[0] == Entry(path, above) && es[1..] == Entries(dirpath, above, names[1..]);
      KeepListOne(r, path, rest);
      hide Join, Excluded, KeepPaths, Listed;
      assert Paths(dirpath, names) == [path] + rest;
      assert Wanted(r, es[0]) <==> r.listed(path) && !Excluded(r, path);
    }
  }

  lemma KeepListOne(r: Rules, path: string, rest: seq<string>)
    ensures Listed(r, KeepPaths(r, [path] + rest)) ==
      (if r.listed(path) && !Excluded(r, path) then [path] else []) + Listed(r, KeepPaths(r, rest))
  {
    hide Excluded;
    assert ([path] + rest)[1..] == rest;
    assert ([path] + KeepPaths(r, rest))[1..] == KeepPaths(r, rest);
    assert [] + KeepPaths(r, rest) == KeepPaths(r, rest);
  }

  // Under an excluded directory nothing is wanted.
  lemma {:induction false} NothingBelow(r: Rules, dirpath: string, above: seq<string>, d: Dir)
    requires !Clear(r, above)
    ensures Filter(r, FullWalk(dirpath, above, d)) == []
    decreases d, 1
  {
    NoFiles(r, dirpath, above, d.files);
    NothingBelowSubs(r, dirpath, above, d.subdirs);
    FilterAppend(r, Entries(dirpath, above, d.files), FullWalks(dirpath, above, d.subdirs));
  }

  lemma {:induction false} NothingBelowSubs(r: Rules, dirpath: string, above: seq<string>, subs: seq<Sub>)
    requires !Clear(r, above)
    ensures Filter(r, FullWalks(dirpath, above, subs)) == []
    decreases subs, 0
  {
    if subs != [] {
      var path := Join(dirpath, subs[0].name);
      var i :| 0 <= i < |above| && Excluded(r, above[i]);
      assert (above + [path])[i] == above[i];
      NothingBelow(r, path, above + [path], subs[0].dir);
      NothingBelowSubs(r, dirpath, above, subs[1..]);
      FilterAppend(r, FullWalk(path, above + [path], subs[0].dir), FullWalks(dirpath, above, subs[1..]));
    }
  }

  lemma {:induction false} NoFiles(r: Rules, dirpath: string, above: seq<string>, names: seq<string>)
    requires !Clear(r, above)
    ensures Filter(r, Entries(dirpath, above, names)) == []
  {
    if names != [] {
      NoFiles(r, dirpath, above, names[1..]);
      assert Entries(dirpath, above, names)[1..] == Entries(dirpath, above, names[1..]);
    }
  }

  // For every tree and exclude list: the pruned walk returns, in the same order, exactly the
  // files of the full walk that are listed, match no pattern and have no excluded directory
  // between the root and them.
  lemma {:induction false} PrunedIsFiltered(r: Rules, dirpath: string, above: seq<string>, d: Dir)
    requires Clear(r, above)
    ensures PrunedWalk(r, dirpath, d) == Filter(r, FullWalk(dirpath, above, d))
    decreases d, 1
  {
    FilesFilter(r, dirpath, above, d.files);
    PrunedSubsFiltered(r, dirpath, above, d.subdirs);
    FilterAppend(r, Entries(dirpath, above, d.files), FullWalks(dirpath, above, d.subdirs));
  }

  lemma {:induction false} PrunedSubsFiltered(r: Rules, dirpath: string, above: seq<string>, subs: seq<Sub>)
    requires Clear(r, above)
    ensures PrunedWalks(r, dirpath, subs) == Filter(r, FullWalks(dirpath, above, subs))
    decreases subs, 0
  {
    if subs != [] {
      var path := Join(dirpath, subs[0].name);
      if Excluded(r, path) {
        assert (above + [path])[|above|] == path;
        NothingBelow(r, path, above + [path], subs[0].dir);
      } else {
        PrunedIsFiltered(r, path, above + [path], subs[0].dir);
      }
      PrunedSubsFiltered(r, dirpath, above, subs[1..]);
      FilterAppend(r, FullWalk(path, above + [path], subs[0].dir), FullWalks(dirpath, above, subs[1..]));
    }
  }

  // ---- what the walks find, told by names ----

  // The names lead from the directory through subdirectories to a file.
  predicate InTree(d: Dir, names: seq<string>)
    decreases |names|
  {
    names != [] &&
    if |names| == 1 then names[0] in d.files
    else exists i :: 0 <= i < |d.subdirs| && d.subdirs[i].name == names[0] && InTree(d.subdirs[i].dir, names[1..])
  }

  function Joined(dirpath: string, names: seq<string>): string
    decreases |names|
  {
    if names == [] then dirpath else Joined(Join(dirpath, names[0]), names[1..])
  }

  // The paths of the directories passed on the way.
  function Passed(dirpath: string, names: seq<string>): seq<string>
    decreases |names|
  {
    if |names| <= 1 then [] else [Join(dirpath, names[0])] + Passed(Join(dirpath, names[0]), names[1..])
  }

  // A joined path is the directory, one slash and the name.
  lemma JoinIs(dirpath: string, name: string)
    requires dirpath != "" && dirpath[|dirpath| - 1] != '/'
    ensures Join(dirpath, name) == dirpath + "/" + name
    ensures Join(dirpath + "/", name) == dirpath + "/" + name
  {
  }

  ghost predicate Found(d: Dir, dirpath: string, above: seq<string>, e: Entry, names: seq<string>) {
    InTree(d, names) && e == Entry(Joined(dirpath, names), above + Passed(dirpath, names))
  }

  lemma {:induction false} EntriesAre(dirpath: string, above: seq<string>, names: seq<string>)
    ensures |Entries(dirpath, above, names)| == |names|
    ensures forall k :: 0 <= k < |names| ==> Entries(dirpath, above, names)[k] == Entry(Join(dirpath, names[k]), above)
  {
    if names != [] { EntriesAre(dirpath, above, names[1..]); }
  }

  lemma FileFound(d: Dir, dirpath: string, above: seq<string>, name: string)
    requires name in d.files
    ensures Found(d, dirpath, above, Entry(Join(dirpath, name), above), [name])
  {
    hide Join;
    assert [name][1..] == [] && above + [] == above;
    assert Joined(dirpath, [name]) == Joined(Join(dirpath, name), []);
  }

  lemma FoundBelow(d: Dir, dirpath: string, above: seq<string>, e: Entry, i: nat, names: seq<string>)
    requires i < |d.subdirs|
    requires var path := Join(dirpath, d.subdirs[i].name); Found(d.subdirs[i].dir, path, above + [path], e, names)
    ensures Found(d, dirpath, above, e, [d.subdirs[i].name] + names)
  {
    hide Join;
    var path := Join(dirpath, d.subdirs[i].name);
    var all := [d.subdirs[i].name] + names;
    assert all[1..] == names && names != [];
    assert above + [path] + Passed(path, names) == above + ([path] + Passed(path, names));
  }

  lemma FoundInSome(d: Dir, dirpath: string, above: seq<string>, e: Entry, names: seq<string>) returns (i: nat)
    requires Found(d, dirpath, above, e, names) && |names| > 1
    ensures i < |d.subdirs| && d.subdirs[i].name == names[0]
    ensures var path := Join(dirpath, d.subdirs[i].name); Found(d.subdirs[i].dir, path, above + [path], e, names[1..])
  {
    hide Join;
    i :| 0 <= i < |d.subdirs| && d.subdirs[i].name == names[0] && InTree(d.subdirs[i].dir, names[1..]);
    var path := Join(dirpath, names[0]);
    assert above + ([path] + Passed(path, names[1..])) == above + [path] + Passed(path, names[1..]);
  }

  // The full walk finds every file of the tree and nothing else, each with its path and the
  // directories passed on the way.
  lemma {:induction false} WalkFindsAll(dirpath: string, above: seq<string>, d: Dir, e: Entry, names: seq<string>)
    requires Found(d, dirpath, above, e, names)
    ensures e in FullWalk(dirpath, above, d)
    decreases d, 1
  {
    hide Found, Join;
    if |names| <= 1 {
      OnlyFile(d, dirpath, above, e, names);
      EntriesAre(dirpath, above, d.files);
      var k :| 0 <= k < |d.files| && d.files[k] == names[0];
      assert Entries(dirpath, above, d.files)[k] == e;
    } else {
      var i := FoundInSome(d, dirpath, above, e, names);
      SubsFindAll(dirpath, above, d.subdirs, e, i, names[1..]);
    }
  }

  lemma OnlyFile(d: Dir, dirpath: string, above: seq<string>, e: Entry, names: seq<string>)
    requires Found(d, dirpath, above, e, names) && |names| <= 1
    ensures |names| == 1 && names[0] in d.files && e == Entry(Join(dirpath, names[0]), above)
  {
    hide Join;
    assert names[1..] == [] && above + [] == above;
    assert Joined(Join(dirpath, names[0]), []) == Join(dirpath, names[0]);
  }

  lemma {:induction false} SubsFindAll(dirpath: string, above: seq<string>, subs: seq<Sub>, e: Entry,
                                       i: nat, names: seq<string>)
    requires i < |subs|
    requires var path := Join(dirpath, subs[i].name); Found(subs[i].dir, path, above + [path], e, names)
    ensures e in FullWalks(dirpath, above, subs)
    decreases subs, 0
  {
    hide Found, Join;
    if i == 0 {
      var path := Join(dirpath, subs[0].name);
      WalkFindsAll(path, above + [path], subs[0].dir, e, names);
    } else {
      SubsFindAll(dirpath, above, subs[1..], e, i - 1, names);
    }
  }

  lemma {:induction false} WalkFindsOnly(dirpath: string, above: seq<string>, d: Dir, e: Entry)
    returns (names: seq<string>)
    requires e in FullWalk(dirpath, above, d)
    ensures Found(d, dirpath, above, e, names)
    decreases d, 1
  {
    hide Found, Join;
    if e in Entries(dirpath, above, d.files) {
      EntriesAre(dirpath, above, d.files);
      var k :| 0 <= k < |d.files| && Entries(dirpath, above, d.files)[k] == e;
      FileFound(d, dirpath, above, d.files[k]);
      names := [d.files[k]];
    } else {
      var i, below := SubsFindOnly(dirpath, above, d.subdirs, e);
      FoundBelow(d, dirpath, above, e, i, below);
      names := [d.subdirs[i].name] + below;
    }
  }

  lemma {:induction false} SubsFindOnly(dirpath: string, above: seq<string>, subs: seq<Sub>, e: Entry)
    returns (i: nat, names: seq<string>)
    requires e in FullWalks(dirpath, above, subs)
    ensures i < |subs|
    ensures var path := Join(dirpath, subs[i].name); Found(subs[i].dir, path, above + [path], e, names)
    decreases subs, 0
  {
    hide Found, Join;
    var path := Join(dirpath, subs[0].name);
    if e in FullWalk(path, above + [path], subs[0].dir) {
      i := 0;
      names := WalkFindsOnly(path, above + [path], subs[0].dir, e);
    } else {
      var j, below := SubsFindOnly(dirpath, above, subs[1..], e);
      i, names := j + 1, below;
    }
  }

  // Files of a tree, each counted where it is listed.
  function FileCount(d: Dir): nat
    decreases d, 1
  {
    |d.files| + FileCounts(d.subdirs)
  }

  function FileCounts(subs: seq<Sub>): nat
    decreases subs, 0
  {
    if subs == [] then 0 else FileCount(subs[0].dir) + FileCounts(subs[1..])
  }

  lemma SliceOfSum(a: seq<Entry>, b: seq<Entry>, from: nat, n: nat)
    requires from + n <= |b|
    ensures (a + b)[|a| + from..|a| + from + n] == b[from..from + n]
  {
  }

  lemma {:induction false} SubsCount(dirpath: string, above: seq<string>, subs: seq<Sub>)
    ensures |FullWalks(dirpath, above, subs)| == FileCounts(subs)
    decreases subs, 0
  {
    if subs != [] {
      var path := Join(dirpath, subs[0].name);
      WalkCount(path, above + [path], subs[0].dir);
      SubsCount(dirpath, above, subs[1..]);
    }
  }

  lemma {:induction false} WalkCount(dirpath: string, above: seq<string>, d: Dir)
    ensures |FullWalk(dirpath, above, d)| == FileCount(d)
    decreases d, 1
  {
    EntriesAre(dirpath, above, d.files);
    SubsCount(dirpath, above, d.subdirs);
  }

  lemma {:induction false} SubsInOrder(dirpath: string, above: seq<string>, subs: seq<Sub>, i: nat)
    requires i < |subs|
    ensures FileCounts(subs[..i]) + FileCount(subs[i].dir) <= |FullWalks(dirpath, above, subs)|
    ensures var path := Join(dirpath, subs[i].name);
      var from, n := FileCounts(subs[..i]), FileCount(subs[i].dir);
      FullWalks(dirpath, above, subs)[from..from + n] == FullWalk(path, above + [path], subs[i].dir)
  {
    hide Join, FullWalk, FileCount;
    var path := Join(dirpath, subs[0].name);
    var first, rest := FullWalk(path, above + [path], subs[0].dir), FullWalks(dirpath, above, subs[1..]);
    WalkCount(path, above + [path], subs[0].dir);
    assert FullWalks(dirpath, above, subs) == first + rest;
    if i > 0 {
      SubsInOrder(dirpath, above, subs[1..], i - 1);
      assert subs[..i][0] == subs[0] && subs[..i][1..] == subs[1..][..i - 1];
      hide FullWalks;
      SliceOfSum(first, rest, FileCounts(subs[1..][..i - 1]), FileCount(subs[i].dir));
    }
  }

  // It lists each of them once: first the directory's own files, as listed, then one subdirectory
  // after the other, as listed.
  lemma FilesFirst(dirpath: string, above: seq<string>, d: Dir)
    ensures |FullWalk(dirpath, above, d)| == FileCount(d) >= |d.files|
    ensures forall k :: 0 <= k < |d.files| ==>
      FullWalk(dirpath, above, d)[k] == Entry(Join(dirpath, d.files[k]), above)
  {
    EntriesAre(dirpath, above, d.files);
    WalkCount(dirpath, above, d);
    hide Join;
  }

  lemma ThenSubdirectories(dirpath: string, above: seq<string>, d: Dir, i: nat)
    requires i < |d.subdirs|
    ensures |d.files| + FileCounts(d.subdirs[..i]) + FileCount(d.subdirs[i].dir) <= |FullWalk(dirpath, above, d)|
    ensures var path := Join(dirpath, d.subdirs[i].name);
      var from, n := |d.files| + FileCounts(d.subdirs[..i]), FileCount(d.subdirs[i].dir);
      FullWalk(dirpath, above, d)[from..from + n] == FullWalk(path, above + [path], d.subdirs[i].dir)
  {
    EntriesAre(dirpath, above, d.files);
    SubsInOrder(dirpath, above, d.subdirs, i);
    hide Join, FullWalks, FileCounts, FileCount, Entries;
    SliceOfSum(Entries(dirpath, above, d.files), FullWalks(dirpath, above, d.subdirs),
               FileCounts(d.subdirs[..i]), FileCount(d.subdirs[i].dir));
  }

  lemma {:induction false} FilterIs(r: Rules, es: seq<Entry>, p: string)
    ensures p in Filter(r, es) <==> exists e :: e in es && Wanted(r, e) && e.path == p
  {
    if es != [] {
      FilterIs(r, es[1..], p);
      hide Wanted;
      assert forall e :: e in es <==> e == es[0] || e in es[1..];
    }
  }

  // The names lead to a file of that path, its extension is listed, and neither it nor a directory
  // passed on the way matches a pattern; the root itself is not matched.
  ghost predicate Selects(r: Rules, dirpath: string, d: Dir, p: string, names: seq<string>) {
    && InTree(d, names) && p == Joined(dirpath, names)
    && r.listed(p) && !Excluded(r, p) && forall q :: q in Passed(dirpath, names) ==> !Excluded(r, q)
  }

  // The walk of a directory returns exactly those paths.
  lemma SelectedIff(r: Rules, dirpath: string, d: Dir, p: string)
    ensures p in PrunedWalk(r, dirpath, d) <==>
      exists names :: Selects(r, dirpath, d, p, names)
  {
    PrunedIsFiltered(r, dirpath, [], d);
    FilterIs(r, FullWalk(dirpath, [], d), p);
    hide FullWalk, Filter, InTree, Joined, Passed, Excluded, PrunedWalk;
    if p in PrunedWalk(r, dirpath, d) {
      var e :| e in FullWalk(dirpath, [], d) && Wanted(r, e) && e.path == p;
      var names := WalkFindsOnly(dirpath, [], d, e);
      assert [] + Passed(dirpath, names) == Passed(dirpath, names);
      assert Selects(r, dirpath, d, p, names);
    }
    if exists names :: Selects(r, dirpath, d, p, names) {
      var names :| Selects(r, dirpath, d, p, names);
      var e := Entry(p, Passed(dirpath, names));
      assert [] + Passed(dirpath, names) == Passed(dirpath, names);
      WalkFindsAll(dirpath, [], d, e, names);
      assert Wanted(r, e);
    }
  }

  // ---- the loops ----

  // The exclude loop: one pattern after the other trims both lists.
  lemma {:induction false} DropAll(r: Rules, dirpath: string, subs: seq<Sub>, paths: seq<string>, i: nat)
    requires i <= |r.exclude|
    ensures DropSubsTo(r, i, dirpath, subs) == KeepSubs(r.(exclude := r.exclude[..i]), dirpath, subs)
    ensures DropPathsTo(r, i, paths) == KeepPaths(r.(exclude := r.exclude[..i]), paths)
  {
    if i == 0 {
      KeepAll(r.(exclude := r.exclude[..0]), dirpath, subs, paths);
    } else {
      DropAll(r, dirpath, subs, paths, i - 1);
      DropNext(r, dirpath, subs, i - 1);
      DropNextPaths(r, paths, i - 1);
    }
  }

  function DropSubsTo(r: Rules, i: nat, dirpath: string, subs: seq<Sub>): seq<Sub>
    requires i <= |r.exclude|
  {
    if i == 0 then subs else DropSubs(r, r.exclude[i - 1], dirpath, DropSubsTo(r, i - 1, dirpath, subs))
  }

  function DropPathsTo(r: Rules, i: nat, paths: seq<string>): seq<string>
    requires i <= |r.exclude|
  {
    if i == 0 then paths else DropPaths(r, r.exclude[i - 1], DropPathsTo(r, i - 1, paths))
  }

  lemma {:induction false} KeepAll(r: Rules, dirpath: string, subs: seq<Sub>, paths: seq<string>)
    requires r.exclude == []
    ensures KeepSubs(r, dirpath, subs) == subs && KeepPaths(r, paths) == paths
    decreases |subs| + |paths|
  {
    if subs != [] { KeepAll(r, dirpath, subs[1..], []); }
    if paths != [] { KeepAll(r, dirpath, [], paths[1..]); }
  }

  lemma ExcludedNext(r: Rules, i: nat, path: string)
    requires i < |r.exclude|
    ensures Excluded(r.(exclude := r.exclude[..i + 1]), path) <==>
      Excluded(r.(exclude := r.exclude[..i]), path) || r.matches(path, r.exclude[i])
  {
    var a, b := r.exclude[..i], r.exclude[..i + 1];
    assert forall k :: 0 <= k < i ==> a[k] == b[k];
    assert b[i] == r.exclude[i];
  }

  lemma {:induction false} DropNext(r: Rules, dirpath: string, subs: seq<Sub>, i: nat)
    requires i < |r.exclude|
    ensures DropSubs(r, r.exclude[i], dirpath, KeepSubs(r.(exclude := r.exclude[..i]), dirpath, subs)) ==
      KeepSubs(r.(exclude := r.exclude[..i + 1]), dirpath, subs)
    decreases subs
  {
    if subs != [] {
      DropNext(r, dirpath, subs[1..], i);
      ExcludedNext(r, i, Join(dirpath, subs[0].name));
      hide Excluded, Join;
      var kept := KeepSubs(r.(exclude := r.exclude[..i]), dirpath, subs[1..]);
      assert ([subs[0]] + kept)[1..] == kept && [] + kept == kept;
    }
  }

  lemma {:induction false} DropNextPaths(r: Rules, paths: seq<string>, i: nat)
    requires i < |r.exclude|
    ensures DropPaths(r, r.exclude[i], KeepPaths(r.(exclude := r.exclude[..i]), paths)) ==
      KeepPaths(r.(exclude := r.exclude[..i + 1]), paths)
    decreases paths
  {
    if paths != [] {
      DropNextPaths(r, paths[1..], i);
      ExcludedNext(r, i, paths[0]);
      hide Excluded;
      var kept := KeepPaths(r.(exclude := r.exclude[..i]), paths[1..]);
      assert ([paths[0]] + kept)[1..] == kept && [] + kept == kept;
    }
  }

  // Descending into the trimmed subdirectories is skipping the excluded ones.
  lemma {:induction false} SkipIsTrim(r: Rules, dirpath: string, subs: seq<Sub>)
    ensures PrunedWalks(r, dirpath, subs) == WalkEach(r, dirpath, KeepSubs(r, dirpath, subs))
    decreases subs
  {
    if subs != [] {
      SkipIsTrim(r, dirpath, subs[1..]);
      hide Excluded, PrunedWalk, Join;
      var kept := KeepSubs(r, dirpath, subs[1..]);
      assert ([subs[0]] + kept)[1..] == kept && [] + kept == kept;
    }
  }

  function WalkEach(r: Rules, dirpath: string, subs: seq<Sub>): seq<string> {
    if subs == [] then [] else PrunedWalk(r, Join(dirpath, subs[0].name), subs[0].dir) + WalkEach(r, dirpath, subs[1..])
  }

  method Trim(r: Rules, dirpath: string, d: Dir) returns (dnames: seq<Sub>, fpaths: seq<string>)
    ensures dnames == KeepSubs(r, dirpath, d.subdirs) && fpaths == KeepPaths(r, Paths(dirpath, d.files))
  {
    hide DropSubs, DropPaths, KeepSubs, KeepPaths;
    dnames, fpaths := d.subdirs, Paths(dirpath, d.files);
    for i := 0 to |r.exclude|
      invariant dnames == DropSubsTo(r, i, dirpath, d.subdirs) && fpaths == DropPathsTo(r, i, Paths(dirpath, d.files))
    {
      dnames := DropSubs(r, r.exclude[i], dirpath, dnames);
      fpaths := DropPaths(r, r.exclude[i], fpaths);
    }
    DropAll(r, dirpath, d.subdirs, Paths(dirpath, d.files), |r.exclude|);
    assert r.(exclude := r.exclude[..|r.exclude|]) == r;
  }

  method PickListed(r: Rules, fpaths: seq<string>) returns (out: seq<string>)
    ensures out == Listed(r, fpaths)
  {
    out := [];
    for i := 0 to |fpaths|
      invariant out + Listed(r, fpaths[i..]) == Listed(r, fpaths)
    {
      assert fpaths[i..][1..] == fpaths[i + 1..];
      if r.listed(fpaths[i]) { out := out + [fpaths[i]]; }
    }
  }

  method Walk(r: Rules, dirpath: string, d: Dir) returns (out: seq<string>)
    ensures out == PrunedWalk(r, dirpath, d)
    decreases d
  {
    hide Listed, KeepPaths, KeepSubs, Paths, Join, Excluded, PrunedWalks;
    var dnames, fpaths := Trim(r, dirpath, d);
    SkipIsTrim(r, dirpath, d.subdirs);
    KeptAreSubs(r, dirpath, d.subdirs);
    out := PickListed(r, fpaths);
    for i := 0 to |dnames|
      invariant out + WalkEach(r, dirpath, dnames[i..]) == PrunedWalk(r, dirpath, d)
    {
      assert dnames[i..][1..] == dnames[i + 1..];
      assert dnames[i] in d.subdirs;
      var below := Walk(r, Join(dirpath, dnames[i].name), dnames[i].dir);
      out := out + below;
    }
  }

  lemma {:induction false} KeptAreSubs(r: Rules, dirpath: string, subs: seq<Sub>)
    ensures forall i :: 0 <= i < |KeepSubs(r, dirpath, subs)| ==> KeepSubs(r, dirpath, subs)[i] in subs
  {
    if subs != [] {
      KeptAreSubs(r, dirpath, subs[1..]);
      hide Excluded, Join;
      var kept := KeepSubs(r, dirpath, subs[1..]);
      forall i | 0 <= i < |KeepSubs(r, dirpath, subs)| ensures KeepSubs(r, dirpath, subs)[i] in subs {
        var k := KeepSubs(r, dirpath, subs)[i];
        assert k == subs[0] || k in kept;
        if k in kept {
          var j :| 0 <= j < |kept| && kept[j] == k;
          assert kept[j] in subs[1..];
        }
      }
    }
  }

  // A command-line argument: a directory with its tree, or anything else.
  datatype Arg = Directory(path: string, tree: Dir) | Other(path: string)

  // Each argument's share of the result, from a full walk.
  function Selected(r: Rules, args: seq<Arg>, recursive: bool): seq<string> {
    if args == [] then [] else
      SelectedFor(r, args[0], recursive) + Selected(r, args[1..], recursive)
  }

  function SelectedFor(r: Rules, arg: Arg, recursive: bool): seq<string> {
    if recursive && arg.Directory? then Filter(r, FullWalk(arg.path, [], arg.tree)) else [arg.path]
  }

  lemma SelectedFrom(r: Rules, args: seq<Arg>, i: nat, recursive: bool)
    requires i <= |args|
    ensures Selected(r, args[i..], recursive) ==
      if i == |args| then [] else SelectedFor(r, args[i], recursive) + Selected(r, args[i + 1..], recursive)
  {
    hide SelectedFor;
    if i < |args| { assert args[i..][1..] == args[i + 1..]; }
  }

  // list_files.
  method SelectFiles(r: Rules, args: seq<Arg>, recursive: bool) returns (out: seq<string>)
    ensures out == Selected(r, args, recursive)
  {
    hide Filter, FullWalk, PrunedWalk, Selected;
    out := [];
    assert args[0..] == args;
    for i := 0 to |args|
      invariant out + Selected(r, args[i..], recursive) == Selected(r, args, recursive)
    {
      SelectedFrom(r, args, i, recursive);
      if recursive && args[i].Directory? {
        var walked := Walk(r, args[i].path, args[i].tree);
        PrunedIsFiltered(r, args[i].path, [], args[i].tree);
        out := out + walked;
      } else {
        out := out + [args[i].path];
      }
    }
    SelectedFrom(r, args, |args|, recursive);
  }

  // An argument that is not walked appears as itself: without the recursive flag the result is
  // the arguments in order, with it each argument that is not a directory is in it as it is, and
  // a directory stands for what its walk selects.
  lemma {:induction false} ArgumentsStand(r: Rules, args: seq<Arg>)
    ensures |Selected(r, args, false)| == |args|
    ensures forall k :: 0 <= k < |args| ==> Selected(r, args, false)[k] == args[k].path
  {
    if args != [] { ArgumentsStand(r, args[1..]); }
  }

  lemma {:induction false} ShareOf(r: Rules, before: seq<Arg>, arg: Arg, after: seq<Arg>)
    ensures Selected(r, before + [arg] + after, true) ==
      Selected(r, before, true)
      + (if arg.Directory? then PrunedWalk(r, arg.path, arg.tree) else [arg.path])
      + Selected(r, after, true)
  {
    hide Filter, FullWalk, PrunedWalk;
    var all := before + [arg] + after;
    if before == [] {
      assert all[0] == arg && all[1..] == after;
      if arg.Directory? { PrunedIsFiltered(r, arg.path, [], arg.tree); }
    } else {
      assert all[0] == before[0] && all[1..] == before[1..] + [arg] + after;
      ShareOf(r, before[1..], arg, after);
    }
  }

  // ---- the exit code ----

  // What one file yields: no diff, a diff, a DiffError, or an unexpected exception.
  datatype Outcome = Clean | Diff | Trouble | Unexpected

  const SUCCESS := 0
  const DIFF := 1
  const TROUBLE := 2

  // The result loop of main: it stops at the first unexpected exception.
  method ExitCode(results: seq<Outcome>) returns (retcode: int)
    ensures retcode in {0, 1, 2}
    ensures retcode == 2 <==> Trouble in results || Unexpected in results
    ensures retcode == 1 <==> Trouble !in results && Unexpected !in results && Diff in results
    ensures retcode == 0 <==> forall o :: o in results ==> o == Clean
  {
    retcode := SUCCESS;
    for i := 0 to |results|
      invariant Unexpected !in results[..i]
      invariant retcode == TROUBLE <==> Trouble in results[..i]
      invariant retcode == DIFF <==> Trouble !in results[..i] && Diff in results[..i]
      invariant retcode in {SUCCESS, DIFF, TROUBLE}
    {
      assert results[..i + 1] == results[..i] + [results[i]];
      match results[i] {
        case Clean =>
        case Diff => if retcode == SUCCESS { retcode := DIFF; }
        case Trouble => retcode := TROUBLE;
        case Unexpected => return TROUBLE;
      }
    }
    assert results[..|results|] == results;
  }
}
