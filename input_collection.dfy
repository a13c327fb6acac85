/**
 * The order in which the task gathers its inputs: every entry of every
 * nested `<path>` element, in declaration order, followed by every file of
 * every nested `<fileset>` element, in iteration order. Nothing is removed:
 * a file reachable both ways is an input twice.
 */
module InputCollection {
  import opened Common

  /** The files made from the entries of one `<path>` element, in order. */
  function AsFiles(entries: seq<string>): (r: seq<File>)
    ensures |r| == |entries|
  {
    if entries == [] then [] else AsFiles(entries[..|entries| - 1]) + [File(entries[|entries| - 1])]
  }

  /** The files of all `<path>` elements, one element after the other. */
  function PathFiles(pathDecls: seq<seq<string>>): seq<File> {
    if pathDecls == [] then [] else PathFiles(pathDecls[..|pathDecls| - 1]) + AsFiles(pathDecls[|pathDecls| - 1])
  }

  /** The files of all `<fileset>` elements, one element after the other. */
  function Flatten<T>(groups: seq<seq<T>>): seq<T> {
    if groups == [] then [] else Flatten(groups[..|groups| - 1]) + groups[|groups| - 1]
  }

  /** The files of each `<path>` element, one group per element. */
  function PathGroups(pathDecls: seq<seq<string>>): (r: seq<seq<File>>)
    ensures |r| == |pathDecls|
  {
    seq(|pathDecls|, i requires 0 <= i < |pathDecls| => AsFiles(pathDecls[i]))
  }

  /** The list of input files `execute` hands to the dependency check and to dx. */
  function CollectedInputs(pathDecls: seq<seq<string>>, fileSetDecls: seq<seq<File>>): seq<File> {
    PathFiles(pathDecls) + Flatten(fileSetDecls)
  }

  /** The sum of the group sizes, the reference for the number of inputs. */
  function TotalSize<T>(groups: seq<seq<T>>): nat {
    if groups == [] then 0 else TotalSize(groups[1..]) + |groups[0]|
  }

  // ---------------------------------------------------------------------

  lemma {:induction false} AsFilesAt(entries: seq<string>, k: nat)
    requires k < |entries|
    ensures AsFiles(entries)[k] == File(entries[k])
  {
    if k < |entries| - 1 {
      AsFilesAt(entries[..|entries| - 1], k);
    }
  }

  lemma AsFilesMembership(entries: seq<string>, s: string)
    ensures File(s) in AsFiles(entries) <==> s in entries
  {
    if File(s) in AsFiles(entries) {
      var k :| 0 <= k < |entries| && AsFiles(entries)[k] == File(s);
      AsFilesAt(entries, k);
    }
    if s in entries {
      var k :| 0 <= k < |entries| && entries[k] == s;
      AsFilesAt(entries, k);
    }
  }

  lemma {:induction false} FlattenMembership<T>(groups: seq<seq<T>>, x: T)
    ensures x in Flatten(groups) <==> exists i :: 0 <= i < |groups| && x in groups[i]
  {
    if groups != [] {
      var init := groups[..|groups| - 1];
      FlattenMembership(init, x);
      if exists i :: 0 <= i < |init| && x in init[i] {
        var i :| 0 <= i < |init| && x in init[i];
        assert x in groups[i];
      }
    }
  }

  lemma {:induction false} PathFilesMembership(pathDecls: seq<seq<string>>, s: string)
    ensures File(s) in PathFiles(pathDecls) <==> exists i :: 0 <= i < |pathDecls| && s in pathDecls[i]
  {
    if pathDecls != [] {
      var init := pathDecls[..|pathDecls| - 1];
      PathFilesMembership(init, s);
      AsFilesMembership(pathDecls[|pathDecls| - 1], s);
      if exists i :: 0 <= i < |init| && s in init[i] {
        var i :| 0 <= i < |init| && s in init[i];
        assert s in pathDecls[i];
      }
    }
  }

  lemma {:induction false} FlattenAppend<T>(xs: seq<seq<T>>, ys: seq<seq<T>>)
    ensures Flatten(xs + ys) == Flatten(xs) + Flatten(ys)
    decreases |ys|
  {
    if ys == [] {
      assert xs + ys == xs;
    } else {
      var init := ys[..|ys| - 1];
      assert (xs + ys)[..|xs + ys| - 1] == xs + init;
      FlattenAppend(xs, init);
    }
  }

  lemma FlattenSingleton<T>(group: seq<T>)
    ensures Flatten([group]) == group
  {
    assert [group][..0] == [];
  }

  /**
   * Each `<fileset>` keeps its own files together and in order, between the
   * files of the elements declared before it and after it.
   */
  lemma {:induction false} FlattenSplit<T>(groups: seq<seq<T>>, i: nat)
    requires i < |groups|
    ensures Flatten(groups) == Flatten(groups[..i]) + groups[i] + Flatten(groups[i + 1..])
  {
    var before, rest := groups[..i], groups[i + 1..];
    calc {
      Flatten(groups);
      { assert groups == before + ([groups[i]] + rest); }
      Flatten(before + ([groups[i]] + rest));
      { FlattenAppend(before, [groups[i]] + rest); }
      Flatten(before) + Flatten([groups[i]] + rest);
      { FlattenAppend([groups[i]], rest); FlattenSingleton(groups[i]); }
      Flatten(before) + groups[i] + Flatten(rest);
    }
  }

  /** The `<path>` files are the files of each `<path>` element, one element after the other. */
  lemma {:induction false} PathFilesAsGroups(pathDecls: seq<seq<string>>)
    ensures PathFiles(pathDecls) == Flatten(PathGroups(pathDecls))
  {
    if pathDecls != [] {
      var init := pathDecls[..|pathDecls| - 1];
      PathFilesAsGroups(init);
      assert PathGroups(pathDecls)[..|pathDecls| - 1] == PathGroups(init);
    }
  }

  /**
   * Each `<path>` element keeps its own entries together and in order,
   * between the entries of the elements declared before it and after it.
   */
  lemma PathFilesSplit(pathDecls: seq<seq<string>>, i: nat)
    requires i < |pathDecls|
    ensures PathFiles(pathDecls) == PathFiles(pathDecls[..i]) + AsFiles(pathDecls[i]) + PathFiles(pathDecls[i + 1..])
  {
    var groups := PathGroups(pathDecls);
    calc {
      PathFiles(pathDecls);
      { PathFilesAsGroups(pathDecls); }
      Flatten(groups);
      { FlattenSplit(groups, i); }
      Flatten(groups[..i]) + groups[i] + Flatten(groups[i + 1..]);
      { PathGroupsPrefix(pathDecls, i); PathFilesAsGroups(pathDecls[..i]); }
      PathFiles(pathDecls[..i]) + groups[i] + Flatten(groups[i + 1..]);
      { PathGroupsSuffix(pathDecls, i + 1); PathFilesAsGroups(pathDecls[i + 1..]); }
      PathFiles(pathDecls[..i]) + AsFiles(pathDecls[i]) + PathFiles(pathDecls[i + 1..]);
    }
  }

  lemma PathGroupsPrefix(pathDecls: seq<seq<string>>, n: nat)
    requires n <= |pathDecls|
    ensures PathGroups(pathDecls)[..n] == PathGroups(pathDecls[..n])
  {
  }

  lemma PathGroupsSuffix(pathDecls: seq<seq<string>>, n: nat)
    requires n <= |pathDecls|
    ensures PathGroups(pathDecls)[n..] == PathGroups(pathDecls[n..])
  {
  }

  lemma {:induction false} FlattenSize<T>(groups: seq<seq<T>>)
    ensures |Flatten(groups)| == TotalSize(groups)
  {
    if groups != [] {
      assert groups == [groups[0]] + groups[1..];
      FlattenAppend([groups[0]], groups[1..]);
      FlattenSingleton(groups[0]);
      FlattenSize(groups[1..]);
    }
  }

  lemma {:induction false} PathFilesSize(pathDecls: seq<seq<string>>)
    ensures |PathFiles(pathDecls)| == TotalSize(pathDecls)
  {
    if pathDecls != [] {
      var init := pathDecls[..|pathDecls| - 1];
      PathFilesSize(init);
      TotalSizeAppend(init, [pathDecls[|pathDecls| - 1]]);
      assert init + [pathDecls[|pathDecls| - 1]] == pathDecls;
    }
  }

  lemma {:induction false} TotalSizeAppend<T>(xs: seq<seq<T>>, ys: seq<seq<T>>)
    ensures TotalSize(xs + ys) == TotalSize(xs) + TotalSize(ys)
  {
    if xs != [] {
      assert (xs + ys)[1..] == xs[1..] + ys;
      TotalSizeAppend(xs[1..], ys);
    } else {
      assert xs + ys == ys;
    }
  }

  /**
   * The collected list: all `<path>` entries first, then all `<fileset>`
   * files; one input per entry, so its length is the total of all elements.
   */
  lemma CollectedOrder(pathDecls: seq<seq<string>>, fileSetDecls: seq<seq<File>>)
    ensures var c := CollectedInputs(pathDecls, fileSetDecls);
      && |c| == TotalSize(pathDecls) + TotalSize(fileSetDecls)
      && c[..TotalSize(pathDecls)] == PathFiles(pathDecls)
      && c[TotalSize(pathDecls)..] == Flatten(fileSetDecls)
  {
    PathFilesSize(pathDecls);
    FlattenSize(fileSetDecls);
  }

  /** A file is an input iff some `<path>` lists it or some `<fileset>` yields it. */
  lemma CollectedMembership(pathDecls: seq<seq<string>>, fileSetDecls: seq<seq<File>>, f: File)
    ensures f in CollectedInputs(pathDecls, fileSetDecls) <==>
      (exists i :: 0 <= i < |pathDecls| && f.path in pathDecls[i]) ||
      (exists j :: 0 <= j < |fileSetDecls| && f in fileSetDecls[j])
  {
    PathFilesMembership(pathDecls, f.path);
    FlattenMembership(fileSetDecls, f);
  }

  /** No deduplication: a file reachable through a `<path>` and a `<fileset>` is collected at least twice. */
  lemma DuplicatesKept(pathDecls: seq<seq<string>>, fileSetDecls: seq<seq<File>>, f: File, i: nat, j: nat)
    requires i < |pathDecls| && f.path in pathDecls[i]
    requires j < |fileSetDecls| && f in fileSetDecls[j]
    ensures multiset(CollectedInputs(pathDecls, fileSetDecls))[f] >= 2
  {
    PathFilesMembership(pathDecls, f.path);
    FlattenMembership(fileSetDecls, f);
    assert File(f.path) == f;
  }
}
