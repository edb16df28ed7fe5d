/** Merging configuration trees and finding the file behind a field (src/config/loader.rs). */
module Loader {
  import opened Bytes

  type File = nat
  type Path = seq<string>

  /** A parsed TOML value: arrays and scalars are atomic. */
  datatype Tree = Leaf(text: string) | Table(entries: map<string, Tree>)

  const EMPTY := Table(map[])

  /** The value at a field path, when the tree has one. */
  function At(tree: Tree, path: Path): Option<Tree>
    decreases |path|
  {
    if path == [] then Some(tree)
    else if tree.Table? && path[0] in tree.entries then At(tree.entries[path[0]], path[1..])
    else None
  }

  predicate Defines(tree: Tree, path: Path) {
    At(tree, path).Some?
  }

  predicate LeafAt(tree: Tree, path: Path) {
    At(tree, path).Some? && At(tree, path).value.Leaf?
  }

  function Child(target: Tree, key: string): Tree
    requires target.Table?
  {
    if key in target.entries then target.entries[key] else EMPTY
  }

  /** What merging makes of a target and an incoming value. */
  function Merged(target: Tree, incoming: Tree): Tree
    decreases incoming, 1
  {
    if target.Table? && incoming.Table? then Table(Joined(target, incoming, incoming.entries.Keys)) else incoming
  }

  /** The target's entries after the given incoming keys have been merged. */
  function Joined(target: Tree, incoming: Tree, keys: set<string>): map<string, Tree>
    requires target.Table? && incoming.Table? && keys <= incoming.entries.Keys
    decreases incoming, 0
  {
    map key | key in target.entries.Keys + keys ::
      if key in keys then Merged(Child(target, key), incoming.entries[key]) else target.entries[key]
  }

  /** The paths that merging stamps with the incoming file, below `prefix`. */
  function Visited(target: Tree, incoming: Tree, prefix: Path): set<Path>
    decreases incoming, 1
  {
    {prefix} + if target.Table? && incoming.Table?
               then VisitedBelow(target, incoming, prefix, incoming.entries.Keys) else {}
  }

  function VisitedBelow(target: Tree, incoming: Tree, prefix: Path, keys: set<string>): set<Path>
    requires target.Table? && incoming.Table? && keys <= incoming.entries.Keys
    decreases incoming, 0
  {
    set key, path | key in keys && path in Visited(Child(target, key), incoming.entries[key], prefix + [key]) :: path
  }

  function Stamped(sources: map<Path, File>, paths: set<Path>, file: File): map<Path, File> {
    map path | path in sources.Keys + paths :: if path in paths then file else sources[path]
  }

  lemma StampedTwice(sources: map<Path, File>, some: set<Path>, others: set<Path>, file: File)
    ensures Stamped(Stamped(sources, some, file), others, file) == Stamped(sources, some + others, file)
  {
  }

  lemma StampOneMore(target: Tree, incoming: Tree, prefix: Path, done: set<string>, key: string,
                     sources: map<Path, File>, file: File)
    requires target.Table? && incoming.Table? && done <= incoming.entries.Keys && key in incoming.entries
    ensures Stamped(Stamped(sources, {prefix} + VisitedBelow(target, incoming, prefix, done), file),
                    Visited(Child(target, key), incoming.entries[key], prefix + [key]), file)
         == Stamped(sources, {prefix} + VisitedBelow(target, incoming, prefix, done + {key}), file)
  {
    var before, more := {prefix} + VisitedBelow(target, incoming, prefix, done),
                        Visited(Child(target, key), incoming.entries[key], prefix + [key]);
    StampedTwice(sources, before, more, file);
    assert before + more == {prefix} + VisitedBelow(target, incoming, prefix, done + {key});
  }

  lemma JoinOneMore(target: Tree, incoming: Tree, done: set<string>, key: string)
    requires target.Table? && incoming.Table? && done <= incoming.entries.Keys && key in incoming.entries
    ensures Joined(target, incoming, done)[key := Merged(Child(target, key), incoming.entries[key])]
         == Joined(target, incoming, done + {key})
  {
  }

  /** What merging has made of the target and the sources once some keys are done. */
  ghost predicate MergedSoFar(
      target: Tree, incoming: Tree, prefix: Path, done: set<string>, sources: map<Path, File>, file: File,
      entries: map<string, Tree>, recorded: map<Path, File>)
    requires target.Table? && incoming.Table? && done <= incoming.entries.Keys
  {
    && entries == Joined(target, incoming, done)
    && recorded == Stamped(sources, {prefix} + VisitedBelow(target, incoming, prefix, done), file)
  }

  lemma MergingStarts(target: Tree, incoming: Tree, prefix: Path, sources: map<Path, File>, file: File)
    requires target.Table? && incoming.Table?
    ensures MergedSoFar(target, incoming, prefix, {}, sources, file, target.entries, sources[prefix := file])
  {
    assert VisitedBelow(target, incoming, prefix, {}) == {};
  }

  lemma MergingContinues(
      target: Tree, incoming: Tree, prefix: Path, done: set<string>, key: string, sources: map<Path, File>, file: File,
      entries: map<string, Tree>, recorded: map<Path, File>, value: Tree, more: map<Path, File>)
    requires target.Table? && incoming.Table? && done <= incoming.entries.Keys && key in incoming.entries
    requires MergedSoFar(target, incoming, prefix, done, sources, file, entries, recorded)
    requires value == Merged(Child(target, key), incoming.entries[key])
    requires more == Stamped(recorded, Visited(Child(target, key), incoming.entries[key], prefix + [key]), file)
    ensures MergedSoFar(target, incoming, prefix, done + {key}, sources, file, entries[key := value], more)
  {
    StampOneMore(target, incoming, prefix, done, key, sources, file);
    JoinOneMore(target, incoming, done, key);
  }

  lemma MergingEnds(
      target: Tree, incoming: Tree, prefix: Path, sources: map<Path, File>, file: File,
      entries: map<string, Tree>, recorded: map<Path, File>)
    requires target.Table? && incoming.Table?
    requires MergedSoFar(target, incoming, prefix, incoming.entries.Keys, sources, file, entries, recorded)
    ensures Table(entries) == Merged(target, incoming)
    ensures recorded == Stamped(sources, Visited(target, incoming, prefix), file)
  {
  }

  lemma AtomsAreTaken(target: Tree, incoming: Tree, prefix: Path, sources: map<Path, File>, file: File)
    requires target.Leaf? || incoming.Leaf?
    ensures Merged(target, incoming) == incoming
    ensures Stamped(sources, Visited(target, incoming, prefix), file) == sources[prefix := file]
  {
  }

  method Merge(target: Tree, incoming: Tree, prefix: Path, file: File, sources: map<Path, File>)
    returns (merged: Tree, recorded: map<Path, File>)
    ensures merged == Merged(target, incoming)
    ensures recorded == Stamped(sources, Visited(target, incoming, prefix), file)
    decreases incoming
  {
    hide Merged, Stamped, Visited, MergedSoFar;
    recorded := sources[prefix := file];
    if target.Leaf? || incoming.Leaf? {
      AtomsAreTaken(target, incoming, prefix, sources, file);
      return incoming, recorded;
    }
    var entries, todo := target.entries, incoming.entries.Keys;
    MergingStarts(target, incoming, prefix, sources, file);
    assert incoming.entries.Keys - todo == {};
    while todo != {}
      invariant todo <= incoming.entries.Keys
      invariant MergedSoFar(target, incoming, prefix, incoming.entries.Keys - todo, sources, file, entries, recorded)
    {
      var key :| key in todo;
      ghost var done := incoming.entries.Keys - todo;
      var value, more := Merge(Child(target, key), incoming.entries[key], prefix + [key], file, recorded);
      MergingContinues(
        target, incoming, prefix, done, key, sources, file, entries, recorded, value, more);
      entries, recorded, todo := entries[key := value], more, todo - {key};
      assert incoming.entries.Keys - todo == done + {key};
    }
    assert incoming.entries.Keys - todo == incoming.entries.Keys;
    MergingEnds(target, incoming, prefix, sources, file, entries, recorded);
    merged := Table(entries);
  }

  // ----- Trees of agreeing shape -----

  /** No field is atomic in one tree and a table in the other. */
  ghost predicate Agrees(a: Tree, b: Tree) {
    forall path :: Defines(a, path) && Defines(b, path) ==> (LeafAt(a, path) <==> LeafAt(b, path))
  }

  lemma AgreeingChildren(a: Tree, b: Tree, key: string)
    requires Agrees(a, b) && a.Table? && b.Table? && key in b.entries
    ensures Agrees(Child(a, key), b.entries[key]) || key !in a.entries
  {
    if key in a.entries {
      forall path | Defines(a.entries[key], path) && Defines(b.entries[key], path)
        ensures LeafAt(a.entries[key], path) <==> LeafAt(b.entries[key], path)
      {
        assert ([key] + path)[1..] == path;
        assert Defines(a, [key] + path) && Defines(b, [key] + path);
      }
    }
  }

  /** Merging into an empty table copies the incoming tree. */
  lemma {:induction false} MergedIntoEmpty(incoming: Tree)
    ensures Merged(EMPTY, incoming) == incoming
    decreases incoming
  {
    if incoming.Table? {
      forall key | key in incoming.entries
        ensures Merged(EMPTY, incoming.entries[key]) == incoming.entries[key]
      {
        MergedIntoEmpty(incoming.entries[key]);
      }
    }
  }

  /** At every path the incoming tree wins where it defines an atomic value; tables are joined. */
  lemma {:induction false} MergedAt(target: Tree, incoming: Tree, path: Path)
    requires Agrees(target, incoming)
    ensures Defines(Merged(target, incoming), path) <==> Defines(target, path) || Defines(incoming, path)
    ensures Defines(incoming, path) ==>
              (LeafAt(Merged(target, incoming), path) <==> LeafAt(incoming, path))
    ensures LeafAt(incoming, path) ==> At(Merged(target, incoming), path) == At(incoming, path)
    ensures !Defines(incoming, path) ==> At(Merged(target, incoming), path) == At(target, path)
    decreases |path|
  {
    assert Defines(target, []) && Defines(incoming, []);
    if path != [] && incoming.Table? && path[0] in incoming.entries {
      var key := path[0];
      if key in target.entries {
        AgreeingChildren(target, incoming, key);
        MergedAt(target.entries[key], incoming.entries[key], path[1..]);
      } else {
        MergedIntoEmpty(incoming.entries[key]);
      }
    }
  }

  lemma VisitedLeaf(target: Tree, incoming: Tree, prefix: Path, path: Path)
    requires incoming.Leaf?
    ensures path in Visited(target, incoming, prefix) <==> prefix <= path && Defines(incoming, path[|prefix|..])
  {
    assert prefix + [] == prefix;
    if prefix <= path {
      assert path == prefix + path[|prefix|..];
    }
  }

  /** Every path the incoming tree defines is stamped, and no other. */
  lemma {:induction false} VisitedMeansDefined(target: Tree, incoming: Tree, prefix: Path, path: Path)
    requires Agrees(target, incoming) || target == EMPTY
    ensures path in Visited(target, incoming, prefix) <==> prefix <= path && Defines(incoming, path[|prefix|..])
    decreases incoming
  {
    assert Defines(target, []) && Defines(incoming, []);
    if target.Table? && incoming.Table? {
      forall key | key in incoming.entries
        ensures path in Visited(Child(target, key), incoming.entries[key], prefix + [key])
                <==> prefix + [key] <= path && Defines(incoming.entries[key], path[|prefix| + 1..])
      {
        if target != EMPTY {
          AgreeingChildren(target, incoming, key);
        }
        VisitedMeansDefined(Child(target, key), incoming.entries[key], prefix + [key], path);
      }
      assert prefix + [] == prefix;
      assert prefix <= path ==> path == prefix + path[|prefix|..];
      if prefix <= path && |prefix| < |path| {
        var rest := path[|prefix|..];
        assert rest[1..] == path[|prefix| + 1..];
        assert prefix + [rest[0]] <= path;
      }
    } else {
      VisitedLeaf(target, incoming, prefix, path);
    }
  }

  // ----- A list of files, in merge order -----

  datatype Source = Source(file: File, tree: Tree)

  function MergedAll(files: seq<Source>): Tree {
    if files == [] then EMPTY else Merged(MergedAll(files[..|files| - 1]), files[|files| - 1].tree)
  }

  function SourcesAll(files: seq<Source>): map<Path, File> {
    if files == [] then map[]
    else
      var before, last := files[..|files| - 1], files[|files| - 1];
      Stamped(SourcesAll(before), Visited(MergedAll(before), last.tree, []), last.file)
  }

  ghost predicate Agreeing(files: seq<Source>) {
    && (forall i | 0 <= i < |files| :: files[i].tree.Table?)
    && forall i, j | 0 <= i < j < |files| :: Agrees(files[i].tree, files[j].tree)
  }

  /** The last file that defines a path. */
  function LastDefining(files: seq<Source>, path: Path): (i: Option<nat>)
    ensures i.Some? ==> i.value < |files| && Defines(files[i.value].tree, path)
    ensures forall k | (if i.Some? then i.value else -1) < k < |files| :: !Defines(files[k].tree, path)
  {
    if files == [] then None
    else if Defines(files[|files| - 1].tree, path) then Some(|files| - 1)
    else LastDefining(files[..|files| - 1], path)
  }

  /** The merged tree holds, at every path, exactly what the last file defining it holds. */
  lemma {:induction false} LastFileWins(files: seq<Source>, path: Path)
    requires Agreeing(files) && files != []
    ensures Defines(MergedAll(files), path) <==> LastDefining(files, path).Some?
    ensures LastDefining(files, path).Some? ==>
              var tree := files[LastDefining(files, path).value].tree;
              && (LeafAt(MergedAll(files), path) <==> LeafAt(tree, path))
              && (LeafAt(tree, path) ==> At(MergedAll(files), path) == At(tree, path))
    ensures path in SourcesAll(files) <==> LastDefining(files, path).Some?
    ensures path in SourcesAll(files) ==>
              SourcesAll(files)[path] == files[LastDefining(files, path).value].file
    decreases |files|, 0
  {
    var before, last := files[..|files| - 1], files[|files| - 1].tree;
    if before == [] {
      MergedIntoEmpty(last);
      VisitedMeansDefined(EMPTY, last, [], path);
    } else {
      MergedAgrees(before, last);
      LastFileWins(before, path);
      MergedAt(MergedAll(before), last, path);
      VisitedMeansDefined(MergedAll(before), last, [], path);
    }
    assert path[0..] == path;
  }

  lemma {:induction false} MergedAgrees(files: seq<Source>, last: Tree)
    requires Agreeing(files) && files != []
    requires forall i | 0 <= i < |files| :: Agrees(files[i].tree, last)
    ensures Agrees(MergedAll(files), last)
    decreases |files|, 1
  {
    forall path | Defines(MergedAll(files), path) && Defines(last, path)
      ensures LeafAt(MergedAll(files), path) <==> LeafAt(last, path)
    {
      LastFileWins(files, path);
    }
  }

  // ----- Nearest-ancestor lookup -----

  method SourceFile(sources: map<Path, File>, field: Path, main: Option<File>) returns (file: Option<File>)
    ensures file == FileOf(sources, field, main)
  {
    var key := field;
    while true
      invariant FileOf(sources, key, main) == FileOf(sources, field, main)
      decreases |key|
    {
      if key in sources {
        return Some(sources[key]);
      }
      if |key| <= 1 {
        return main;
      }
      key := key[..|key| - 1];
    }
  }

  function FileOf(sources: map<Path, File>, field: Path, main: Option<File>): Option<File>
    decreases |field|
  {
    if field in sources then Some(sources[field])
    else if |field| <= 1 then main
    else FileOf(sources, field[..|field| - 1], main)
  }

  /** The longest ancestor of a field, itself included, that some file defines. */
  function NearestDefined(files: seq<Source>, field: Path): (path: Path)
    ensures path <= field
    decreases |field|
  {
    if field == [] || LastDefining(files, field).Some? then field
    else NearestDefined(files, field[..|field| - 1])
  }

  /** Lookup finds the last file defining the field or else its nearest defined ancestor. */
  lemma {:induction false} LookupFindsTheLastFile(files: seq<Source>, field: Path)
    requires Agreeing(files) && files != []
    ensures var main := Some(files[|files| - 1].file);
            var owner := LastDefining(files, NearestDefined(files, field));
            && owner.Some?
            && FileOf(SourcesAll(files), field, main) == Some(files[owner.value].file)
    decreases |field|
  {
    LastFileWins(files, field);
    if field != [] && LastDefining(files, field).None? {
      LookupFindsTheLastFile(files, field[..|field| - 1]);
      if |field| == 1 {
        assert field[..0] == [];
      }
    }
  }

  /** Every leaf of the merged configuration is attributed to the file its value came from. */
  lemma LeavesAreAttributedToTheirFile(files: seq<Source>, field: Path) returns (i: nat)
    requires Agreeing(files) && files != [] && LeafAt(MergedAll(files), field)
    ensures i < |files| && At(files[i].tree, field) == At(MergedAll(files), field)
    ensures forall k | i < k < |files| :: !Defines(files[k].tree, field)
    ensures FileOf(SourcesAll(files), field, Some(files[|files| - 1].file)) == Some(files[i].file)
  {
    LastFileWins(files, field);
    LookupFindsTheLastFile(files, field);
    i := LastDefining(files, field).value;
  }

  // ----- Loading -----

  datatype GlobalFile = GlobalFile(source: Source, nestedIncludes: bool)

  lemma MergeOneMore(files: seq<Source>, n: nat)
    requires n < |files|
    ensures MergedAll(files[..n + 1]) == Merged(MergedAll(files[..n]), files[n].tree)
    ensures SourcesAll(files[..n + 1])
         == Stamped(SourcesAll(files[..n]), Visited(MergedAll(files[..n]), files[n].tree, []), files[n].file)
  {
    assert files[..n + 1][..n] == files[..n];
  }

  /** The merge order: includes as listed, then the main file. */
  function MergeOrder(main: Source, includes: seq<GlobalFile>): seq<Source> {
    seq(|includes|, i requires 0 <= i < |includes| => includes[i].source) + [main]
  }

  /** The main file has the last word, and of the includes the last that defines a field. */
  lemma MainFileHasTheLastWord(main: Source, includes: seq<GlobalFile>, i: nat, path: Path)
    requires Agreeing(MergeOrder(main, includes))
    ensures LeafAt(main.tree, path) ==>
              var files := MergeOrder(main, includes);
              && At(MergedAll(files), path) == At(main.tree, path)
              && path in SourcesAll(files) && SourcesAll(files)[path] == main.file
    ensures i < |includes| && !Defines(main.tree, path) && LeafAt(includes[i].source.tree, path)
            && (forall k | i < k < |includes| :: !Defines(includes[k].source.tree, path)) ==>
              var files := MergeOrder(main, includes);
              && At(MergedAll(files), path) == At(includes[i].source.tree, path)
              && path in SourcesAll(files) && SourcesAll(files)[path] == includes[i].source.file
  {
    hide Merged, MergedAll, SourcesAll, Agreeing;
    var files := MergeOrder(main, includes);
    LastFileWins(files, path);
    assert files[|includes|] == main && forall k | 0 <= k < |includes| :: files[k] == includes[k].source;
    if Defines(main.tree, path) {
      assert LastDefining(files, path) == Some(|includes|);
    } else if i < |includes| && Defines(includes[i].source.tree, path)
              && forall k | i < k < |includes| :: !Defines(includes[k].source.tree, path) {
      assert Defines(files[i].tree, path) && forall k | i < k < |files| :: !Defines(files[k].tree, path);
      assert LastDefining(files, path) == Some(i);
    }
  }

  /** The first `n` includes name new files and include nothing themselves. */
  predicate Acceptable(main: Source, includes: seq<GlobalFile>, n: nat)
    requires n <= |includes|
  {
    && (forall i | 0 <= i < n :: !includes[i].nestedIncludes && includes[i].source.file != main.file)
    && forall i, j | 0 <= i < j < n :: includes[i].source.file != includes[j].source.file
  }

  /** Repeated, cyclic and nesting includes are refused; everything else is merged. */
  method LoadGlobal(main: Source, includes: seq<GlobalFile>)
    returns (loaded: Option<(Tree, map<Path, File>)>)
    ensures Acceptable(main, includes, |includes|) ==>
              var files := MergeOrder(main, includes);
              loaded == Some((MergedAll(files), SourcesAll(files)))
    ensures !Acceptable(main, includes, |includes|) ==> loaded == None
  {
    hide Merged, Visited;
    ghost var files := MergeOrder(main, includes);
    var visited := {main.file};
    var merged: Tree, sources: map<Path, File> := EMPTY, map[];
    for n := 0 to |includes|
      invariant forall f :: f in visited <==> f == main.file || exists i | 0 <= i < n :: includes[i].source.file == f
      invariant Acceptable(main, includes, n)
      invariant merged == MergedAll(files[..n]) && sources == SourcesAll(files[..n])
    {
      var item := includes[n];
      if item.source.file in visited || item.nestedIncludes {
        return None;
      }
      visited := visited + {item.source.file};
      merged, sources := Merge(merged, item.source.tree, [], item.source.file, sources);
      MergeOneMore(files, n);
    }
    merged, sources := Merge(merged, main.tree, [], main.file, sources);
    MergeOneMore(files, |includes|);
    assert files[..|files|] == files;
    return Some((merged, sources));
  }
}
