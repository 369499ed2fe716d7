/** Creating and rolling back directory trees (internal/pathutil/add_unix.go, internal/pathutil/location.go) on a
    filesystem that nobody else writes to. A path is the list of its components; the root is []. */
module FileTree {
  import opened Basics
  import opened Protocol
  import opened Events
  import Codec

  type Path = seq<Bytes>

  datatype Node = Directory | OtherFile | Symlink

  type Nodes = map<Path, Node>

  /** What the system calls may refuse: inspecting a path, creating a directory. */
  datatype Faults = Faults(stat: set<Path>, mkdir: set<Path>)

  // ----- paths

  /** filepath.Join of a clean path and one component. */
  function Join(path: Path, name: Bytes): Path {
    if name == [DOT] then path
    else if name == [DOT, DOT] then (if path == [] then [] else path[..|path| - 1])
    else path + [name]
  }

  function JoinAll(path: Path, names: seq<Bytes>): Path {
    if names == [] then path else Join(JoinAll(path, names[..|names| - 1]), names[|names| - 1])
  }

  /** filepath.Clean of an absolute path. */
  function CleanPath(raw: Bytes): Path { JoinAll([], Fields(raw)) }

  function PathBytes(path: Path): Bytes {
    if path == [] then [SLASH]
    else if |path| == 1 then [SLASH] + path[0]
    else PathBytes(path[..|path| - 1]) + [SLASH] + path[|path| - 1]
  }

  /** What a component of a clean path may be. */
  predicate Component(name: Bytes) { name != [] && SLASH !in name && name != [DOT] && name != [DOT, DOT] }

  predicate Proper(path: Path) { forall i :: 0 <= i < |path| ==> Component(path[i]) }

  lemma {:induction false} SplitSnoc(s: Bytes, name: Bytes)
    requires SLASH !in name
    ensures Codec.Split(s + [SLASH] + name, SLASH) == Codec.Split(s, SLASH) + [name]
    decreases |s|
  {
    var i := Codec.Index(s, SLASH);
    var t := s + [SLASH] + name;
    assert Codec.Index(name, SLASH) == |name|;
    if i == |s| {
      assert s[..i] == s;
      Codec.IndexAfterFree(s, name, SLASH);
      assert t[|s| + 1..] == name && t[..|s|] == s;
    } else {
      var rest := s[i + 1..];
      assert t == s[..i] + [SLASH] + (rest + [SLASH] + name);
      Codec.IndexAfterFree(s[..i], rest + [SLASH] + name, SLASH);
      assert t[i + 1..] == rest + [SLASH] + name && t[..i] == s[..i];
      SplitSnoc(rest, name);
      assert Codec.Split(t, SLASH) == [s[..i]] + (Codec.Split(rest, SLASH) + [name]);
    }
  }

  lemma {:induction false} NonEmptySnoc(parts: seq<Bytes>, name: Bytes)
    requires name != []
    ensures NonEmpty(parts + [name]) == NonEmpty(parts) + [name]
  {
    if parts == [] {
      assert NonEmpty([name]) == [name] + NonEmpty([name][1..]);
    } else {
      assert (parts + [name])[1..] == parts[1..] + [name];
      NonEmptySnoc(parts[1..], name);
    }
  }

  lemma FieldsSnoc(raw: Bytes, name: Bytes)
    requires SLASH !in name && name != []
    ensures Fields(raw + [SLASH] + name) == Fields(raw) + [name]
  {
    SplitSnoc(raw, name);
    NonEmptySnoc(Codec.Split(raw, SLASH), name);
  }

  /** Nothing but the root has no fields. */
  lemma NoFields()
    ensures Fields([]) == [] && Fields([SLASH]) == []
  {
    var none: Bytes := [];
    assert Codec.Split(none, SLASH) == [none];
    SplitSnoc(none, none);
    assert none + [SLASH] + none == [SLASH];
    assert [none][1..] == [] && NonEmpty([none]) == [];
    assert [none] + [none] == [none, none] && [none, none][1..] == [none];
  }

  lemma {:induction false} FieldsOfBytes(path: Path)
    requires Proper(path)
    ensures Fields(PathBytes(path)) == path
  {
    NoFields();
    if path != [] {
      var init, last := path[..|path| - 1], path[|path| - 1];
      var above := if init == [] then [] else PathBytes(init);
      assert PathBytes(path) == above + [SLASH] + last;
      FieldsSnoc(above, last);
      if init != [] { FieldsOfBytes(init); }
    }
  }

  /** Cleaning goes down one component at a time: "." stays, ".." goes up but never above the root. */
  lemma CleanStep(raw: Bytes, name: Bytes)
    requires SLASH !in name && name != []
    ensures var above := CleanPath(raw);
            CleanPath(raw + [SLASH] + name) ==
              if name == [DOT] then above
              else if name != [DOT, DOT] then above + [name]
              else if above == [] then [] else above[..|above| - 1]
  {
    FieldsSnoc(raw, name);
    var names := Fields(raw);
    assert (names + [name])[..|names|] == names;
  }

  lemma {:induction false} JoinProper(path: Path)
    requires Proper(path)
    ensures JoinAll([], path) == path
  {
    if path != [] { JoinProper(path[..|path| - 1]); }
  }

  /** Writing a clean path down and cleaning it again gives it back. */
  lemma CleanOfBytes(path: Path)
    requires Proper(path)
    ensures CleanPath(PathBytes(path)) == path
  {
    FieldsOfBytes(path);
    JoinProper(path);
  }

  lemma {:induction false} PartsFree(s: Bytes)
    ensures forall part :: part in Codec.Split(s, SLASH) ==> SLASH !in part
    decreases |s|
  {
    var i := Codec.Index(s, SLASH);
    assert SLASH !in s[..i];
    if i < |s| { PartsFree(s[i + 1..]); } else { assert s[..i] == s; }
  }

  lemma {:induction false} NonEmptyOf(parts: seq<Bytes>)
    ensures forall part :: part in NonEmpty(parts) ==> part in parts && part != []
  {
    if parts != [] { NonEmptyOf(parts[1..]); }
  }

  lemma {:induction false} JoinKeepsProper(path: Path, names: seq<Bytes>)
    requires Proper(path) && forall name :: name in names ==> name != [] && SLASH !in name
    ensures Proper(JoinAll(path, names))
  {
    if names != [] {
      var init := names[..|names| - 1];
      assert forall name :: name in init ==> name in names;
      JoinKeepsProper(path, init);
      assert names[|names| - 1] in names;
    }
  }

  /** A clean path extended by the fields of a query is the place its bytes name. */
  lemma PlaceOfBytes(raw: Bytes, query: Bytes)
    ensures var place := JoinAll(CleanPath(raw), Fields(query)); CleanPath(PathBytes(place)) == place
  {
    PartsFree(raw);
    NonEmptyOf(Codec.Split(raw, SLASH));
    JoinKeepsProper([], Fields(raw));
    PartsFree(query);
    NonEmptyOf(Codec.Split(query, SLASH));
    JoinKeepsProper(CleanPath(raw), Fields(query));
    CleanOfBytes(JoinAll(CleanPath(raw), Fields(query)));
  }

  /** Every node has a directory above it. */
  ghost predicate ParentClosed(nodes: Nodes) {
    && [] in nodes && nodes[[]] == Directory
    && forall p :: p in nodes && p != [] ==> p[..|p| - 1] in nodes && nodes[p[..|p| - 1]] == Directory
  }

  // ----- what creating and rolling back amount to

  predicate Downward(names: seq<Bytes>) { [DOT, DOT] !in names }

  /** The paths below base that names leads through and that do not exist yet, outermost first. */
  function Missing(nodes: Nodes, base: Path, names: seq<Bytes>): seq<Path> {
    if names == [] then []
    else
      var init := names[..|names| - 1];
      var path := JoinAll(base, names);
      Missing(nodes, base, init) + (if path in nodes || path == JoinAll(base, init) then [] else [path])
  }

  /** Missing lists a path exactly when it lies on the way and is not there. */
  lemma {:induction false} MissingExactly(nodes: Nodes, base: Path, names: seq<Bytes>, p: Path)
    requires base in nodes
    ensures p in Missing(nodes, base, names)
            <==> p !in nodes && exists k :: 0 <= k <= |names| && JoinAll(base, names[..k]) == p
  {
    if names != [] {
      var init := names[..|names| - 1];
      MissingExactly(nodes, base, init, p);
      forall k | 0 <= k <= |init| ensures init[..k] == names[..k] {}
      assert names[..|names|] == names && init[..|init|] == init;
    } else {
      assert names[..0] == names;
    }
  }

  function WithDirectories(nodes: Nodes, made: seq<Path>): Nodes {
    if made == [] then nodes else WithDirectories(nodes, made[..|made| - 1])[made[|made| - 1] := Directory]
  }

  predicate HasEntry(nodes: Nodes, p: Path) { exists q :: q in nodes && |q| == |p| + 1 && q[..|p|] == p }

  /** os.Remove, with "does not exist" and "not empty" ignored as Rollback does. */
  function RemoveEmpty(nodes: Nodes, p: Path): Nodes {
    if p in nodes && !HasEntry(nodes, p) then nodes - {p} else nodes
  }

  /** CreatedTree.Rollback: innermost first. */
  function RolledBack(nodes: Nodes, made: seq<Path>): Nodes {
    if made == [] then nodes else RolledBack(RemoveEmpty(nodes, made[|made| - 1]), made[..|made| - 1])
  }

  /** New directories, each directly inside the one before. */
  ghost predicate Nested(nodes: Nodes, made: seq<Path>) {
    && (forall i :: 0 <= i < |made| ==> made[i] !in nodes && made[i] != [])
    && (forall i :: 0 < i < |made| ==> made[i][..|made[i]| - 1] == made[i - 1])
  }

  lemma {:induction false} NestedLengths(nodes: Nodes, made: seq<Path>, i: nat, j: nat)
    requires Nested(nodes, made) && i <= j < |made|
    ensures |made[j]| == |made[i]| + (j - i)
  {
    if i < j { NestedLengths(nodes, made, i, j - 1); }
  }

  lemma {:induction false} DirectoriesIn(nodes: Nodes, made: seq<Path>, p: Path)
    ensures p in WithDirectories(nodes, made) <==> p in nodes || p in made
    ensures p in nodes && p !in made ==> WithDirectories(nodes, made)[p] == nodes[p]
    ensures p in made ==> WithDirectories(nodes, made)[p] == Directory
  {
    if made != [] {
      var n := |made| - 1;
      DirectoriesIn(nodes, made[..n], p);
      assert made == made[..n] + [made[n]];
    }
  }

  lemma NewestIsEmpty(nodes: Nodes, made: seq<Path>)
    requires ParentClosed(nodes) && Nested(nodes, made) && made != []
    ensures !HasEntry(WithDirectories(nodes, made), made[|made| - 1])
  {
    var last := made[|made| - 1];
    forall q | q in WithDirectories(nodes, made) && |q| == |last| + 1 ensures q[..|last|] != last {
      DirectoriesIn(nodes, made, q);
      if q in nodes {
        assert q[..|q| - 1] in nodes;
      } else {
        var i :| 0 <= i < |made| && made[i] == q;
        NestedLengths(nodes, made, i, |made| - 1);
      }
    }
  }

  lemma NewestLeaves(nodes: Nodes, made: seq<Path>)
    requires ParentClosed(nodes) && Nested(nodes, made) && made != []
    ensures RemoveEmpty(WithDirectories(nodes, made), made[|made| - 1]) == WithDirectories(nodes, made[..|made| - 1])
  {
    var n := |made| - 1;
    NewestIsEmpty(nodes, made);
    var below := WithDirectories(nodes, made[..n]);
    assert made[n] !in below by {
      DirectoriesIn(nodes, made[..n], made[n]);
      forall i | 0 <= i < n ensures made[i] != made[n] { NestedLengths(nodes, made, i, n); }
    }
    assert below[made[n] := Directory] - {made[n]} == below;
  }

  /** Rolling back undoes creating. */
  lemma {:induction false} RollbackRestores(nodes: Nodes, made: seq<Path>)
    requires ParentClosed(nodes) && Nested(nodes, made)
    ensures RolledBack(WithDirectories(nodes, made), made) == nodes
  {
    if made != [] {
      NewestLeaves(nodes, made);
      RollbackRestores(nodes, made[..|made| - 1]);
    }
  }

  /** Rolling back takes nothing but recorded directories, and none that holds something else. */
  lemma {:induction false} RollbackSpares(nodes: Nodes, made: seq<Path>, p: Path)
    requires p in nodes
    ensures p !in made ==> p in RolledBack(nodes, made) && RolledBack(nodes, made)[p] == nodes[p]
    ensures forall q :: q in nodes && q !in made && |q| == |p| + 1 && q[..|p|] == p ==>
              p in RolledBack(nodes, made) && RolledBack(nodes, made)[p] == nodes[p]
  {
    if made != [] {
      var n := |made| - 1;
      var after := RemoveEmpty(nodes, made[n]);
      assert made == made[..n] + [made[n]];
      if p in after { RollbackSpares(after, made[..n], p); }
    }
  }

  // ----- when creating succeeds, and what it leaves

  /** Every ancestor on the way is a directory that can be inspected, and none is a symlink. */
  predicate RealDirectories(nodes: Nodes, faults: Faults, names: seq<Bytes>) {
    var path := JoinAll([], names);
    && path !in faults.stat && path in nodes && nodes[path] == Directory
    && (names != [] ==> RealDirectories(nodes, faults, names[..|names| - 1]))
  }

  /** Every component named is a directory already, or is missing and can be made. */
  predicate Passable(nodes: Nodes, faults: Faults, start: Path, names: seq<Bytes>) {
    names != [] ==>
      var path := JoinAll(start, names);
      && Passable(nodes, faults, start, names[..|names| - 1])
      && (names[|names| - 1] != [DOT] ==> Enterable(nodes, faults, path))
  }

  predicate Enterable(nodes: Nodes, faults: Faults, path: Path) {
    path !in faults.stat && if path in nodes then nodes[path] == Directory else path !in faults.mkdir
  }

  /** Ancestry is sound exactly when every prefix of the path is a directory that can be inspected. */
  lemma {:induction false} RealDirectoriesIff(nodes: Nodes, faults: Faults, names: seq<Bytes>)
    ensures RealDirectories(nodes, faults, names) <==>
              forall k :: 0 <= k <= |names| ==>
                var path := JoinAll([], names[..k]);
                path !in faults.stat && path in nodes && nodes[path] == Directory
  {
    assert names[..|names|] == names;
    if names != [] {
      var init := names[..|names| - 1];
      RealDirectoriesIff(nodes, faults, init);
      assert forall k :: 0 <= k <= |init| ==> init[..k] == names[..k];
    }
  }

  /** The way is passable exactly when every component but "." leads to a directory that can be inspected, or to a place
      where nothing is and one can be made. */
  lemma {:induction false} PassableIff(nodes: Nodes, faults: Faults, start: Path, names: seq<Bytes>)
    ensures Passable(nodes, faults, start, names) <==>
              forall k :: 0 <= k < |names| && names[k] != [DOT] ==>
                var path := JoinAll(start, names[..k + 1]);
                && path !in faults.stat
                && (path in nodes ==> nodes[path] == Directory) && (path !in nodes ==> path !in faults.mkdir)
  {
    assert names[..|names|] == names;
    if names != [] {
      var init := names[..|names| - 1];
      PassableIff(nodes, faults, start, init);
      assert forall k :: 0 <= k < |init| ==> init[..k + 1] == names[..k + 1] && init[k] == names[k];
    }
  }

  lemma {:induction false} Impassable(nodes: Nodes, faults: Faults, start: Path, names: seq<Bytes>, n: nat)
    requires n <= |names| && !Passable(nodes, faults, start, names[..n])
    ensures !Passable(nodes, faults, start, names)
    decreases |names|
  {
    if n == |names| {
      assert names[..n] == names;
    } else {
      var init := names[..|names| - 1];
      assert init[..n] == names[..n];
      Impassable(nodes, faults, start, init, n);
    }
  }

  lemma PassableStep(nodes: Nodes, faults: Faults, start: Path, names: seq<Bytes>, name: Bytes)
    requires name != [DOT]
    ensures Passable(nodes, faults, start, names + [name])
            <==> Passable(nodes, faults, start, names) && Enterable(nodes, faults, JoinAll(start, names + [name]))
  {
    assert (names + [name])[..|names|] == names;
  }

  predicate Creatable(nodes: Nodes, faults: Faults, base: Location, query: Bytes) {
    && ValidAddQuery(base, query)
    && IsAbs(base.path) && RealDirectories(nodes, faults, Fields(base.path))
    && Passable(nodes, faults, CleanPath(base.path), Fields(query))
  }

  ghost predicate Created(before: Nodes, base: Location, query: Bytes, tree: CreatedTree, now: Nodes) {
    var start, names := CleanPath(base.path), Fields(query);
    && tree.target == Filesystem(PathBytes(JoinAll(start, names)))
    && Walked(before, now, start, names, JoinAll(start, names), tree.created)
  }

  /** All that CreateDirectoryTree can come to. */
  ghost predicate Outcome(before: Nodes, faults: Faults, base: Location, query: Bytes, tree: Option<CreatedTree>,
                          now: Nodes)
  {
    && (tree.Some? <==> Creatable(before, faults, base, query))
    && (if tree.Some? then Created(before, base, query, tree.value, now) else now == before)
  }

  /** Where the loop stands after names: exactly the missing directories were made, each inside the one before, and the
      current path is a directory. */
  ghost predicate Walked(before: Nodes, now: Nodes, start: Path, names: seq<Bytes>, current: Path, created: seq<Path>) {
    && current == JoinAll(start, names)
    && created == Missing(before, start, names)
    && now == WithDirectories(before, created)
    && Chain(before, current, created)
    && current in now && now[current] == Directory
  }

  // ----- the system calls

  class FileSystem {
    var nodes: Nodes
    const faults: Faults

    constructor (nodes: Nodes, faults: Faults)
      ensures this.nodes == nodes && this.faults == faults
    {
      this.nodes := nodes;
      this.faults := faults;
    }

    /** os.Lstat: None when it fails for a reason other than absence, Some(None) when nothing is there. */
    method Lstat(path: Path) returns (info: Option<Option<Node>>)
      ensures info.None? <==> path in faults.stat
      ensures info.Some? ==> info.value == (if path in nodes then Some(nodes[path]) else None)
    {
      if path in faults.stat {
        return None;
      }
      return Some(if path in nodes then Some(nodes[path]) else None);
    }

    method Mkdir(path: Path) returns (ok: bool)
      requires path !in nodes
      modifies this`nodes
      ensures ok == (path !in faults.mkdir)
      ensures nodes == (if ok then old(nodes)[path := Directory] else old(nodes))
    {
      ok := path !in faults.mkdir;
      if ok {
        nodes := nodes[path := Directory];
      }
    }

    method Rollback(made: seq<Path>)
      modifies this`nodes
      ensures nodes == RolledBack(old(nodes), made)
    {
      var i := |made|;
      assert made[..i] == made;
      while i > 0
        invariant 0 <= i <= |made|
        invariant RolledBack(nodes, made[..i]) == RolledBack(old(nodes), made)
      {
        i := i - 1;
        assert made[..i + 1][..i] == made[..i];
        if made[i] in nodes && !HasEntry(nodes, made[i]) {
          nodes := nodes - {made[i]};
        }
      }
    }

    /** checkDirectoryUnix over absoluteAncestryUnix. */
    method CheckAncestry(raw: Bytes) returns (ok: bool)
      ensures ok <==> IsAbs(raw) && RealDirectories(nodes, faults, Fields(raw))
    {
      if !IsAbs(raw) {
        return false;
      }
      var names := Fields(raw);
      var current: Path := [];
      ok := CheckDirectory(current);
      for i := 0 to |names|
        invariant current == JoinAll([], names[..i])
        invariant ok == RealDirectories(nodes, faults, names[..i])
      {
        assert names[..i + 1][..i] == names[..i];
        current := Join(current, names[i]);
        if ok {
          ok := CheckDirectory(current);
        }
      }
      assert names[..|names|] == names;
    }

    method CheckDirectory(path: Path) returns (ok: bool)
      ensures ok <==> path !in faults.stat && path in nodes && nodes[path] == Directory
    {
      var info := Lstat(path);
      return info.Some? && info.value == Some(Directory);
    }

    /** One turn of the loop: keep an existing directory, make a missing one, refuse anything else. */
    method Descend(current: Path, created: seq<Path>) returns (ok: bool, more: seq<Path>)
      modifies this`nodes
      ensures ok <==> Enterable(old(nodes), faults, current)
      ensures more == created + (if ok && current !in old(nodes) then [current] else [])
      ensures nodes == (if ok && current !in old(nodes) then old(nodes)[current := Directory] else old(nodes))
    {
      more := created;
      var info := Lstat(current);
      if info.None? {
        return false, created;
      }
      if info.value.Some? {
        return info.value.value == Directory, created;
      }
      ok := Mkdir(current);
      if ok {
        more := created + [current];
      }
    }

    /** One turn of the component loop: "." stays in place, any other component is entered. */
    method Turn(ghost before: Nodes, ghost start: Path, ghost names: seq<Bytes>, current: Path, created: seq<Path>,
                name: Bytes)
      returns (ok: bool, next: Path, more: seq<Path>)
      requires ParentClosed(before) && Walked(before, nodes, start, names, current, created) && name != [DOT, DOT]
      requires Passable(before, faults, start, names)
      modifies this`nodes
      ensures ok <==> Passable(before, faults, start, names + [name])
      ensures ok ==> Walked(before, nodes, start, names + [name], next, more)
      ensures !ok ==> nodes == old(nodes) && more == created
    {
      if name == [DOT] {
        WalkedInPlace(before, nodes, start, names, current, created);
        assert (names + [name])[..|names|] == names;
        return true, current, created;
      }
      WalkedChild(before, nodes, start, names, current, created, name);
      PassableStep(before, faults, start, names, name);
      next := Join(current, name);
      ok, more := Descend(next, created);
      if ok {
        WalkedOn(before, old(nodes), start, names, current, created, name);
      }
    }

    /** The component loop of CreateDirectoryTree. */
    method MakeAll(start: Path, names: seq<Bytes>) returns (tree: Option<CreatedTree>)
      requires ParentClosed(nodes) && Downward(names)
      requires start in nodes && nodes[start] == Directory
      modifies this`nodes
      ensures tree.Some? <==> Passable(old(nodes), faults, start, names)
      ensures tree.None? ==> nodes == old(nodes)
      ensures tree.Some? ==>
                && Walked(old(nodes), nodes, start, names, JoinAll(start, names), tree.value.created)
                && tree.value.target == Filesystem(PathBytes(JoinAll(start, names)))
    {
      var current := start;
      var created: seq<Path> := [];
      for i := 0 to |names|
        invariant Walked(old(nodes), nodes, start, names[..i], current, created)
        invariant Passable(old(nodes), faults, start, names[..i])
      {
        assert names[..i + 1] == names[..i] + [names[i]];
        var ok;
        ok, current, created := Turn(old(nodes), start, names[..i], current, created, names[i]);
        if !ok {
          Impassable(old(nodes), faults, start, names, i + 1);
          RollbackRestores(old(nodes), created);
          Rollback(created);
          return None;
        }
      }
      assert names[..|names|] == names;
      return Some(CreatedTree(Filesystem(PathBytes(current)), created));
    }

    /** CreateDirectoryTree: exactly when every component can be entered or made, exactly the missing directories are
        added and recorded; otherwise the filesystem is as it was. */
    method CreateDirectoryTree(base: Location, query: Bytes) returns (tree: Option<CreatedTree>)
      requires ParentClosed(nodes)
      modifies this`nodes
      ensures Outcome(old(nodes), faults, base, query, tree, nodes)
    {
      if !ValidAddQuery(base, query) {
        return None;
      }
      var ancestryOk := CheckAncestry(base.path);
      if !ancestryOk {
        return None;
      }
      tree := MakeAll(CleanPath(base.path), Fields(query));
    }
  }

  /** Where the loop stands: the directories made so far are nested, and if any was made, the last is where it is. */
  ghost predicate Chain(nodes: Nodes, current: Path, created: seq<Path>) {
    && Nested(nodes, created)
    && (created != [] ==> created[|created| - 1] == current)
    && (created == [] ==> current in nodes && nodes[current] == Directory)
  }

  /** One component further down, a path exists now exactly when it existed before, and below a new directory nothing
      did. */
  lemma ChildIsNew(nodes: Nodes, parent: Path, created: seq<Path>, name: Bytes)
    requires ParentClosed(nodes) && Chain(nodes, parent, created)
    ensures parent + [name] in WithDirectories(nodes, created) <==> parent + [name] in nodes
    ensures created != [] ==> parent + [name] !in nodes
  {
    var child := parent + [name];
    DirectoriesIn(nodes, created, child);
    assert child[..|child| - 1] == parent;
    forall i | 0 <= i < |created| ensures created[i] != child {
      NestedLengths(nodes, created, i, |created| - 1);
    }
  }

  lemma WalkedInPlace(before: Nodes, now: Nodes, start: Path, names: seq<Bytes>, current: Path, created: seq<Path>)
    requires Walked(before, now, start, names, current, created)
    ensures Walked(before, now, start, names + [[DOT]], current, created)
  {
    assert (names + [[DOT]])[..|names|] == names;
  }

  lemma WalkedChild(before: Nodes, now: Nodes, start: Path, names: seq<Bytes>, current: Path, created: seq<Path>,
                    name: Bytes)
    requires ParentClosed(before) && Walked(before, now, start, names, current, created)
    requires name != [DOT] && name != [DOT, DOT]
    ensures JoinAll(start, names + [name]) == current + [name]
    ensures current + [name] in now <==> current + [name] in before
    ensures current + [name] in now ==> now[current + [name]] == before[current + [name]]
  {
    assert (names + [name])[..|names|] == names;
    ChildIsNew(before, current, created, name);
    DirectoriesIn(before, created, current + [name]);
  }

  lemma MissingStep(before: Nodes, start: Path, names: seq<Bytes>, name: Bytes)
    requires name != [DOT] && name != [DOT, DOT]
    ensures var child := JoinAll(start, names) + [name];
            && JoinAll(start, names + [name]) == child
            && Missing(before, start, names + [name])
               == Missing(before, start, names) + (if child in before then [] else [child])
  {
    assert (names + [name])[..|names|] == names;
    assert |JoinAll(start, names) + [name]| != |JoinAll(start, names)|;
  }

  lemma ChainGrows(nodes: Nodes, parent: Path, created: seq<Path>, name: Bytes)
    requires ParentClosed(nodes) && Chain(nodes, parent, created)
    ensures var child := parent + [name];
            if child in nodes then created == [] else Chain(nodes, child, created + [child])
  {
    var child := parent + [name];
    ChildIsNew(nodes, parent, created, name);
    assert child[..|child| - 1] == parent;
  }

  lemma WalkedOn(before: Nodes, now: Nodes, start: Path, names: seq<Bytes>, current: Path, created: seq<Path>,
                 name: Bytes)
    requires ParentClosed(before) && Walked(before, now, start, names, current, created)
    requires name != [DOT] && name != [DOT, DOT]
    requires current + [name] in now ==> now[current + [name]] == Directory
    ensures var child := current + [name];
            if child in now then Walked(before, now, start, names + [name], child, created)
            else Walked(before, now[child := Directory], start, names + [name], child, created + [child])
  {
    var child := current + [name];
    MissingStep(before, start, names, name);
    WalkedChild(before, now, start, names, current, created, name);
    ChainGrows(before, current, created, name);
    assert (created + [child])[..|created|] == created;
  }
}
