/** Deduplicating merge by target identity (internal/candidate/builder.go) and the full-record index
    (internal/session/record_set.go). `clean` stands for filepath.Clean. */
module Merge {
  import opened Basics
  import opened Protocol
  import opened Codec
  import opened FirstOccurrence

  /** What two records must share to be the same candidate. */
  datatype Key = PathKey(path: Bytes) | OtherKey(kind: LocationKind, target: Bytes, line: Bytes)

  predicate OnDisk(r: Record) { r.kind != KindVirtual && r.target.kind == LocFilesystem }

  function KeyOf(clean: Bytes -> Bytes, r: Record): Key {
    if OnDisk(r) then PathKey(clean(r.target.path)) else OtherKey(r.target.kind, r.target.path, Print(r.Wire()))
  }

  function Identity(clean: Bytes -> Bytes): Record -> Key { r => KeyOf(clean, r) }

  function Dedup(clean: Bytes -> Bytes, rs: seq<Record>): seq<Record> { Keep(Identity(clean), rs, {}) }

  function Admitted(clean: Bytes -> Bytes, base: seq<Record>, additions: seq<Record>): seq<Record> {
    Keep(Identity(clean), additions, Keys(Identity(clean), base))
  }

  function Merged(clean: Bytes -> Bytes, base: seq<Record>, additions: seq<Record>): seq<Record> {
    Dedup(clean, base) + Admitted(clean, base, additions)
  }

  ghost predicate DistinctTargets(clean: Bytes -> Bytes, rs: seq<Record>) { Distinct(Identity(clean), rs) }

  // ----- the loop

  /** The two tables of identities already taken. */
  datatype Tables = Tables(filesystem: set<Bytes>, other: set<(LocationKind, Bytes, Bytes)>)

  ghost function Seen(t: Tables): set<Key> {
    (set p | p in t.filesystem :: PathKey(p)) + (set v | v in t.other :: OtherKey(v.0, v.1, v.2))
  }

  /** appendRecord: whether the record is new, and the tables with its identity in. */
  method Admit(clean: Bytes -> Bytes, tables: Tables, record: Record) returns (after: Tables, isNew: bool)
    ensures isNew <==> KeyOf(clean, record) !in Seen(tables)
    ensures Seen(after) == Seen(tables) + {KeyOf(clean, record)}
  {
    if record.kind == KindVirtual || record.target.kind != LocFilesystem {
      var key := (record.target.kind, record.target.path, Print(record.Wire()));
      return tables.(other := tables.other + {key}), key !in tables.other;
    }
    var key := clean(record.target.path);
    return tables.(filesystem := tables.filesystem + {key}), key !in tables.filesystem;
  }

  /** One of the two passes of mergeRecords: the tables after it and the records it appended. */
  method Pass(clean: Bytes -> Bytes, tables: Tables, rs: seq<Record>) returns (after: Tables, kept: seq<Record>)
    ensures Seen(after) == Seen(tables) + Keys(Identity(clean), rs)
    ensures kept == Keep(Identity(clean), rs, Seen(tables))
  {
    ghost var key := Identity(clean);
    after, kept := tables, [];
    for i := 0 to |rs|
      invariant Seen(after) == Seen(tables) + Keys(key, rs[..i])
      invariant kept == Keep(key, rs[..i], Seen(tables))
    {
      var isNew;
      after, isNew := Admit(clean, after, rs[i]);
      if isNew {
        kept := kept + [rs[i]];
      }
      KeepSnoc(key, rs[..i], rs[i], Seen(tables));
      assert rs[..i + 1] == rs[..i] + [rs[i]];
    }
    assert rs[..|rs|] == rs;
  }

  lemma NothingSeen(t: Tables)
    requires t.filesystem == {} && t.other == {}
    ensures Seen(t) == {}
  {
  }

  /** MergeNewRecords: the base first, then the additions against what the base took. */
  method MergeNewRecords(clean: Bytes -> Bytes, base: seq<Record>, additions: seq<Record>)
    returns (merged: seq<Record>, admitted: seq<Record>)
    ensures merged == Merged(clean, base, additions)
    ensures admitted == Admitted(clean, base, additions)
  {
    var empty := Tables({}, {});
    NothingSeen(empty);
    var tables, first := Pass(clean, empty, base);
    assert Seen(tables) == Keys(Identity(clean), base);
    tables, admitted := Pass(clean, tables, additions);
    merged := first + admitted;
  }

  // ----- what merging means

  /** All identities of both inputs, each once; merging the same additions again admits nothing and changes nothing. */
  lemma MergeIsUnion(clean: Bytes -> Bytes, base: seq<Record>, additions: seq<Record>)
    ensures var merged := Merged(clean, base, additions);
            var key := Identity(clean);
            && Keys(key, merged) == Keys(key, base) + Keys(key, additions)
            && DistinctTargets(clean, merged)
            && Admitted(clean, merged, additions) == []
            && Merged(clean, merged, additions) == merged
  {
    UnionOfKeys(Identity(clean), base, additions);
  }

  /** The same candidate: for places on disk the same cleaned path, whatever their kinds; otherwise the same target and
      the same line. */
  predicate Same(clean: Bytes -> Bytes, a: Record, b: Record) {
    if OnDisk(a) then OnDisk(b) && clean(a.target.path) == clean(b.target.path)
    else !OnDisk(b) && a.target == b.target && Print(a.Wire()) == Print(b.Wire())
  }

  /** An addition is admitted exactly when neither the base nor an earlier addition holds the same candidate; with an
      empty base this says what deduplication keeps. */
  lemma AdmittedIff(clean: Bytes -> Bytes, base: seq<Record>, additions: seq<Record>, i: nat)
    requires i < |additions|
    ensures var x := additions[i];
            Admitted(clean, base, additions[..i + 1]) ==
              if forall r :: r in base + additions[..i] ==> !Same(clean, x, r)
              then Admitted(clean, base, additions[..i]) + [x] else Admitted(clean, base, additions[..i])
  {
    var key, before, x := Identity(clean), additions[..i], additions[i];
    assert additions[..i + 1] == before + [x];
    KeepSnoc(key, before, x, Keys(key, base));
    KeysConcat(key, base, before);
    KeysAt(key, base + before);
    assert forall r :: Same(clean, x, r) <==> key(r) == key(x);
    assert key(x) in Keys(key, base + before) <==> exists r :: r in base + before && Same(clean, x, r) by {
      if r :| r in base + before && Same(clean, x, r) {
        var j :| 0 <= j < |base + before| && (base + before)[j] == r;
        assert key((base + before)[j]) == key(x);
      }
    }
  }

  // ----- framing a merge

  /** Appending the framed additions to the framed base gives the framed merge exactly when no two base records share
      an identity. */
  lemma AppendedFramesAgree(clean: Bytes -> Bytes, base: seq<Record>, additions: seq<Record>)
    requires AllFree(Lines(base)) && AllFree(Lines(additions))
    ensures DistinctTargets(clean, base) <==>
            Frame(Merged(clean, base, additions)) == Frame(base) + Frame(Admitted(clean, base, additions))
  {
    var d, a := Dedup(clean, base), Admitted(clean, base, additions);
    FrameConcat(d, a);
    FrameConcat(base, a);
    KeepIdentity(Identity(clean), base, {});
    KeepFree(clean, base, {});
    KeepFree(clean, additions, Keys(Identity(clean), base));
    SameFramesSameLength(d, base, a);
  }

  lemma SameFramesSameLength(d: seq<Record>, base: seq<Record>, a: seq<Record>)
    requires AllFree(Lines(d)) && AllFree(Lines(base)) && AllFree(Lines(a))
    ensures Frame(d + a) == Frame(base + a) ==> |d| == |base|
  {
    if Frame(d + a) == Frame(base + a) {
      assert Lines(d + a) == Lines(d) + Lines(a);
      assert Lines(base + a) == Lines(base) + Lines(a);
      FrameInjective(Lines(d + a), Lines(base + a));
      assert |Lines(d + a)| == |d + a|;
    }
  }

  lemma {:induction false} KeepFree(clean: Bytes -> Bytes, rs: seq<Record>, seen: set<Key>)
    requires AllFree(Lines(rs))
    ensures AllFree(Lines(Keep(Identity(clean), rs, seen)))
  {
    if rs != [] {
      var init, last := rs[..|rs| - 1], rs[|rs| - 1];
      assert Lines(init) == Lines(rs)[..|rs| - 1];
      KeepFree(clean, init, seen);
      assert Free(Lines(rs)[|rs| - 1], NUL);
      var kept := Keep(Identity(clean), init, seen);
      assert Lines(kept + [last]) == Lines(kept) + [Lines(rs)[|rs| - 1]];
    }
  }

  /** The two entries every local listing starts with (ordinaryRootRecords). */
  function RootRecords(kind: Kind, payload: Bytes -> Bytes, path: Bytes, parent: Bytes): seq<Record> {
    [Record(kind, [46], path, payload(path), Filesystem(path)),
     Record(kind, [46, 46], parent, payload(parent), Filesystem(parent))]
  }

  /** The listing of a directory starts with two distinct candidates exactly when the cleaned parent differs from the
      cleaned path. */
  lemma RootRecordsCollide(clean: Bytes -> Bytes, kind: Kind, payload: Bytes -> Bytes, path: Bytes, parent: Bytes)
    requires kind != KindVirtual
    ensures DistinctTargets(clean, RootRecords(kind, payload, path, parent)) <==> clean(path) != clean(parent)
  {
    var rs := RootRecords(kind, payload, path, parent);
    var key := Identity(clean);
    assert key(rs[0]) == PathKey(clean(path)) && key(rs[1]) == PathKey(clean(parent));
  }

  /** Whatever else the directory holds: when path and parent clean alike, as for a working directory with a trailing
      slash, the bytes fzf was fed and the framed merge differ. */
  lemma SharedRootDisagrees(clean: Bytes -> Bytes, kind: Kind, payload: Bytes -> Bytes, path: Bytes, parent: Bytes,
                            rest: seq<Record>, additions: seq<Record>)
    requires kind != KindVirtual && clean(path) == clean(parent)
    requires Free(payload(path), NUL) && Free(payload(parent), NUL) && AllFree(Lines(rest)) && AllFree(Lines(additions))
    ensures var base := RootRecords(kind, payload, path, parent) + rest;
            Frame(Merged(clean, base, additions)) != Frame(base) + Frame(Admitted(clean, base, additions))
  {
    var roots := RootRecords(kind, payload, path, parent);
    var base := roots + rest;
    PrintNulFree(roots[0].Wire());
    PrintNulFree(roots[1].Wire());
    assert Lines(base) == Lines(roots) + Lines(rest);
    assert base[0] == roots[0] && base[1] == roots[1];
    assert Identity(clean)(base[0]) == Identity(clean)(base[1]);
    AppendedFramesAgree(clean, base, additions);
  }

  /** "/" is its own parent. */
  lemma FilesystemRootDisagrees(clean: Bytes -> Bytes, payload: Bytes -> Bytes, rest: seq<Record>,
                                additions: seq<Record>)
    requires Free(payload([SLASH]), NUL) && AllFree(Lines(rest)) && AllFree(Lines(additions))
    ensures var base := RootRecords(KindLocal, payload, [SLASH], [SLASH]) + rest;
            Frame(Merged(clean, base, additions)) != Frame(base) + Frame(Admitted(clean, base, additions))
  {
    SharedRootDisagrees(clean, KindLocal, payload, [SLASH], [SLASH], rest, additions);
  }

  // ----- the full-record index

  /** The position of the first line equal to key. */
  function FirstLine(lines: seq<Bytes>, key: Bytes): (i: nat)
    ensures i <= |lines|
    ensures forall j :: 0 <= j < i ==> lines[j] != key
    ensures i < |lines| ==> lines[i] == key
  {
    if lines == [] || lines[0] == key then 0 else 1 + FirstLine(lines[1..], key)
  }

  method BuildIndex(rs: seq<Record>) returns (index: map<Bytes, nat>)
    ensures forall key :: key in index <==> FirstLine(Lines(rs), key) < |rs|
    ensures forall key :: key in index ==> index[key] == FirstLine(Lines(rs), key)
  {
    ghost var lines := Lines(rs);
    index := map[];
    for position := 0 to |rs|
      invariant forall key :: key in index ==> index[key] < position && lines[index[key]] == key
      invariant forall key :: key in index ==> forall j :: 0 <= j < index[key] ==> lines[j] != key
      invariant forall j :: 0 <= j < position ==> lines[j] in index
    {
      var key := Print(rs[position].Wire());
      assert lines[position] == key;
      if key !in index {
        index := index[key := position];
      }
    }
    assert forall key :: FirstLine(lines, key) < |rs| ==> lines[FirstLine(lines, key)] == key;
  }

  /** lookupRecord: the first record with that printed form, if any. */
  function Lookup(rs: seq<Record>, key: Bytes): (r: Option<Record>)
    ensures r.Some? <==> key in Lines(rs)
    ensures r.Some? ==> exists i :: 0 <= i < |rs| && rs[i] == r.value && Lines(rs)[i] == key
                                    && forall j :: 0 <= j < i ==> Lines(rs)[j] != key
  {
    var i := FirstLine(Lines(rs), key);
    if i < |rs| then Some(rs[i]) else None
  }
}
