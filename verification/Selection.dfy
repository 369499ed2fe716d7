/** Validation of an accepted CP selection against the snapshot (internal/session/selection.go), for any parser of
    lines; the source's is Codec.ParseRecord. `relative` stands for pathutil.Relative. */
module Selection {
  import opened Basics
  import opened Protocol
  import opened Codec
  import opened Merge

  datatype SelectionError = InvalidSelection | UnknownSelection | InvalidBase

  // ----- what a selection picks

  function Wires(records: seq<Record>): (ws: seq<WireRecord>)
    ensures |ws| == |records|
    ensures forall i {:trigger ws[i]} :: 0 <= i < |ws| ==> ws[i] == records[i].Wire()
  {
    seq(|records|, i requires 0 <= i < |records| => records[i].Wire())
  }

  /** How many of the first n records have the given columns. */
  function Before(records: seq<Record>, n: nat, w: WireRecord): nat
    requires n <= |records|
  {
    multiset(Wires(records[..n]))[w]
  }

  /** Record i is among the first wanted[w] records with its columns w. */
  predicate Hit(records: seq<Record>, wanted: multiset<WireRecord>, i: nat)
    requires i < |records|
  {
    Before(records, i, records[i].Wire()) < wanted[records[i].Wire()]
  }

  /** The records hit among the first n, in snapshot order. */
  function Picked(records: seq<Record>, wanted: multiset<WireRecord>, n: nat): seq<Record>
    requires n <= |records|
  {
    if n == 0 then []
    else if Hit(records, wanted, n - 1) then Picked(records, wanted, n - 1) + [records[n - 1]]
    else Picked(records, wanted, n - 1)
  }

  predicate AllOnDisk(records: seq<Record>) {
    records != [] ==> OnDisk(records[|records| - 1]) && AllOnDisk(records[..|records| - 1])
  }

  predicate HitsOnDisk(records: seq<Record>, wanted: multiset<WireRecord>, n: nat)
    requires n <= |records|
  {
    forall i {:trigger Hit(records, wanted, i)} :: 0 <= i < n && Hit(records, wanted, i) ==> OnDisk(records[i])
  }

  // ----- the specification

  predicate Parses(parse: Parser, lines: seq<Bytes>) { forall i :: 0 <= i < |lines| ==> parse(lines[i]).Ok? }

  /** The columns of every line, given that they parse. */
  function Parsed(parse: Parser, lines: seq<Bytes>): seq<WireRecord> { Map(ColumnsOf(parse), lines) }

  function ColumnsOf(parse: Parser): Bytes -> WireRecord {
    line => if parse(line).Ok? then parse(line).value else WireRecord(KindLocal, [], [])
  }

  function Relatives(relative: (Bytes, Bytes) -> Bytes, base: Bytes, records: seq<Record>): (paths: seq<Bytes>)
    ensures |paths| == |records|
    ensures forall i {:trigger paths[i]} :: 0 <= i < |paths| ==> paths[i] == relative(base, records[i].path)
  {
    seq(|records|, i requires 0 <= i < |records| => relative(base, records[i].path))
  }

  function Outcome(parse: Parser, relative: (Bytes, Bytes) -> Bytes, records: seq<Record>, accepted: seq<Bytes>,
      base: Bytes)
    : Result<seq<Bytes>, SelectionError>
  {
    if base == [] then Err(InvalidBase)
    else if accepted == [] || !Parses(parse, accepted) then Err(InvalidSelection)
    else
      var picked := Picked(records, multiset(Parsed(parse, accepted)), |records|);
      if !AllOnDisk(picked) then Err(InvalidSelection)
      else if |picked| != |accepted| then Err(UnknownSelection)
      else Ok(Relatives(relative, base, picked))
  }

  // ----- the algorithm

  /** A count map whose absent keys read as zero is a multiset. */
  type Counts = multiset<WireRecord>

  method CountAccepted(parse: Parser, accepted: seq<Bytes>) returns (counts: Option<Counts>)
    ensures counts == if Parses(parse, accepted) then Some(multiset(Parsed(parse, accepted))) else None
  {
    var tally: Counts := multiset{};
    for i := 0 to |accepted|
      invariant Parses(parse, accepted[..i])
      invariant tally == multiset(Parsed(parse, accepted[..i]))
    {
      var key := parse(accepted[i]);
      if key.Err? {
        return None;
      }
      tally := tally + multiset{key.value};
      MapGrows(ColumnsOf(parse), accepted, i);
    }
    assert accepted[..|accepted|] == accepted;
    return Some(tally);
  }

  lemma MapGrows<A, B>(f: A -> B, s: seq<A>, i: nat)
    requires i < |s|
    ensures Map(f, s[..i + 1]) == Map(f, s[..i]) + [f(s[i])]
  {
  }

  /** The loop over the snapshot: the picked records' paths, or nothing once a record that is not on disk is hit. */
  method Collect(relative: (Bytes, Bytes) -> Bytes, base: Bytes, records: seq<Record>, wanted: Counts)
    returns (paths: Option<seq<Bytes>>)
    ensures var picked := Picked(records, wanted, |records|);
            paths == if AllOnDisk(picked) then Some(Relatives(relative, base, picked)) else None
  {
    var counts := wanted;
    var found: seq<Bytes> := [];
    for i := 0 to |records|
      invariant Scanned(relative, base, records, wanted, i, counts, found)
    {
      var record := records[i];
      var key := record.Wire();
      if counts[key] == 0 {
        ScanMiss(relative, base, records, wanted, i, counts, found);
        continue;
      }
      if record.kind == KindVirtual || record.target.kind != LocFilesystem {
        ScanStop(relative, base, records, wanted, i, counts, found);
        return None;
      }
      ScanHit(relative, base, records, wanted, i, counts, found);
      found := found + [relative(base, record.path)];
      counts := counts - multiset{key};
    }
    return Some(found);
  }

  /** Where the loop stands after n records. */
  ghost predicate Scanned(relative: (Bytes, Bytes) -> Bytes, base: Bytes, records: seq<Record>, wanted: Counts,
                          n: nat, counts: Counts, found: seq<Bytes>)
    requires n <= |records|
  {
    && counts == wanted - multiset(Wires(records[..n]))
    && AllOnDisk(Picked(records, wanted, n))
    && found == Relatives(relative, base, Picked(records, wanted, n))
  }

  lemma ScanMiss(relative: (Bytes, Bytes) -> Bytes, base: Bytes, records: seq<Record>, wanted: Counts,
                 n: nat, counts: Counts, found: seq<Bytes>)
    requires n < |records| && Scanned(relative, base, records, wanted, n, counts, found)
    requires counts[records[n].Wire()] == 0
    ensures Scanned(relative, base, records, wanted, n + 1, counts, found)
  {
    CountsStep(records, wanted, n);
    NothingToTake(counts, records[n].Wire());
  }

  lemma NothingToTake(counts: Counts, key: WireRecord)
    requires counts[key] == 0
    ensures counts - multiset{key} == counts
  {
  }

  lemma ScanHit(relative: (Bytes, Bytes) -> Bytes, base: Bytes, records: seq<Record>, wanted: Counts,
                n: nat, counts: Counts, found: seq<Bytes>)
    requires n < |records| && Scanned(relative, base, records, wanted, n, counts, found)
    requires counts[records[n].Wire()] > 0 && OnDisk(records[n])
    ensures var key := records[n].Wire();
            Scanned(relative, base, records, wanted, n + 1, counts - multiset{key},
                    found + [relative(base, records[n].path)])
  {
    var key := records[n].Wire();
    CountsStep(records, wanted, n);
    AllOnDiskStep(Picked(records, wanted, n), records[n]);
    RelativesStep(relative, base, Picked(records, wanted, n), records[n]);
  }

  lemma ScanStop(relative: (Bytes, Bytes) -> Bytes, base: Bytes, records: seq<Record>, wanted: Counts,
                 n: nat, counts: Counts, found: seq<Bytes>)
    requires n < |records| && Scanned(relative, base, records, wanted, n, counts, found)
    requires counts[records[n].Wire()] > 0 && !OnDisk(records[n])
    ensures !AllOnDisk(Picked(records, wanted, |records|))
  {
    CountsStep(records, wanted, n);
    OnDiskIff(records, wanted, |records|);
  }

  lemma CountsStep(records: seq<Record>, wanted: Counts, i: nat)
    requires i < |records|
    ensures var counts, key := wanted - multiset(Wires(records[..i])), records[i].Wire();
            && (counts[key] > 0 <==> Hit(records, wanted, i))
            && wanted - multiset(Wires(records[..i + 1])) == counts - multiset{key}
  {
    assert Wires(records[..i + 1]) == Wires(records[..i]) + [records[i].Wire()];
  }

  lemma RelativesStep(relative: (Bytes, Bytes) -> Bytes, base: Bytes, picked: seq<Record>, r: Record)
    ensures Relatives(relative, base, picked + [r]) == Relatives(relative, base, picked) + [relative(base, r.path)]
  {
  }

  method ValidateCP(parse: Parser, relative: (Bytes, Bytes) -> Bytes, records: seq<Record>, accepted: seq<Bytes>,
      base: Bytes)
    returns (result: Result<seq<Bytes>, SelectionError>)
    ensures result == Outcome(parse, relative, records, accepted, base)
  {
    if |base| == 0 {
      return Err(InvalidBase);
    }
    if |accepted| == 0 {
      return Err(InvalidSelection);
    }
    var counts := CountAccepted(parse, accepted);
    if counts.None? {
      return Err(InvalidSelection);
    }
    var paths := Collect(relative, base, records, counts.value);
    if paths.None? {
      return Err(InvalidSelection);
    }
    if |paths.value| != |accepted| {
      return Err(UnknownSelection);
    }
    return Ok(paths.value);
  }

  // ----- what a selection means

  /** As a multiset, what is picked is what the snapshot and the selection have in common. */
  lemma {:induction false} PickedIsIntersection(records: seq<Record>, wanted: multiset<WireRecord>, n: nat)
    requires n <= |records|
    ensures multiset(Wires(Picked(records, wanted, n))) == multiset(Wires(records[..n])) * wanted
  {
    if n > 0 {
      PickedIsIntersection(records, wanted, n - 1);
      var picked, w := Picked(records, wanted, n - 1), records[n - 1].Wire();
      assert Wires(records[..n]) == Wires(records[..n - 1]) + [w];
      assert Wires(picked + [records[n - 1]]) == Wires(picked) + [w];
      IntersectionGrows(multiset(Wires(records[..n - 1])), wanted, w);
    } else {
      assert Wires(records[..n]) == [] && Wires([]) == [];
    }
  }

  lemma IntersectionGrows<T>(a: multiset<T>, b: multiset<T>, x: T)
    ensures (a + multiset{x}) * b == if a[x] < b[x] then a * b + multiset{x} else a * b
  {
  }

  /** The numbers below n that are hit, in order. */
  function Chosen(hit: nat -> bool, n: nat): seq<nat> {
    if n == 0 then [] else if hit(n - 1) then Chosen(hit, n - 1) + [n - 1] else Chosen(hit, n - 1)
  }

  lemma {:induction false} ChosenInOrder(hit: nat -> bool, n: nat)
    ensures forall p: nat :: p in Chosen(hit, n) <==> p < n && hit(p)
    ensures forall j, k :: 0 <= j < k < |Chosen(hit, n)| ==> Chosen(hit, n)[j] < Chosen(hit, n)[k]
  {
    if n > 0 {
      ChosenInOrder(hit, n - 1);
      var before := Chosen(hit, n - 1);
      assert forall j :: 0 <= j < |before| ==> before[j] in before;
    }
  }

  /** The positions of the records that are hit. */
  function HitBy(records: seq<Record>, wanted: multiset<WireRecord>): nat -> bool {
    (i: nat) => i < |records| && Hit(records, wanted, i)
  }

  /** The records picked are those at the positions hit, in snapshot order. */
  lemma {:induction false} PickedAt(records: seq<Record>, wanted: multiset<WireRecord>, hit: nat -> bool, n: nat)
    requires n <= |records| && hit == HitBy(records, wanted)
    ensures |Picked(records, wanted, n)| == |Chosen(hit, n)|
    ensures forall k :: 0 <= k < |Picked(records, wanted, n)| ==>
              Chosen(hit, n)[k] < |records| && Picked(records, wanted, n)[k] == records[Chosen(hit, n)[k]]
  {
    if n > 0 {
      PickedAt(records, wanted, hit, n - 1);
      assert hit(n - 1) == Hit(records, wanted, n - 1);
    }
  }

  /** The paths of an accepted selection come from strictly increasing positions of the snapshot: for every line
      accepted the first record with its columns that no line before it took. */
  lemma PathsInOrder(parse: Parser, relative: (Bytes, Bytes) -> Bytes, records: seq<Record>, accepted: seq<Bytes>,
      base: Bytes)
    returns (positions: seq<nat>)
    requires Outcome(parse, relative, records, accepted, base).Ok?
    ensures var paths := Outcome(parse, relative, records, accepted, base).value;
            && |positions| == |paths|
            && forall k :: 0 <= k < |paths| ==>
                 positions[k] < |records| && paths[k] == relative(base, records[positions[k]].path)
    ensures forall j, k :: 0 <= j < k < |positions| ==> positions[j] < positions[k]
    ensures forall k :: 0 <= k < |positions| ==> HitBy(records, multiset(Parsed(parse, accepted)))(positions[k])
  {
    var wanted := multiset(Parsed(parse, accepted));
    var hit := HitBy(records, wanted);
    positions := Chosen(hit, |records|);
    PickedAt(records, wanted, hit, |records|);
    ChosenInOrder(hit, |records|);
    var picked := Picked(records, wanted, |records|);
    assert Outcome(parse, relative, records, accepted, base) == Ok(Relatives(relative, base, picked));
    assert forall k :: 0 <= k < |positions| ==> positions[k] in positions;
  }

  /** The selection is in the snapshot, with multiplicity, exactly when as many records are picked as were accepted. */
  lemma CompleteIffIncluded(records: seq<Record>, wanted: multiset<WireRecord>)
    ensures |Picked(records, wanted, |records|)| == |wanted| <==> wanted <= multiset(Wires(records))
    ensures wanted <= multiset(Wires(records)) ==> multiset(Wires(Picked(records, wanted, |records|))) == wanted
  {
    PickedIsIntersection(records, wanted, |records|);
    assert records[..|records|] == records;
    var all := multiset(Wires(records));
    var picked := Wires(Picked(records, wanted, |records|));
    assert |multiset(picked)| == |picked|;
    if |picked| == |wanted| {
      SameSizeSub(all * wanted, wanted);
    }
    if wanted <= all {
      assert all * wanted == wanted;
    }
  }

  lemma SameSizeSub<T>(a: multiset<T>, b: multiset<T>)
    requires a <= b && |a| == |b|
    ensures a == b
  {
    assert b == a + (b - a);
    assert |b - a| == 0;
  }

  /** The selection succeeds exactly when it is nonempty, parses, is included in the snapshot with multiplicity and
      every record it picks is on disk; then there is one path per accepted line, in snapshot order. */
  lemma AcceptedIff(parse: Parser, relative: (Bytes, Bytes) -> Bytes, records: seq<Record>, accepted: seq<Bytes>,
      base: Bytes)
    ensures Outcome(parse, relative, records, accepted, base).Ok? <==>
              && base != [] && accepted != [] && Parses(parse, accepted)
              && multiset(Parsed(parse, accepted)) <= multiset(Wires(records))
              && HitsOnDisk(records, multiset(Parsed(parse, accepted)), |records|)
    ensures Outcome(parse, relative, records, accepted, base).Ok? ==>
              var picked := Picked(records, multiset(Parsed(parse, accepted)), |records|);
              && Outcome(parse, relative, records, accepted, base).value == Relatives(relative, base, picked)
              && multiset(Wires(picked)) == multiset(Parsed(parse, accepted))
              && |picked| == |accepted|
  {
    if Parses(parse, accepted) {
      var wanted := multiset(Parsed(parse, accepted));
      assert |wanted| == |accepted|;
      CompleteIffIncluded(records, wanted);
      OnDiskIff(records, wanted, |records|);
    }
  }

  lemma OnDiskIff(records: seq<Record>, wanted: multiset<WireRecord>, n: nat)
    requires n <= |records|
    ensures AllOnDisk(Picked(records, wanted, n)) <==> HitsOnDisk(records, wanted, n)
  {
    if AllOnDisk(Picked(records, wanted, n)) {
      forall i | 0 <= i < n && Hit(records, wanted, i) ensures OnDisk(records[i]) {
        PickedIsOnDisk(records, wanted, n, i);
      }
    } else if HitsOnDisk(records, wanted, n) {
      HitsArePicked(records, wanted, n);
    }
  }

  lemma {:induction false} PickedIsOnDisk(records: seq<Record>, wanted: multiset<WireRecord>, n: nat, i: nat)
    requires i < n <= |records| && AllOnDisk(Picked(records, wanted, n)) && Hit(records, wanted, i)
    ensures OnDisk(records[i])
  {
    PickedOnDiskStep(records, wanted, n - 1);
    assert Hit(records, wanted, n - 1) ==> OnDisk(records[n - 1]);
    if i < n - 1 { PickedIsOnDisk(records, wanted, n - 1, i); }
  }

  lemma {:induction false} HitsArePicked(records: seq<Record>, wanted: multiset<WireRecord>, n: nat)
    requires n <= |records| && HitsOnDisk(records, wanted, n)
    ensures AllOnDisk(Picked(records, wanted, n))
  {
    if n > 0 {
      HitsArePicked(records, wanted, n - 1);
      PickedOnDiskStep(records, wanted, n - 1);
    }
  }

  lemma PickedOnDiskStep(records: seq<Record>, wanted: multiset<WireRecord>, n: nat)
    requires n < |records|
    ensures AllOnDisk(Picked(records, wanted, n + 1)) <==>
              AllOnDisk(Picked(records, wanted, n)) && (Hit(records, wanted, n) ==> OnDisk(records[n]))
  {
    AllOnDiskStep(Picked(records, wanted, n), records[n]);
  }

  lemma AllOnDiskStep(picked: seq<Record>, r: Record)
    ensures AllOnDisk(picked + [r]) <==> AllOnDisk(picked) && OnDisk(r)
  {
    assert (picked + [r])[..|picked|] == picked;
  }

  /** A failure is blamed on the selection's form, or on a record picked that is not on disk, before it is blamed on
      the snapshot not having it. */
  lemma UnknownIff(parse: Parser, relative: (Bytes, Bytes) -> Bytes, records: seq<Record>, accepted: seq<Bytes>,
      base: Bytes)
    ensures Outcome(parse, relative, records, accepted, base) == Err(UnknownSelection) <==>
              && base != [] && accepted != [] && Parses(parse, accepted)
              && !(multiset(Parsed(parse, accepted)) <= multiset(Wires(records)))
              && HitsOnDisk(records, multiset(Parsed(parse, accepted)), |records|)
  {
    if Parses(parse, accepted) {
      CompleteIffIncluded(records, multiset(Parsed(parse, accepted)));
      OnDiskIff(records, multiset(Parsed(parse, accepted)), |records|);
    }
  }

  /** The other two errors: a missing base before everything else, then a selection that is empty, malformed or picks a
      record that is not on disk. */
  lemma InvalidIff(parse: Parser, relative: (Bytes, Bytes) -> Bytes, records: seq<Record>, accepted: seq<Bytes>,
      base: Bytes)
    ensures Outcome(parse, relative, records, accepted, base) == Err(InvalidBase) <==> base == []
    ensures Outcome(parse, relative, records, accepted, base) == Err(InvalidSelection) <==>
              base != [] && !(accepted != [] && Parses(parse, accepted)
                              && HitsOnDisk(records, multiset(Parsed(parse, accepted)), |records|))
  {
    if Parses(parse, accepted) { OnDiskIff(records, multiset(Parsed(parse, accepted)), |records|); }
  }

  // ----- order does not matter

  /** Mapping keeps permutations permutations. */
  lemma {:induction false} MapPermutes<A, B>(f: A -> B, a: seq<A>, b: seq<A>)
    requires multiset(a) == multiset(b)
    ensures multiset(Map(f, a)) == multiset(Map(f, b))
    decreases |a|
  {
    assert |multiset(a)| == |a| && |multiset(b)| == |b|;
    if a != [] {
      var n := |a| - 1;
      assert a[n] in multiset(a);
      var i :| 0 <= i < |b| && b[i] == a[n];
      Without(a, n);
      Without(b, i);
      Cancel(multiset(a[..n] + a[n + 1..]), multiset(b[..i] + b[i + 1..]), a[n]);
      MapPermutes(f, a[..n] + a[n + 1..], b[..i] + b[i + 1..]);
      MapWithout(f, a, n);
      MapWithout(f, b, i);
    }
  }

  lemma Cancel<A>(a: multiset<A>, b: multiset<A>, x: A)
    requires a + multiset{x} == b + multiset{x}
    ensures a == b
  {
    assert a == a + multiset{x} - multiset{x};
    assert b == b + multiset{x} - multiset{x};
  }

  lemma Without<A>(s: seq<A>, i: nat)
    requires i < |s|
    ensures multiset(s) == multiset(s[..i] + s[i + 1..]) + multiset{s[i]}
  {
    assert s == s[..i] + [s[i]] + s[i + 1..];
  }

  lemma MapWithout<A, B>(f: A -> B, s: seq<A>, i: nat)
    requires i < |s|
    ensures multiset(Map(f, s)) == multiset(Map(f, s[..i] + s[i + 1..])) + multiset{f(s[i])}
  {
    Without(Map(f, s), i);
    assert Map(f, s)[..i] + Map(f, s)[i + 1..] == Map(f, s[..i] + s[i + 1..]);
  }

  lemma ParsesPermutes(parse: Parser, a: seq<Bytes>, b: seq<Bytes>)
    requires multiset(a) == multiset(b) && Parses(parse, a)
    ensures Parses(parse, b)
  {
    forall i | 0 <= i < |b| ensures parse(b[i]).Ok? {
      assert b[i] in multiset(b);
      assert b[i] in a;
    }
  }

  /** fzf may report the accepted lines in any order: only how often each line occurs matters. */
  lemma OrderFree(parse: Parser, relative: (Bytes, Bytes) -> Bytes, records: seq<Record>, a: seq<Bytes>,
      b: seq<Bytes>, base: Bytes)
    requires multiset(a) == multiset(b)
    ensures Outcome(parse, relative, records, a, base) == Outcome(parse, relative, records, b, base)
  {
    assert |multiset(a)| == |a| && |multiset(b)| == |b|;
    MapPermutes(ColumnsOf(parse), a, b);
    if Parses(parse, a) { ParsesPermutes(parse, a, b); }
    if Parses(parse, b) { ParsesPermutes(parse, b, a); }
  }
}
