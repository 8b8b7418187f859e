/** platform/migrations: pairing the up and down files of every version. */
module Migrations {
  import opened Base
  import opened Occurrences

  /** One file whose name parses as a migration. */
  datatype Entry = Entry(version: nat, name: Id, schema: Id, up: bool, path: Id)

  datatype Migration = Migration(version: nat, name: Id, schema: Id, upPath: Id, downPath: Id)

  /** Two files of one version agree on name and schema and go in different directions. */
  predicate Compatible(a: Entry, b: Entry) {
    a.version == b.version ==> a.name == b.name && a.schema == b.schema && a.up != b.up
  }

  predicate Consistent(entries: seq<Entry>) {
    forall i, j :: 0 <= i < j < |entries| ==> Compatible(entries[i], entries[j])
  }

  predicate HasFile(entries: seq<Entry>, version: nat, up: bool) {
    exists i :: 0 <= i < |entries| && entries[i].version == version && entries[i].up == up
  }

  predicate Complete(entries: seq<Entry>) {
    forall i :: 0 <= i < |entries| ==> HasFile(entries, entries[i].version, !entries[i].up)
  }

  /** Every version has one schema, one name, exactly one up file and exactly one down file. */
  predicate Accepted(entries: seq<Entry>) {
    Consistent(entries) && Complete(entries)
  }

  predicate Pairs(entries: seq<Entry>, m: Migration) {
    Entry(m.version, m.name, m.schema, true, m.upPath) in entries
    && Entry(m.version, m.name, m.schema, false, m.downPath) in entries
  }

  predicate Ascending(list: seq<Migration>) {
    forall i, j :: 0 <= i < j < |list| ==> list[i].version < list[j].version
  }

  // ---------------------------------------------------------------------------
  // Collecting

  datatype Pair = Pair(name: Id, schema: Id, upPath: Option<Id>, downPath: Option<Id>)

  function PathOf(p: Pair, up: bool): Option<Id> {
    if up then p.upPath else p.downPath
  }

  function WithPath(p: Pair, up: bool, path: Id): Pair {
    if up then p.(upPath := Some(path)) else p.(downPath := Some(path))
  }

  /** The pairs hold exactly the files read so far. */
  predicate Reflects(pairs: map<nat, Pair>, entries: seq<Entry>) {
    && (forall i :: 0 <= i < |entries| ==> Recorded(pairs, entries[i]))
    && (forall v :: v in pairs ==> pairs[v].upPath.Some? || pairs[v].downPath.Some?)
    && (forall v, up :: v in pairs && PathOf(pairs[v], up).Some? ==>
          Entry(v, pairs[v].name, pairs[v].schema, up, PathOf(pairs[v], up).value) in entries)
  }

  predicate Recorded(pairs: map<nat, Pair>, e: Entry) {
    && e.version in pairs
    && pairs[e.version].name == e.name && pairs[e.version].schema == e.schema
    && PathOf(pairs[e.version], e.up) == Some(e.path)
  }

  function PairFor(pairs: map<nat, Pair>, e: Entry): Pair {
    if e.version in pairs then pairs[e.version] else Pair(e.name, e.schema, None, None)
  }

  predicate Fits(p: Pair, e: Entry) {
    p.name == e.name && p.schema == e.schema && PathOf(p, e.up).None?
  }

  /** The next file fits its pair exactly when the files stay consistent. */
  lemma FitsExactly(pairs: map<nat, Pair>, before: seq<Entry>, e: Entry)
    requires Reflects(pairs, before) && Consistent(before)
    ensures Fits(PairFor(pairs, e), e) <==> Consistent(before + [e])
  {
    var p := PairFor(pairs, e);
    var after := before + [e];
    if Fits(p, e) {
      forall i | 0 <= i < |before| ensures Compatible(before[i], e) { assert Recorded(pairs, before[i]); }
    } else {
      var up := if PathOf(p, e.up).Some? then e.up else !e.up;
      assert p == pairs[e.version] && PathOf(p, up).Some?;
      var k :| 0 <= k < |before| && before[k] == Entry(e.version, p.name, p.schema, up, PathOf(p, up).value);
      assert !Compatible(after[k], after[|before|]);
    }
  }

  lemma ReflectsOneMore(pairs: map<nat, Pair>, before: seq<Entry>, e: Entry)
    requires Reflects(pairs, before) && Fits(PairFor(pairs, e), e)
    ensures Reflects(pairs[e.version := WithPath(PairFor(pairs, e), e.up, e.path)], before + [e])
  {
    var pairs' := pairs[e.version := WithPath(PairFor(pairs, e), e.up, e.path)];
    forall i | 0 <= i < |before| ensures Recorded(pairs', before[i]) { assert Recorded(pairs, before[i]); }
    forall v, up | v in pairs' && PathOf(pairs'[v], up).Some?
      ensures Entry(v, pairs'[v].name, pairs'[v].schema, up, PathOf(pairs'[v], up).value) in before + [e]
    {
      if v != e.version || up != e.up {
        assert v in pairs && PathOf(pairs[v], up) == PathOf(pairs'[v], up);
      }
    }
  }

  method ReadAll(entries: seq<Entry>) returns (ok: bool, pairs: map<nat, Pair>)
    ensures ok == Consistent(entries)
    ensures ok ==> Reflects(pairs, entries)
  {
    pairs := map[];
    var i := 0;
    while i < |entries|
      invariant 0 <= i <= |entries|
      invariant Consistent(entries[..i]) && Reflects(pairs, entries[..i])
    {
      var e := entries[i];
      assert entries[..i + 1] == entries[..i] + [e];
      FitsExactly(pairs, entries[..i], e);
      var pair := if e.version in pairs then pairs[e.version] else Pair(e.name, e.schema, None, None);
      if pair.name != e.name || pair.schema != e.schema || PathOf(pair, e.up).Some? {
        Broken(entries, i + 1);
        return false, pairs;
      }
      ReflectsOneMore(pairs, entries[..i], e);
      pairs := pairs[e.version := WithPath(pair, e.up, e.path)];
      i := i + 1;
    }
    assert entries[..i] == entries;
    ok := true;
  }

  lemma Broken(entries: seq<Entry>, n: nat)
    requires n <= |entries| && !Consistent(entries[..n])
    ensures !Consistent(entries)
  {
    var i, j :| 0 <= i < j < n && !Compatible(entries[..n][i], entries[..n][j]);
    assert !Compatible(entries[i], entries[j]);
  }

  predicate Increasing(s: seq<nat>) {
    forall i, j :: 0 <= i < j < |s| ==> s[i] < s[j]
  }

  method InsertVersion(sorted: seq<nat>, v: nat) returns (r: seq<nat>)
    requires Increasing(sorted) && v !in sorted
    ensures Increasing(r) && forall w :: w in r <==> w in sorted || w == v
  {
    var k := 0;
    while k < |sorted| && sorted[k] < v
      invariant 0 <= k <= |sorted|
      invariant forall i :: 0 <= i < k ==> sorted[i] < v
    {
      k := k + 1;
    }
    assert sorted == sorted[..k] + sorted[k..];
    r := sorted[..k] + [v] + sorted[k..];
  }

  /** The versions in ascending order. */
  method SortVersions(versions: set<nat>) returns (sorted: seq<nat>)
    ensures Increasing(sorted) && forall v :: v in sorted <==> v in versions
  {
    sorted := [];
    var rest := versions;
    while rest != {}
      invariant rest <= versions && Increasing(sorted)
      invariant forall v :: v in sorted <==> v in versions && v !in rest
      decreases |rest|
    {
      var v :| v in rest;
      sorted := InsertVersion(sorted, v);
      rest := rest - {v};
    }
  }

  /** Files of one version have one name and one schema, and no two of them go the same way. */
  lemma ConsistentMeans(entries: seq<Entry>)
    ensures Consistent(entries) <==>
            forall i, j | 0 <= i < j < |entries| :: entries[i].version == entries[j].version ==>
              entries[i].name == entries[j].name && entries[i].schema == entries[j].schema
              && entries[i].up != entries[j].up
  {
    if Consistent(entries) {
      forall i, j | 0 <= i < j < |entries| && entries[i].version == entries[j].version
        ensures entries[i].name == entries[j].name && entries[i].schema == entries[j].schema
        ensures entries[i].up != entries[j].up
      {
        assert Compatible(entries[i], entries[j]);
      }
    }
  }

  /** So every version that has a file at all has a migration. */
  lemma AcceptedHasBoth(entries: seq<Entry>, i: nat) returns (m: Migration)
    requires Accepted(entries) && i < |entries|
    ensures m.version == entries[i].version && m.name == entries[i].name && m.schema == entries[i].schema
    ensures Entry(m.version, m.name, m.schema, true, m.upPath) in entries
    ensures Entry(m.version, m.name, m.schema, false, m.downPath) in entries
    ensures entries[i].path == if entries[i].up then m.upPath else m.downPath
  {
    var e := entries[i];
    assert HasFile(entries, e.version, !e.up);
    var j :| 0 <= j < |entries| && entries[j].version == e.version && entries[j].up == !e.up;
    assert if i < j then Compatible(entries[i], entries[j]) else Compatible(entries[j], entries[i]);
    m := if e.up then Migration(e.version, e.name, e.schema, e.path, entries[j].path)
         else Migration(e.version, e.name, e.schema, entries[j].path, e.path);
    assert entries[j] == Entry(e.version, e.name, e.schema, !e.up, entries[j].path);
    assert entries[j] in entries && e in entries;
  }

  /** Collect, from the parsed files in directory order. */
  method Collect(entries: seq<Entry>) returns (r: Option<seq<Migration>>)
    ensures Collected(entries, r)
  {
    var ok, pairs := ReadAll(entries);
    if !ok { return None; }
    var versions := SortVersions(pairs.Keys);
    var list: seq<Migration> := [];
    var i := 0;
    while i < |versions|
      invariant 0 <= i <= |versions| && |list| == i
      invariant forall k :: 0 <= k < i ==> Finished(pairs, versions[k], list[k])
    {
      assert versions[i] in versions;
      var pair := pairs[versions[i]];
      if pair.upPath.None? || pair.downPath.None? {
        Incomplete(pairs, entries, versions[i]);
        return None;
      }
      list := list + [Migration(versions[i], pair.name, pair.schema, pair.upPath.value, pair.downPath.value)];
      i := i + 1;
    }
    AllFinished(pairs, entries, versions, list);
    return Some(list);
  }

  predicate Finished(pairs: map<nat, Pair>, v: nat, m: Migration) {
    v in pairs && m.version == v && pairs[v] == Pair(m.name, m.schema, Some(m.upPath), Some(m.downPath))
  }

  lemma FilesAreRecorded(pairs: map<nat, Pair>, entries: seq<Entry>, v: nat, up: bool)
    requires Reflects(pairs, entries)
    ensures HasFile(entries, v, up) <==> v in pairs && PathOf(pairs[v], up).Some?
  {
    if HasFile(entries, v, up) {
      var k :| 0 <= k < |entries| && entries[k].version == v && entries[k].up == up;
      assert Recorded(pairs, entries[k]);
    }
    if v in pairs && PathOf(pairs[v], up).Some? {
      var file := Entry(v, pairs[v].name, pairs[v].schema, up, PathOf(pairs[v], up).value);
      var k :| 0 <= k < |entries| && entries[k] == file;
    }
  }

  lemma Incomplete(pairs: map<nat, Pair>, entries: seq<Entry>, v: nat)
    requires Reflects(pairs, entries) && v in pairs && (pairs[v].upPath.None? || pairs[v].downPath.None?)
    ensures !Complete(entries)
  {
    var up := pairs[v].upPath.Some?;
    FilesAreRecorded(pairs, entries, v, !up);
    FilesAreRecorded(pairs, entries, v, up);
    var i :| 0 <= i < |entries| && entries[i].version == v && entries[i].up == up;
  }

  lemma FinishedIsComplete(pairs: map<nat, Pair>, entries: seq<Entry>)
    requires Reflects(pairs, entries) && forall v :: v in pairs ==> pairs[v].upPath.Some? && pairs[v].downPath.Some?
    ensures Complete(entries)
  {
    forall i | 0 <= i < |entries| ensures HasFile(entries, entries[i].version, !entries[i].up) {
      assert Recorded(pairs, entries[i]);
      FilesAreRecorded(pairs, entries, entries[i].version, !entries[i].up);
    }
  }

  lemma FinishedIsPair(pairs: map<nat, Pair>, entries: seq<Entry>, m: Migration)
    requires Reflects(pairs, entries)
    ensures Finished(pairs, m.version, m) <==> Pairs(entries, m)
  {
    if Finished(pairs, m.version, m) {
      var p := pairs[m.version];
      assert PathOf(p, true) == Some(m.upPath) && PathOf(p, false) == Some(m.downPath);
    }
    if Pairs(entries, m) {
      var i :| 0 <= i < |entries| && entries[i] == Entry(m.version, m.name, m.schema, true, m.upPath);
      var j :| 0 <= j < |entries| && entries[j] == Entry(m.version, m.name, m.schema, false, m.downPath);
      assert Recorded(pairs, entries[i]) && Recorded(pairs, entries[j]);
    }
  }

  predicate ListsFinished(pairs: map<nat, Pair>, versions: seq<nat>, list: seq<Migration>) {
    && |list| == |versions|
    && forall k :: 0 <= k < |list| ==> Finished(pairs, versions[k], list[k])
  }

  lemma ListedIsFinished(pairs: map<nat, Pair>, versions: seq<nat>, list: seq<Migration>, m: Migration)
    requires ListsFinished(pairs, versions, list) && forall v :: v in pairs ==> v in versions
    ensures m in list <==> Finished(pairs, m.version, m)
  {
    if Finished(pairs, m.version, m) {
      var k :| 0 <= k < |versions| && versions[k] == m.version;
      assert Finished(pairs, versions[k], list[k]);
    }
  }

  lemma AllFinished(pairs: map<nat, Pair>, entries: seq<Entry>, versions: seq<nat>, list: seq<Migration>)
    requires Reflects(pairs, entries) && ListsFinished(pairs, versions, list)
    requires forall v :: v in pairs ==> v in versions
    ensures Complete(entries)
    ensures forall m :: m in list <==> Pairs(entries, m)
  {
    forall v | v in pairs ensures pairs[v].upPath.Some? && pairs[v].downPath.Some? {
      var k :| 0 <= k < |versions| && versions[k] == v;
      assert Finished(pairs, versions[k], list[k]);
    }
    FinishedIsComplete(pairs, entries);
    forall m ensures m in list <==> Pairs(entries, m) {
      ListedIsFinished(pairs, versions, list, m);
      FinishedIsPair(pairs, entries, m);
    }
  }

  // ---------------------------------------------------------------------------
  // Directory order does not matter

  lemma ConsistentInAnyOrder(a: seq<Entry>, b: seq<Entry>)
    requires multiset(a) == multiset(b) && Consistent(a)
    ensures Consistent(b)
  {
    forall i, j | 0 <= i < j < |b| ensures Compatible(b[i], b[j]) {
      var k, l := PairMoves(b, a, i, j);
      if k < l { assert Compatible(a[k], a[l]); } else { assert Compatible(a[l], a[k]); }
    }
  }

  lemma SameFiles(a: seq<Entry>, b: seq<Entry>, e: Entry)
    requires multiset(a) == multiset(b)
    ensures e in a <==> e in b
  {
    assert e in multiset(a) <==> e in multiset(b);
  }

  lemma FileInAnyOrder(a: seq<Entry>, b: seq<Entry>, version: nat, up: bool)
    requires multiset(a) == multiset(b) && HasFile(a, version, up)
    ensures HasFile(b, version, up)
  {
    var i :| 0 <= i < |a| && a[i].version == version && a[i].up == up;
    SameFiles(a, b, a[i]);
  }

  lemma AcceptedInAnyOrder(a: seq<Entry>, b: seq<Entry>)
    requires multiset(a) == multiset(b) && Accepted(a)
    ensures Accepted(b)
  {
    ConsistentInAnyOrder(a, b);
    forall i | 0 <= i < |b| ensures HasFile(b, b[i].version, !b[i].up) {
      SameFiles(a, b, b[i]);
      var k :| 0 <= k < |a| && a[k] == b[i];
      FileInAnyOrder(a, b, a[k].version, !a[k].up);
    }
  }

  /** Two ascending lists with the same migrations are the same list. */
  lemma {:induction false} AscendingIsUnique(a: seq<Migration>, b: seq<Migration>)
    requires Ascending(a) && Ascending(b) && forall m :: m in a <==> m in b
    ensures a == b
    decreases |a|
  {
    assert (a != [] ==> a[0] in b) && (b != [] ==> b[0] in a);
    if a != [] {
      HeadsAgree(a, b);
      forall m ensures m in a[1..] <==> m in b[1..] { TailsAgree(a, b, m); }
      AscendingIsUnique(a[1..], b[1..]);
      assert a == [a[0]] + a[1..] && b == [b[0]] + b[1..];
    }
  }

  lemma HeadsAgree(a: seq<Migration>, b: seq<Migration>)
    requires a != [] && b != [] && Ascending(a) && Ascending(b) && a[0] in b && b[0] in a
    ensures a[0] == b[0]
  {
    var i :| 0 <= i < |b| && b[i] == a[0];
    var j :| 0 <= j < |a| && a[j] == b[0];
  }

  lemma TailsAgree(a: seq<Migration>, b: seq<Migration>, m: Migration)
    requires a != [] && b != [] && Ascending(a) && Ascending(b) && a[0] == b[0] && (m in a <==> m in b)
    ensures m in a[1..] <==> m in b[1..]
  {
    assert a == [a[0]] + a[1..] && b == [b[0]] + b[1..];
    assert a[0] !in a[1..] && b[0] !in b[1..];
  }

  /** What Collect promises of its result. */
  ghost predicate Collected(entries: seq<Entry>, r: Option<seq<Migration>>) {
    && (r.Some? <==> Accepted(entries))
    && (r.Some? ==> Ascending(r.value) && forall m :: m in r.value <==> Pairs(entries, m))
  }

  /** The result does not depend on the order in which the files are listed. */
  lemma OrderDoesNotMatter(a: seq<Entry>, b: seq<Entry>, r: Option<seq<Migration>>, q: Option<seq<Migration>>)
    requires multiset(a) == multiset(b) && Collected(a, r) && Collected(b, q)
    ensures r == q
  {
    if r.Some? {
      AcceptedInAnyOrder(a, b);
      forall m ensures m in r.value <==> m in q.value { SamePairs(a, b, m); }
      AscendingIsUnique(r.value, q.value);
    } else if q.Some? {
      AcceptedInAnyOrder(b, a);
    }
  }

  lemma SamePairs(a: seq<Entry>, b: seq<Entry>, m: Migration)
    requires multiset(a) == multiset(b)
    ensures Pairs(a, m) <==> Pairs(b, m)
  {
    SameFiles(a, b, Entry(m.version, m.name, m.schema, true, m.upPath));
    SameFiles(a, b, Entry(m.version, m.name, m.schema, false, m.downPath));
  }
}
