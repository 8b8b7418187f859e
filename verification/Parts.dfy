/** Part numbers of multipart uploads: presigning them, and checking them when the upload is completed. */
module Parts {
  import opened Base
  import opened Sessions
  import opened Lifecycle
  import opened Occurrences

  datatype Part = Part(number: int, etag: Text, size: int, checksum: Text)

  function Numbers(parts: seq<Part>): (r: seq<int>)
    ensures |r| == |parts| && forall i :: 0 <= i < |r| ==> r[i] == parts[i].number
  {
    seq(|parts|, i requires 0 <= i < |parts| => parts[i].number)
  }

  predicate Ascending(parts: seq<Part>) {
    forall i, j :: 0 <= i < j < |parts| ==> parts[i].number < parts[j].number
  }

  predicate Sorted(parts: seq<Part>) {
    forall i, j :: 0 <= i < j < |parts| ==> parts[i].number <= parts[j].number
  }

  /** Sorted if the element at `hole` is left out, and that element is not above those after it. */
  predicate SortedAround(parts: seq<Part>, hole: nat) {
    && (forall i, j :: 0 <= i < j < |parts| && i != hole && j != hole ==> parts[i].number <= parts[j].number)
    && (forall j :: hole < j < |parts| && hole < |parts| ==> parts[hole].number <= parts[j].number)
  }

  function Swapped(s: seq<Part>, j: nat): seq<Part>
    requires 0 < j < |s|
  {
    s[j - 1 := s[j]][j := s[j - 1]]
  }

  lemma SwapMovesDown(s: seq<Part>, j: nat, n: nat)
    requires 0 < j < n <= |s| && SortedAround(s[..n], j) && s[j - 1].number > s[j].number
    ensures multiset(Swapped(s, j)) == multiset(s)
    ensures SortedAround(Swapped(s, j)[..n], j - 1)
  {
    assert Swapped(s, j)[..n] == Swapped(s[..n], j);
  }

  lemma InsertionDone(s: seq<Part>, j: nat)
    requires j < |s| && SortedAround(s, j) && (j > 0 ==> s[j - 1].number <= s[j].number)
    ensures Sorted(s)
  {
  }

  method SwapBack(a: array<Part>, j: nat)
    requires 0 < j < a.Length
    modifies a
    ensures a[..] == Swapped(old(a[..]), j)
  {
    a[j - 1], a[j] := a[j], a[j - 1];
  }

  /** The inner loop: element `i` sinks to its place. */
  method Insert(a: array<Part>, i: nat)
    requires i < a.Length && Sorted(a[..i])
    modifies a
    ensures Sorted(a[..i + 1])
    ensures multiset(a[..]) == multiset(old(a[..]))
  {
    var j := i;
    while j > 0 && a[j - 1].number > a[j].number
      invariant 0 <= j <= i
      invariant SortedAround(a[..i + 1], j)
      invariant multiset(a[..]) == multiset(old(a[..]))
    {
      SwapMovesDown(a[..], j, i + 1);
      SwapBack(a, j);
      j := j - 1;
    }
    InsertionDone(a[..i + 1], j);
  }

  /** The insertion sort on part numbers. */
  method SortParts(a: array<Part>)
    modifies a
    ensures Sorted(a[..])
    ensures multiset(a[..]) == multiset(old(a[..]))
  {
    if a.Length == 0 { return; }
    var i := 1;
    while i < a.Length
      invariant 1 <= i <= a.Length
      invariant Sorted(a[..i])
      invariant multiset(a[..]) == multiset(old(a[..]))
    {
      Insert(a, i);
      i := i + 1;
    }
    assert a[..] == a[..a.Length];
  }

  predicate Repeats(parts: seq<Part>) {
    exists i, j :: 0 <= i < j < |parts| && parts[i].number == parts[j].number
  }

  predicate BelowOne(parts: seq<Part>) {
    exists i :: 0 <= i < |parts| && parts[i].number < 1
  }

  lemma AcceptedExactly(parts: seq<Part>)
    ensures PartsAccepted(Numbers(parts)) <==> !BelowOne(parts) && !Repeats(parts)
  {
    var numbers := Numbers(parts);
    if PartsAccepted(numbers) {
      forall i, j | 0 <= i < j < |parts| ensures parts[i].number != parts[j].number { assert numbers[i] != numbers[j]; }
      forall i | 0 <= i < |parts| ensures parts[i].number >= 1 { assert numbers[i] >= 1; }
    }
  }

  lemma RepeatMoves(s: seq<Part>, parts: seq<Part>, i: nat, j: nat)
    requires multiset(s) == multiset(parts) && i < j < |s| && s[i].number == s[j].number
    ensures Repeats(parts)
  {
    var k, l := PairMoves(s, parts, i, j);
    assert k < l || l < k;
  }

  /** A sorted rearrangement of parts with different numbers is strictly ascending. */
  lemma SortedWithoutRepeats(parts: seq<Part>, sorted: seq<Part>)
    requires !Repeats(parts) && Sorted(sorted) && multiset(sorted) == multiset(parts)
    ensures Ascending(sorted)
  {
    forall i, j | 0 <= i < j < |sorted| ensures sorted[i].number < sorted[j].number {
      if sorted[i].number == sorted[j].number { RepeatMoves(sorted, parts, i, j); }
    }
  }

  /** normalizeUploadedParts: refused exactly for a number below 1 or a repeated one, else sorted. */
  method NormalizeUploadedParts(parts: seq<Part>) returns (r: Result<seq<Part>>)
    ensures r.Err? <==>
            || (exists i :: 0 <= i < |parts| && parts[i].number < 1)
            || (exists i, j :: 0 <= i < j < |parts| && parts[i].number == parts[j].number)
    ensures r.Err? ==> r.code == InvalidArgument
    ensures r.Ok? ==> forall i, j :: 0 <= i < j < |r.value| ==> r.value[i].number < r.value[j].number
    ensures r.Ok? ==> multiset(r.value) == multiset(parts)
  {
    var seen: set<int> := {};
    var i := 0;
    while i < |parts|
      invariant 0 <= i <= |parts|
      invariant seen == set k | 0 <= k < i :: parts[k].number
      invariant !BelowOne(parts[..i]) && !Repeats(parts[..i])
    {
      if parts[i].number < 1 { return Err(InvalidArgument); }
      if parts[i].number in seen { return Err(InvalidArgument); }
      NoneYet(parts, i);
      seen := seen + {parts[i].number};
      i := i + 1;
    }
    assert parts[..i] == parts;
    var normalized := new Part[|parts|](k requires 0 <= k < |parts| => parts[k]);
    assert normalized[..] == parts;
    SortParts(normalized);
    SortedWithoutRepeats(parts, normalized[..]);
    return Ok(normalized[..]);
  }

  lemma NoneYet(parts: seq<Part>, i: nat)
    requires i < |parts| && !BelowOne(parts[..i]) && !Repeats(parts[..i]) && parts[i].number >= 1
    requires parts[i].number !in (set k | 0 <= k < i :: parts[k].number)
    ensures !BelowOne(parts[..i + 1]) && !Repeats(parts[..i + 1])
  {
    assert forall k :: 0 <= k < i ==> parts[..i][k].number == parts[k].number && parts[k].number >= 1;
    forall k, l | 0 <= k < l < i + 1 ensures parts[k].number != parts[l].number {
      if l < i { assert parts[..i][k].number != parts[..i][l].number; }
    }
  }

  // ---------------------------------------------------------------------------
  // Presigning

  predicate Unique(numbers: seq<int>) {
    forall i, j :: 0 <= i < j < |numbers| ==> numbers[i] != numbers[j]
  }

  /** The part numbers PresignMultipartPartsHandler issues URLs for. */
  predicate Presignable(numbers: seq<int>, total: int) {
    && numbers != [] && Unique(numbers)
    && forall i :: 0 <= i < |numbers| ==> 1 <= numbers[i] && (total > 0 ==> numbers[i] <= total)
  }

  predicate Increasing(numbers: seq<int>) {
    forall i, j :: 0 <= i < j < |numbers| ==> numbers[i] < numbers[j]
  }

  method InsertNumber(sorted: seq<int>, v: int) returns (r: seq<int>)
    requires Increasing(sorted) && v !in sorted
    ensures Increasing(r) && multiset(r) == multiset(sorted) + multiset{v}
  {
    var k := 0;
    while k < |sorted| && sorted[k] < v
      invariant 0 <= k <= |sorted|
      invariant forall i :: 0 <= i < k ==> sorted[i] < v
    {
      k := k + 1;
    }
    assert sorted == sorted[..k] + sorted[k..];
    r := sorted[..k] + [v] + sorted[k..];
  }

  /** slices.Sort on numbers that are all different. */
  method SortNumbers(numbers: seq<int>) returns (sorted: seq<int>)
    requires Unique(numbers)
    ensures Increasing(sorted) && multiset(sorted) == multiset(numbers)
  {
    sorted := [];
    var i := 0;
    while i < |numbers|
      invariant 0 <= i <= |numbers|
      invariant Increasing(sorted) && multiset(sorted) == multiset(numbers[..i])
    {
      NotBefore(numbers, sorted, i);
      sorted := InsertNumber(sorted, numbers[i]);
      assert numbers[..i + 1] == numbers[..i] + [numbers[i]];
      i := i + 1;
    }
    assert numbers[..i] == numbers;
  }

  lemma NotBefore(numbers: seq<int>, sorted: seq<int>, i: nat)
    requires Unique(numbers) && i < |numbers| && multiset(sorted) == multiset(numbers[..i])
    ensures numbers[i] !in sorted
  {
    assert numbers[i] !in numbers[..i];
    assert numbers[i] in multiset(sorted) <==> numbers[i] in multiset(numbers[..i]);
  }

  /** validatePresignPartNumbers and the bound on part numbers, for a session that accepts uploads. */
  method ValidatePresign(numbers: seq<int>, total: int) returns (r: Result<seq<int>>)
    ensures r.Ok? <==>
            && numbers != [] && (forall i, j :: 0 <= i < j < |numbers| ==> numbers[i] != numbers[j])
            && (forall i :: 0 <= i < |numbers| ==> 1 <= numbers[i])
            && (total > 0 ==> forall i :: 0 <= i < |numbers| ==> numbers[i] <= total)
    ensures r.Ok? ==> forall i, j :: 0 <= i < j < |r.value| ==> r.value[i] < r.value[j]
    ensures r.Ok? ==> multiset(r.value) == multiset(numbers)
    ensures r.Err? ==> r.code == InvalidArgument
  {
    if numbers == [] { return Err(InvalidArgument); }
    var seen: set<int> := {};
    var i := 0;
    while i < |numbers|
      invariant 0 <= i <= |numbers|
      invariant seen == set k | 0 <= k < i :: numbers[k]
      invariant forall k :: 0 <= k < i ==> numbers[k] >= 1
      invariant forall k, l :: 0 <= k < l < i ==> numbers[k] != numbers[l]
    {
      if numbers[i] < 1 || numbers[i] in seen { return Err(InvalidArgument); }
      seen := seen + {numbers[i]};
      i := i + 1;
    }
    var values := SortNumbers(numbers);
    i := 0;
    while i < |values|
      invariant 0 <= i <= |values|
      invariant forall k :: 0 <= k < i && total > 0 ==> values[k] <= total
    {
      if total > 0 && values[i] > total {
        TooLarge(numbers, values, total, i);
        return Err(InvalidArgument);
      }
      i := i + 1;
    }
    AllWithin(numbers, values, total);
    return Ok(values);
  }

  lemma TooLarge(numbers: seq<int>, values: seq<int>, total: int, i: nat)
    requires multiset(values) == multiset(numbers) && i < |values| && 0 < total < values[i]
    ensures !Presignable(numbers, total)
  {
    assert values[i] in multiset(numbers);
    var k :| 0 <= k < |numbers| && numbers[k] == values[i];
  }

  lemma AllWithin(numbers: seq<int>, values: seq<int>, total: int)
    requires multiset(values) == multiset(numbers)
    requires forall k :: 0 <= k < |values| && total > 0 ==> values[k] <= total
    ensures forall k :: 0 <= k < |numbers| && total > 0 ==> numbers[k] <= total
  {
    forall k | 0 <= k < |numbers| && total > 0 ensures numbers[k] <= total {
      assert numbers[k] in multiset(values);
    }
  }

  // ---------------------------------------------------------------------------
  // The count check

  lemma {:induction false} AscendingFrom(parts: seq<Part>, i: nat)
    requires Ascending(parts) && i < |parts| && parts[0].number >= 1
    ensures parts[i].number >= i + 1
  {
    if i > 0 { AscendingFrom(parts, i - 1); }
  }

  lemma {:induction false} AscendingUpTo(parts: seq<Part>, i: nat, total: nat)
    requires Ascending(parts) && i < |parts| && parts[|parts| - 1].number <= total
    ensures parts[i].number <= total - (|parts| - 1 - i)
    decreases |parts| - i
  {
    if i < |parts| - 1 { AscendingUpTo(parts, i + 1, total); }
  }

  /** Every part the provider lists was uploaded through a URL that some accepted presign request issued. */
  predicate UploadedThrough(parts: seq<Part>, requests: seq<seq<int>>, total: int) {
    && (forall q :: 0 <= q < |requests| ==> Presignable(requests[q], total))
    && (forall i :: 0 <= i < |parts| ==> exists q :: 0 <= q < |requests| && parts[i].number in requests[q])
  }

  /** With parts from presigned URLs only, passing the count check means having exactly the parts 1..TotalParts. */
  lemma CountCheckMeansComplete(parts: seq<Part>, requests: seq<seq<int>>, total: nat)
    requires total > 0 && UploadedThrough(parts, requests, total) && Ascending(parts) && |parts| >= total
    ensures |parts| == total && forall i :: 0 <= i < total ==> parts[i].number == i + 1
  {
    forall i | 0 <= i < |parts| ensures 1 <= parts[i].number <= total {
      var q :| 0 <= q < |requests| && parts[i].number in requests[q];
      assert Presignable(requests[q], total);
    }
    AscendingFrom(parts, |parts| - 1);
    forall i | 0 <= i < |parts| ensures parts[i].number == i + 1 {
      AscendingFrom(parts, i);
      AscendingUpTo(parts, i, total);
    }
  }
}
