/** Tenant policies: what a patch means, when it tightens, and what the SQL update stores. */
module Policy {
  import opened Base

  /** A Go slice of strings: nil, or a list. */
  type List<T> = Option<seq<T>>

  function Items<T>(list: List<T>): seq<T> {
    if list.None? then [] else list.value
  }

  predicate NoDuplicates<T(==)>(s: seq<T>) {
    forall i, j :: 0 <= i < j < |s| ==> s[i] != s[j]
  }

  // ---------------------------------------------------------------------------
  // Normalizing lists

  /** The non-blank values, each at its first occurrence. */
  function FirstOccurrences(values: seq<Text>): (r: seq<nat>)
    ensures NoDuplicates(r)
    ensures forall v :: v in r <==> Text(v) in values
  {
    if values == [] then []
    else
      var before, last := FirstOccurrences(values[..|values| - 1]), values[|values| - 1];
      assert values == values[..|values| - 1] + [last];
      if last.Blank? || last.n in before then before else before + [last.n]
  }

  /** normalizeStringSlice on values that are already trimmed and folded. */
  method NormalizeList(values: List<Text>) returns (r: List<nat>)
    ensures r.None? <==> values.None?
    ensures r.Some? ==> r.value == FirstOccurrences(values.value)
    ensures NoDuplicates(Items(r)) && forall v :: v in Items(r) <==> Text(v) in Items(values)
  {
    if values.None? { return None; }
    var seen: set<nat> := {};
    var result: seq<nat> := [];
    var i := 0;
    while i < |values.value|
      invariant 0 <= i <= |values.value|
      invariant result == FirstOccurrences(values.value[..i])
      invariant seen == set v | v in result
    {
      var value := values.value[i];
      assert values.value[..i + 1][..i] == values.value[..i];
      if !value.Blank? && value.n !in seen {
        seen := seen + {value.n};
        result := result + [value.n];
      }
      i := i + 1;
    }
    assert values.value[..i] == values.value;
    return Some(result);
  }

  /** Values are kept in the order of their first occurrence: what comes later never moves what came before. */
  lemma {:induction false} EarlierValuesStay(a: seq<Text>, b: seq<Text>)
    ensures FirstOccurrences(a) <= FirstOccurrences(a + b)
    decreases |b|
  {
    if b == [] {
      assert a + b == a;
    } else {
      var n := |b| - 1;
      EarlierValuesStay(a, b[..n]);
      assert (a + b)[..|a + b| - 1] == a + b[..n];
    }
  }

  function AsTexts(values: seq<nat>): (r: seq<Text>)
    ensures |r| == |values| && forall i :: 0 <= i < |r| ==> r[i] == Text(values[i])
  {
    seq(|values|, i requires 0 <= i < |values| => Text(values[i]))
  }

  /** Normalizing a normalized list changes nothing. */
  lemma {:induction false} NormalizingTwice(values: seq<nat>)
    requires NoDuplicates(values)
    ensures FirstOccurrences(AsTexts(values)) == values
    decreases |values|
  {
    if values != [] {
      var n := |values| - 1;
      NormalizingTwice(values[..n]);
      assert AsTexts(values)[..n] == AsTexts(values[..n]);
      assert values == values[..n] + [values[n]];
      assert AsTexts(values)[n] == Text(values[n]);
    }
  }

  // ---------------------------------------------------------------------------
  // Tightening

  /** An empty list allows everything. */
  predicate Allows(list: seq<nat>, v: nat) {
    list == [] || v in list
  }

  ghost predicate Narrower(current: seq<nat>, next: seq<nat>) {
    && (forall v :: Allows(next, v) ==> Allows(current, v))
    && (exists v :: Allows(current, v) && !Allows(next, v))
  }

  predicate Tightens(current: seq<nat>, next: seq<nat>) {
    next != [] && (current == [] || ((forall i :: 0 <= i < |next| ==> next[i] in current) && |next| < |current|))
  }

  method StringSetTightens(current: seq<nat>, next: seq<nat>) returns (r: bool)
    ensures r == Tightens(current, next)
  {
    if |next| == 0 { return false; }
    if |current| == 0 { return true; }
    var i := 0;
    while i < |next|
      invariant 0 <= i <= |next|
      invariant forall k :: 0 <= k < i ==> next[k] in current
    {
      if next[i] !in current { return false; }
      i := i + 1;
    }
    return |next| < |current|;
  }

  function SetOf(s: seq<nat>): set<nat> {
    set v | v in s
  }

  lemma {:induction false} SetOfNoDuplicates(s: seq<nat>)
    requires NoDuplicates(s)
    ensures |SetOf(s)| == |s|
    decreases |s|
  {
    if s != [] {
      var n := |s| - 1;
      SetOfNoDuplicates(s[..n]);
      assert s == s[..n] + [s[n]];
      assert SetOf(s) == SetOf(s[..n]) + {s[n]};
      assert s[n] !in SetOf(s[..n]);
    }
  }

  lemma {:induction false} SomethingOutside(s: seq<nat>) returns (v: nat)
    ensures v !in s
    ensures forall k :: k in s ==> k < v
    decreases |s|
  {
    if s == [] {
      v := 0;
    } else {
      var n := |s| - 1;
      var w := SomethingOutside(s[..n]);
      assert s == s[..n] + [s[n]];
      v := if w > s[n] then w else s[n] + 1;
    }
  }

  lemma {:induction false} SubsetSizes(a: set<nat>, b: set<nat>)
    requires a <= b
    ensures |a| <= |b| && (|a| < |b| <==> a != b)
    decreases |a|
  {
    if x :| x in a {
      SubsetSizes(a - {x}, b - {x});
      assert a == a - {x} + {x} && b == b - {x} + {x};
    } else if y :| y in b {
      assert |b| > 0;
    }
  }

  lemma NarrowerIsStrictSubset(current: seq<nat>, next: seq<nat>)
    ensures Narrower(current, next) <==>
            next != [] && (current == [] || (SetOf(next) <= SetOf(current) && SetOf(next) != SetOf(current)))
  {
    if next != [] && current == [] {
      var v := SomethingOutside(next);
      assert Allows(current, v) && !Allows(next, v);
    } else if next == [] && current != [] {
      var v := SomethingOutside(current);
      assert Allows(next, v) && !Allows(current, v);
    } else if next != [] && current != [] {
      assert forall v :: v in SetOf(next) <==> Allows(next, v);
      assert forall v :: v in SetOf(current) <==> Allows(current, v);
    }
  }

  /** The test on lists is strict inclusion exactly when counting entries counts values. */
  lemma TightensIsNarrowerExactly(current: seq<nat>, next: seq<nat>)
    ensures (Tightens(current, next) <==> Narrower(current, next)) <==>
            (next != [] && current != [] && SetOf(next) <= SetOf(current) ==>
               (|next| < |current| <==> |SetOf(next)| < |SetOf(current)|))
  {
    NarrowerIsStrictSubset(current, next);
    if SetOf(next) <= SetOf(current) { SubsetSizes(SetOf(next), SetOf(current)); }
    assert (forall i :: 0 <= i < |next| ==> next[i] in current) <==> SetOf(next) <= SetOf(current) by {
      assert forall i :: 0 <= i < |next| ==> next[i] in SetOf(next);
    }
  }

  /** So it is for normalized lists. */
  lemma TightensIsNarrower(current: seq<nat>, next: seq<nat>)
    requires NoDuplicates(current) && NoDuplicates(next)
    ensures Tightens(current, next) <==> Narrower(current, next)
  {
    SetOfNoDuplicates(current);
    SetOfNoDuplicates(next);
    TightensIsNarrowerExactly(current, next);
  }

  /**
    * And it is not for a list with a repeated entry. The patch handler normalizes the patch and the current policy,
    * so the guard never sees such a list.
    */
  lemma RepeatedEntryMisleads()
    ensures Tightens([1, 1], [1]) && !Narrower([1, 1], [1])
  {
    NarrowerIsStrictSubset([1, 1], [1]);
    assert 1 in SetOf([1]);
    assert SetOf([1, 1]) == SetOf([1]);
  }

  predicate LimitAllows(limit: Option<int>, n: int) {
    limit.None? || n <= limit.value
  }

  ghost predicate LimitNarrower(current: Option<int>, next: Option<int>) {
    && (forall n :: LimitAllows(next, n) ==> LimitAllows(current, n))
    && (exists n :: LimitAllows(current, n) && !LimitAllows(next, n))
  }

  predicate LimitTightens(current: Option<int>, next: Option<int>) {
    next.Some? && (current.None? || next.value < current.value)
  }

  lemma LimitTightensIsNarrower(current: Option<int>, next: Option<int>)
    ensures LimitTightens(current, next) <==> LimitNarrower(current, next)
  {
    if next.Some? {
      assert !LimitAllows(next, next.value + 1) && LimitAllows(next, next.value);
      if current.None? { assert LimitAllows(current, next.value + 1); }
    } else if current.Some? {
      assert LimitAllows(next, current.value + 1) && !LimitAllows(current, current.value + 1);
    }
  }

  predicate FlagTightens(current: Option<bool>, next: Option<bool>) {
    current == Some(true) && next == Some(false)
  }

  // ---------------------------------------------------------------------------
  // Policies, patches and the guard

  datatype TenantPolicy = TenantPolicy(
    maxStorageBytes: Option<int>,
    maxFileCount: Option<int>,
    maxSingleFileSize: Option<int>,
    mimeTypes: List<nat>,
    extensions: List<nat>,
    accessLevel: Option<Id>,
    autoCreate: Option<bool>)

  datatype Patch = Patch(policy: TenantPolicy, reason: Text)

  function Over<T>(next: Option<T>, current: Option<T>): Option<T> {
    if next.Some? then next else current
  }

  /** Every field of the patch that is set replaces that of the policy. */
  function ApplyTo(patch: Patch, current: TenantPolicy): TenantPolicy {
    var p := patch.policy;
    TenantPolicy(
      Over(p.maxStorageBytes, current.maxStorageBytes), Over(p.maxFileCount, current.maxFileCount),
      Over(p.maxSingleFileSize, current.maxSingleFileSize), Over(p.mimeTypes, current.mimeTypes),
      Over(p.extensions, current.extensions), Over(p.accessLevel, current.accessLevel),
      Over(p.autoCreate, current.autoCreate))
  }

  /** Each field of a patch lands in the field of the same name, and a field that is not set leaves it alone. */
  lemma PatchLandsInItsField(patch: Patch, current: TenantPolicy)
    ensures var p, next := patch.policy, ApplyTo(patch, current);
            && next.maxStorageBytes == (if p.maxStorageBytes.Some? then p.maxStorageBytes else current.maxStorageBytes)
            && next.maxFileCount == (if p.maxFileCount.Some? then p.maxFileCount else current.maxFileCount)
            && next.maxSingleFileSize
               == (if p.maxSingleFileSize.Some? then p.maxSingleFileSize else current.maxSingleFileSize)
            && next.mimeTypes == (if p.mimeTypes.Some? then p.mimeTypes else current.mimeTypes)
            && next.extensions == (if p.extensions.Some? then p.extensions else current.extensions)
            && next.accessLevel == (if p.accessLevel.Some? then p.accessLevel else current.accessLevel)
            && next.autoCreate == (if p.autoCreate.Some? then p.autoCreate else current.autoCreate)
  {
  }

  predicate TightensComparedTo(next: TenantPolicy, current: TenantPolicy) {
    || LimitTightens(current.maxStorageBytes, next.maxStorageBytes)
    || LimitTightens(current.maxFileCount, next.maxFileCount)
    || LimitTightens(current.maxSingleFileSize, next.maxSingleFileSize)
    || Tightens(Items(current.mimeTypes), Items(next.mimeTypes))
    || Tightens(Items(current.extensions), Items(next.extensions))
    || FlagTightens(current.autoCreate, next.autoCreate)
  }

  /** The guard's verdict on an authorized administrator. */
  predicate GuardAccepts(current: TenantPolicy, patch: Patch) {
    TightensComparedTo(ApplyTo(patch, current), current) ==> !patch.reason.Blank?
  }

  predicate Normalized(p: TenantPolicy) {
    NoDuplicates(Items(p.mimeTypes)) && NoDuplicates(Items(p.extensions))
  }

  /** Nothing that was allowed before is forbidden in any of the aspects the guard judges. */
  ghost predicate NothingShrinks(current: TenantPolicy, next: TenantPolicy) {
    && !LimitNarrower(current.maxStorageBytes, next.maxStorageBytes)
    && !LimitNarrower(current.maxFileCount, next.maxFileCount)
    && !LimitNarrower(current.maxSingleFileSize, next.maxSingleFileSize)
    && !Narrower(Items(current.mimeTypes), Items(next.mimeTypes))
    && !Narrower(Items(current.extensions), Items(next.extensions))
    && !(current.autoCreate == Some(true) && next.autoCreate == Some(false))
  }

  /** A patch without a reason is accepted exactly when no limit, list or flag strictly shrinks. */
  lemma GuardAsksForReasonExactly(current: TenantPolicy, patch: Patch)
    requires Normalized(current) && Normalized(patch.policy)
    ensures patch.reason.Blank? ==> (GuardAccepts(current, patch) <==> NothingShrinks(current, ApplyTo(patch, current)))
    ensures !patch.reason.Blank? ==> GuardAccepts(current, patch)
  {
    var next := ApplyTo(patch, current);
    LimitTightensIsNarrower(current.maxStorageBytes, next.maxStorageBytes);
    LimitTightensIsNarrower(current.maxFileCount, next.maxFileCount);
    LimitTightensIsNarrower(current.maxSingleFileSize, next.maxSingleFileSize);
    TightensIsNarrower(Items(current.mimeTypes), Items(next.mimeTypes));
    TightensIsNarrower(Items(current.extensions), Items(next.extensions));
  }

  // ---------------------------------------------------------------------------
  // The SQL update

  /** tenant.tenant_policies: only the two list columns may be null. */
  datatype Row = Row(
    maxStorageBytes: int,
    maxFileCount: int,
    maxSingleFileSize: int,
    mimeTypes: List<Text>,
    extensions: List<Text>,
    accessLevel: Id,
    autoCreate: bool)

  function Case<T>(given: Option<T>, column: T): T {
    if given.Some? then given.value else column
  }

  function CaseList(given: List<nat>, column: List<Text>): List<Text> {
    if given.Some? then Some(AsTexts(given.value)) else column
  }

  /** CASE WHEN the field is given THEN the field ELSE the column. */
  function PatchRow(row: Row, patch: Patch): Row {
    var p := patch.policy;
    Row(Case(p.maxStorageBytes, row.maxStorageBytes), Case(p.maxFileCount, row.maxFileCount),
        Case(p.maxSingleFileSize, row.maxSingleFileSize), CaseList(p.mimeTypes, row.mimeTypes),
        CaseList(p.extensions, row.extensions), Case(p.accessLevel, row.accessLevel),
        Case(p.autoCreate, row.autoCreate))
  }

  /** scanTenantPolicy: a null or empty array comes back as nil, and lists are normalized. */
  function ScanList(column: List<Text>): List<nat> {
    if Items(column) == [] then None else Some(FirstOccurrences(column.value))
  }

  function Scan(row: Row): TenantPolicy {
    TenantPolicy(Some(row.maxStorageBytes), Some(row.maxFileCount), Some(row.maxSingleFileSize),
                 ScanList(row.mimeTypes), ScanList(row.extensions), Some(row.accessLevel), Some(row.autoCreate))
  }

  /** Equal but for the difference between a nil and an empty list. */
  predicate SameMeaning(a: TenantPolicy, b: TenantPolicy) {
    && a.maxStorageBytes == b.maxStorageBytes && a.maxFileCount == b.maxFileCount
    && a.maxSingleFileSize == b.maxSingleFileSize
    && Items(a.mimeTypes) == Items(b.mimeTypes) && Items(a.extensions) == Items(b.extensions)
    && a.accessLevel == b.accessLevel && a.autoCreate == b.autoCreate
  }

  /** Each column is read into the field of the same name. */
  lemma ColumnsAreReadInPlace(row: Row)
    ensures var p := Scan(row);
            && p.maxStorageBytes == Some(row.maxStorageBytes) && p.maxFileCount == Some(row.maxFileCount)
            && p.maxSingleFileSize == Some(row.maxSingleFileSize)
            && p.accessLevel == Some(row.accessLevel) && p.autoCreate == Some(row.autoCreate)
            && (forall v :: v in Items(p.mimeTypes) <==> Text(v) in Items(row.mimeTypes))
            && (forall v :: v in Items(p.extensions) <==> Text(v) in Items(row.extensions))
            && Normalized(p)
  {
  }

  lemma ScannedList(given: List<nat>, column: List<Text>)
    requires NoDuplicates(Items(given))
    ensures Items(ScanList(CaseList(given, column))) == Items(Over(given, ScanList(column)))
  {
    if given.Some? { NormalizingTwice(given.value); }
  }

  /** The stored policy means the same as the one the guard judged. */
  lemma StoredPolicyIsTheJudgedOne(row: Row, patch: Patch)
    requires Normalized(patch.policy)
    ensures SameMeaning(Scan(PatchRow(row, patch)), ApplyTo(patch, Scan(row)))
    ensures Normalized(Scan(row))
    ensures TightensComparedTo(Scan(PatchRow(row, patch)), Scan(row)) <==>
            TightensComparedTo(ApplyTo(patch, Scan(row)), Scan(row))
  {
    ScannedList(patch.policy.mimeTypes, row.mimeTypes);
    ScannedList(patch.policy.extensions, row.extensions);
  }
}
