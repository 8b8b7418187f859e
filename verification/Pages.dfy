/** Keyset pagination of the admin lists: ORDER BY created_at DESC, id DESC, a lookahead row and a cursor. */
module Pages {
  import opened Base

  /** What rows are ordered by; the id makes it unique. */
  datatype Key = Key(createdAt: Time, id: Id)

  predicate Below(a: Key, b: Key) {
    a.createdAt < b.createdAt || (a.createdAt == b.createdAt && a.id < b.id)
  }

  predicate Descending(rows: seq<Key>) {
    forall i, j :: 0 <= i < j < |rows| ==> Below(rows[j], rows[i])
  }

  /** Newest first, and within one instant by descending id. */
  lemma DescendingMeans(rows: seq<Key>)
    ensures Descending(rows) <==>
            forall i, j :: 0 <= i < j < |rows| ==>
              || rows[j].createdAt < rows[i].createdAt
              || (rows[j].createdAt == rows[i].createdAt && rows[j].id < rows[i].id)
  {
  }

  function EffectiveLimit(limit: int): (n: nat)
    ensures n > 0
    ensures limit > 0 ==> n == limit
    ensures limit <= 0 ==> n == 50
  {
    if limit <= 0 then 50 else limit
  }

  datatype Page = Page(items: seq<Key>, next: Option<Key>)

  /** The position of the first row below the cursor. */
  function Start(rows: seq<Key>, cursor: Option<Key>): (p: nat)
    ensures p <= |rows|
    ensures forall i :: 0 <= i < p ==> cursor.Some? && !Below(rows[i], cursor.value)
    ensures p < |rows| ==> cursor.None? || Below(rows[p], cursor.value)
  {
    if rows == [] || cursor.None? || Below(rows[0], cursor.value) then 0 else 1 + Start(rows[1..], cursor)
  }

  /** The page that begins at row `p`. */
  function PageAt(rows: seq<Key>, p: nat, n: nat): Page
    requires p <= |rows|
  {
    if |rows| - p <= n then Page(rows[p..], None) else Page(rows[p..p + n], Some(rows[p + n]))
  }

  /** List and trimPage over the table in its order: the rows after the cursor, cut at the limit. */
  method List(rows: seq<Key>, cursor: Option<Key>, limit: int) returns (page: Page)
    requires Descending(rows)
    ensures page == PageAt(rows, Start(rows, cursor), EffectiveLimit(limit))
  {
    var n := EffectiveLimit(limit);
    ghost var p := Start(rows, cursor);
    var items: seq<Key> := [];
    var i := 0;
    while i < |rows| && |items| < n + 1
      invariant 0 <= i <= |rows|
      invariant items == Scanned(rows, p, i)
      invariant |items| <= n + 1
    {
      AfterStart(rows, cursor, i);
      ScannedOneMore(rows, p, i);
      if cursor.None? || Below(rows[i], cursor.value) { items := items + [rows[i]]; }
      i := i + 1;
    }
    PageOfScanned(rows, p, i, n);
    if |items| <= n { return Page(items, None); }
    return Page(items[..n], Some(items[n]));
  }

  /** The rows from `p` on among the first `i`. */
  function Scanned(rows: seq<Key>, p: nat, i: nat): seq<Key>
    requires i <= |rows|
  {
    if i <= p then [] else rows[p..i]
  }

  lemma ScannedOneMore(rows: seq<Key>, p: nat, i: nat)
    requires i < |rows|
    ensures Scanned(rows, p, i + 1) == if p <= i then Scanned(rows, p, i) + [rows[i]] else []
  {
  }

  lemma PageOfScanned(rows: seq<Key>, p: nat, i: nat, n: nat)
    requires i <= |rows| && p <= |rows| && (i == |rows| || |Scanned(rows, p, i)| == n + 1)
    requires |Scanned(rows, p, i)| <= n + 1
    ensures var items := Scanned(rows, p, i);
            PageAt(rows, p, n) == if |items| <= n then Page(items, None) else Page(items[..n], Some(items[n]))
  {
  }

  lemma AfterStart(rows: seq<Key>, cursor: Option<Key>, i: nat)
    requires Descending(rows) && i < |rows|
    ensures (cursor.None? || Below(rows[i], cursor.value)) <==> Start(rows, cursor) <= i
  {
    var p := Start(rows, cursor);
    assert p < i ==> Below(rows[i], rows[p]);
  }

  /** The rows left when every (limit + 1)-th is dropped. */
  function Kept(rows: seq<Key>, limit: nat): seq<Key>
    requires limit > 0
    decreases |rows|
  {
    if |rows| <= limit then rows else rows[..limit] + Kept(rows[limit + 1..], limit)
  }

  lemma StartAfterRow(rows: seq<Key>, p: nat)
    requires Descending(rows) && p < |rows|
    ensures Start(rows, Some(rows[p])) == p + 1
  {
    AfterStart(rows, Some(rows[p]), p);
    if p + 1 < |rows| { AfterStart(rows, Some(rows[p]), p + 1); }
  }

  /** What the pages after the one at `p` still return. */
  function Remaining(rows: seq<Key>, p: nat, n: nat): seq<Key>
    requires p <= |rows| && n > 0
  {
    if |rows| - p <= n then [] else Kept(rows[p + n + 1..], n)
  }

  /** The walk has come to the page at `p` and returned everything up to its end. */
  predicate Walked(rows: seq<Key>, p: nat, n: nat, items: seq<Key>) {
    p <= |rows| && n > 0 && items + Remaining(rows, p, n) == Kept(rows, n)
  }

  lemma WalkStarts(rows: seq<Key>, n: nat)
    requires n > 0
    ensures Walked(rows, 0, n, PageAt(rows, 0, n).items)
  {
    PageThenRemaining(rows, 0, n);
    assert rows[0..] == rows;
  }

  lemma Regroup(items: seq<Key>, rest: seq<Key>, page: seq<Key>, after: seq<Key>, total: seq<Key>)
    requires items + rest == total && rest == page + after
    ensures items + page + after == total
  {
  }

  lemma WalkGoesOn(rows: seq<Key>, p: nat, n: nat, items: seq<Key>)
    requires Walked(rows, p, n, items) && PageAt(rows, p, n).next.Some?
    ensures p + n < |rows| && PageAt(rows, p, n).next.value == rows[p + n]
    ensures Walked(rows, p + n + 1, n, items + PageAt(rows, p + n + 1, n).items)
  {
    var q := p + n + 1;
    PageThenRemaining(rows, q, n);
    Regroup(items, Kept(rows[q..], n), PageAt(rows, q, n).items, Remaining(rows, q, n), Kept(rows, n));
  }

  lemma WalkEnds(rows: seq<Key>, p: nat, n: nat, items: seq<Key>)
    requires Walked(rows, p, n, items) && PageAt(rows, p, n).next.None?
    ensures items == Kept(rows, n)
  {
  }

  lemma PageThenRemaining(rows: seq<Key>, p: nat, n: nat)
    requires p <= |rows| && n > 0
    ensures Kept(rows[p..], n) == PageAt(rows, p, n).items + Remaining(rows, p, n)
  {
    if |rows| - p > n {
      assert rows[p..][..n] == rows[p..p + n] && rows[p..][n + 1..] == rows[p + n + 1..];
    }
  }

  /** A page has at most the limit of rows; a cursor is the row after them, and is there exactly if there is one. */
  lemma PageMeans(rows: seq<Key>, p: nat, n: nat)
    requires p <= |rows|
    ensures var page := PageAt(rows, p, n);
            && page.items == (if p + n < |rows| then rows[p..p + n] else rows[p..])
            && page.next == (if p + n < |rows| then Some(rows[p + n]) else None)
  {
  }

  /** The request for the page after the one at `p`. */
  method NextPage(rows: seq<Key>, ghost p: nat, cursor: Key, limit: int) returns (page: Page)
    requires Descending(rows) && p + EffectiveLimit(limit) < |rows| && cursor == rows[p + EffectiveLimit(limit)]
    ensures page == PageAt(rows, p + EffectiveLimit(limit) + 1, EffectiveLimit(limit))
  {
    StartAfterRow(rows, p + EffectiveLimit(limit));
    page := List(rows, Some(cursor), limit);
  }

  /** Following the cursors from the first page to the last. */
  method FollowCursors(rows: seq<Key>, limit: int) returns (items: seq<Key>)
    requires Descending(rows)
    ensures items == Kept(rows, EffectiveLimit(limit))
  {
    ghost var n, p := EffectiveLimit(limit), 0;
    var page := List(rows, None, limit);
    items := page.items;
    WalkStarts(rows, n);
    while page.next.Some?
      invariant Walked(rows, p, n, items) && page == PageAt(rows, p, n)
      decreases |rows| - p
    {
      WalkGoesOn(rows, p, n, items);
      page := NextPage(rows, p, page.next.value, limit);
      p := p + n + 1;
      items := items + page.items;
    }
    WalkEnds(rows, p, n, items);
  }

  /** A walk: strictly descending rows, exactly those whose index i has i mod (limit + 1) != limit. */
  method Walk(rows: seq<Key>, limit: int) returns (items: seq<Key>)
    requires Descending(rows)
    ensures items == Kept(rows, EffectiveLimit(limit))
    ensures Descending(items) && forall k :: k in items ==> k in rows
    ensures forall i :: 0 <= i < |rows| ==>
              (rows[i] in items <==> i % (EffectiveLimit(limit) + 1) != EffectiveLimit(limit))
  {
    items := FollowCursors(rows, limit);
    WalkSummary(rows, EffectiveLimit(limit));
  }

  lemma WalkSummary(rows: seq<Key>, n: nat)
    requires n > 0 && Descending(rows)
    ensures Descending(Kept(rows, n)) && forall k :: k in Kept(rows, n) ==> k in rows
    ensures forall i :: 0 <= i < |rows| ==> (rows[i] in Kept(rows, n) <==> i % (n + 1) != n)
  {
    KeptDescends(rows, n);
    forall k | k in Kept(rows, n) ensures k in rows { KeptIsPart(rows, n, k); }
    forall i | 0 <= i < |rows| ensures rows[i] in Kept(rows, n) <==> i % (n + 1) != n {
      WalkReturnsExactly(rows, n, i);
    }
  }

  lemma {:induction false} KeptIsPart(rows: seq<Key>, limit: nat, k: Key)
    requires limit > 0 && k in Kept(rows, limit)
    ensures k in rows
    decreases |rows|
  {
    if |rows| > limit && k !in rows[..limit] { KeptIsPart(rows[limit + 1..], limit, k); }
  }

  lemma {:induction false} KeptDescends(rows: seq<Key>, limit: nat)
    requires limit > 0 && Descending(rows)
    ensures Descending(Kept(rows, limit))
    decreases |rows|
  {
    if |rows| > limit {
      var first, rest := rows[..limit], rows[limit + 1..];
      KeptDescends(rest, limit);
      forall i, j | 0 <= i < limit && 0 <= j < |Kept(rest, limit)| ensures Below(Kept(rest, limit)[j], first[i]) {
        KeptIsPart(rest, limit, Kept(rest, limit)[j]);
      }
    }
  }

  /** A row is dropped on its page, or kept there, or decided by the pages that follow. */
  lemma KeptByPage(rows: seq<Key>, limit: nat, i: nat)
    requires limit > 0 && Descending(rows) && i < |rows|
    ensures i < limit ==> rows[i] in Kept(rows, limit)
    ensures i == limit ==> rows[i] !in Kept(rows, limit)
    ensures i > limit ==> (rows[i] in Kept(rows, limit) <==> rows[i] in Kept(rows[limit + 1..], limit))
  {
    if i < limit {
      assert |rows| > limit ==> rows[i] in rows[..limit];
    } else {
      assert rows[i] !in rows[..limit];
      var rest := rows[limit + 1..];
      if i == limit && rows[i] in Kept(rest, limit) { KeptIsPart(rest, limit, rows[i]); }
    }
  }

  /** i mod m by repeated subtraction. */
  function Mod(i: nat, m: nat): nat
    requires m > 0
  {
    if i < m then i else Mod(i - m, m)
  }

  lemma {:induction false} ModIsRemainder(i: nat, m: nat, q: nat, r: nat)
    requires m > 0 && r < m && i == m * q + r
    ensures Mod(i, m) == r
    decreases q
  {
    if q > 0 {
      assert m * q == m * (q - 1) + m;
      assert m * (q - 1) >= 0;
      ModIsRemainder(i - m, m, q - 1, r);
    }
  }

  lemma ModIs(i: nat, m: nat)
    requires m > 0
    ensures Mod(i, m) == i % m
  {
    var q, r := i / m, i % m;
    ModIsRemainder(i, m, q, r);
  }

  lemma {:induction false} KeptByMod(rows: seq<Key>, limit: nat, i: nat)
    requires limit > 0 && Descending(rows) && i < |rows|
    ensures rows[i] in Kept(rows, limit) <==> Mod(i, limit + 1) != limit
    decreases |rows|
  {
    KeptByPage(rows, limit, i);
    if i > limit {
      var rest, k := rows[limit + 1..], i - (limit + 1);
      assert rest[k] == rows[i];
      KeptByMod(rest, limit, k);
    }
  }

  /** A walk returns exactly the rows whose index i has i mod (limit + 1) != limit. */
  lemma WalkReturnsExactly(rows: seq<Key>, limit: nat, i: nat)
    requires limit > 0 && Descending(rows) && i < |rows|
    ensures rows[i] in Kept(rows, limit) <==> i % (limit + 1) != limit
  {
    KeptByMod(rows, limit, i);
    ModIs(i, limit + 1);
  }

  /** So a walk returns every row exactly when the table fits on one page. */
  lemma WalkIsComplete(rows: seq<Key>, limit: nat)
    requires limit > 0 && Descending(rows)
    ensures Kept(rows, limit) == rows <==> |rows| <= limit
  {
    if |rows| > limit { WalkReturnsExactly(rows, limit, limit); }
  }
}
