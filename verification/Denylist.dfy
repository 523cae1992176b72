// The denylist: a table with a Bloom filter in front of it (src/denylist/postgres.rs).

module Denylist {
  import Arith
  import opened Options

  // ---------------------------------------------------------------- the order of the rows

  predicate Below(a: string, b: string) {
    if b == [] then false
    else if a == [] then true
    else a[0] < b[0] || (a[0] == b[0] && Below(a[1..], b[1..]))
  }

  lemma {:induction false} BelowIsTransitive(a: string, b: string, c: string)
    requires Below(a, b) && Below(b, c)
    ensures Below(a, c)
  {
    if a != [] && a[0] == b[0] && b[0] == c[0] {
      BelowIsTransitive(a[1..], b[1..], c[1..]);
    }
  }

  lemma {:induction false} BelowIsTotal(a: string, b: string)
    ensures !(Below(a, b) && Below(b, a))
    ensures Below(a, b) || Below(b, a) || a == b
    ensures !Below(a, a)
  {
    if a != [] && b != [] && a[0] == b[0] {
      BelowIsTotal(a[1..], b[1..]);
      assert a == [a[0]] + a[1..] && b == [b[0]] + b[1..];
    }
    if a != [] {
      BelowIsTotal(a[1..], a[1..]);
    }
  }

  // The table, in the order of its primary key.
  predicate Sorted(rows: seq<string>) {
    forall i, j :: 0 <= i < j < |rows| ==> Below(rows[i], rows[j])
  }

  // ---------------------------------------------------------------- one page

  const PAGE_SIZE: nat := 1000

  datatype Page = Page(items: seq<string>, next: Option<string>)

  // The rows after the cursor.
  function After(rows: seq<string>, cursor: Option<string>): seq<string> {
    if rows == [] || cursor.None? || Below(cursor.value, rows[0]) then rows else After(rows[1..], cursor)
  }

  // One row more than the limit is fetched; if it is there, it becomes the cursor of the next page.
  function List(rows: seq<string>, cursor: Option<string>, limit: nat): Page {
    var size := if limit < PAGE_SIZE then limit else PAGE_SIZE;
    var rest := After(rows, cursor);
    if |rest| > size then Page(rest[..size], Some(rest[size])) else Page(rest, None)
  }

  lemma {:induction false} AfterIsBeyond(rows: seq<string>, cursor: Option<string>)
    requires Sorted(rows)
    ensures Sorted(After(rows, cursor))
    ensures forall x :: x in After(rows, cursor) <==> x in rows && (cursor.Some? ==> Below(cursor.value, x))
  {
    if rows != [] && cursor.Some? {
      BelowIsTotal(cursor.value, rows[0]);
      if Below(cursor.value, rows[0]) {
        forall x | x in rows
          ensures Below(cursor.value, x)
        {
          var i :| 0 <= i < |rows| && rows[i] == x;
          if i > 0 {
            BelowIsTransitive(cursor.value, rows[0], rows[i]);
          }
        }
      } else {
        assert rows == [rows[0]] + rows[1..];
        AfterIsBeyond(rows[1..], cursor);
      }
    }
  }

  // Continuing after row k - 1 gives the rows from k on.
  lemma {:induction false} AfterRow(rows: seq<string>, k: nat)
    requires Sorted(rows) && 0 < k <= |rows|
    ensures After(rows, Some(rows[k - 1])) == rows[k..]
  {
    var cursor := rows[k - 1];
    BelowIsTotal(cursor, rows[0]);
    if k == 1 {
      if |rows| > 1 {
        assert Below(rows[0], rows[1]);
      }
    } else {
      assert Below(rows[0], cursor);
      AfterRow(rows[1..], k - 1);
      assert rows[1..][k - 1..] == rows[k..];
    }
  }

  predicate Follows(x: string, cursor: Option<string>) {
    cursor.None? || Below(cursor.value, x)
  }

  // A page holds the first rows after the cursor, no more than the limit and never more than 1000; if rows are
  // left, the first of them is the next cursor.
  lemma PageMeans(rows: seq<string>, cursor: Option<string>, limit: nat)
    requires Sorted(rows)
    ensures var page := List(rows, cursor, limit);
      && |page.items| <= limit && |page.items| <= 1000
      && (forall x :: x in page.items ==> x in rows && Follows(x, cursor))
      && (page.next.None? ==> forall x :: x in rows && Follows(x, cursor) ==> x in page.items)
      && (page.next.Some? ==>
            && page.next.value in rows && Follows(page.next.value, cursor)
            && (|page.items| == limit || |page.items| == 1000)
            && forall x :: x in rows && Follows(x, cursor) && x !in page.items ==>
                 x == page.next.value || Below(page.next.value, x))
  {
    var rest := After(rows, cursor);
    AfterIsBeyond(rows, cursor);
    var size := if limit < PAGE_SIZE then limit else PAGE_SIZE;
    if |rest| > size {
      forall x | x in rest && x !in rest[..size]
        ensures x == rest[size] || Below(rest[size], x)
      {
        assert rest == rest[..size] + rest[size..];
        var i :| 0 <= i < |rest[size..]| && rest[size..][i] == x;
        assert rest[size + i] == x;
      }
    }
  }

  // list(): rows are taken until the extra one shows up.
  method ListPage(rows: seq<string>, cursor: Option<string>, limit: nat) returns (page: Page)
    ensures page == List(rows, cursor, limit)
  {
    var size := if limit < PAGE_SIZE then limit else PAGE_SIZE;
    var rest := After(rows, cursor);
    var fetched := if |rest| <= size + 1 then rest else rest[..size + 1];
    var items: seq<string> := [];
    var next: Option<string> := None;
    var i := 0;
    while i < |fetched|
      invariant i <= |fetched| && i <= size && next == None && items == fetched[..i]
    {
      if i >= size {
        next := Some(fetched[i]);
        break;
      }
      items := items + [fetched[i]];
      i := i + 1;
    }
    page := Page(items, next);
  }

  // ---------------------------------------------------------------- the filter

  // A Bloom filter: the bits set so far, and the bits an item sets, which depend on the filter's seed.
  datatype Bloom = Bloom(bits: set<nat>, positions: string -> set<nat>)

  function Add(b: Bloom, x: string): Bloom {
    b.(bits := b.bits + b.positions(x))
  }

  predicate Contains(b: Bloom, x: string) {
    b.positions(x) <= b.bits
  }

  function AddAll(b: Bloom, xs: seq<string>): Bloom {
    if xs == [] then b else Add(AddAll(b, xs[..|xs| - 1]), xs[|xs| - 1])
  }

  lemma {:induction false} AddAllContains(b: Bloom, xs: seq<string>)
    ensures AddAll(b, xs).positions == b.positions && b.bits <= AddAll(b, xs).bits
    ensures forall x :: x in xs || Contains(b, x) ==> Contains(AddAll(b, xs), x)
    ensures forall p :: p in AddAll(b, xs).bits ==> p in b.bits || exists x :: x in xs && p in b.positions(x)
  {
    if xs != [] {
      AddAllContains(b, xs[..|xs| - 1]);
      assert xs == xs[..|xs| - 1] + [xs[|xs| - 1]];
    }
  }

  lemma {:induction false} AddAllAppends(b: Bloom, xs: seq<string>, ys: seq<string>)
    ensures AddAll(b, xs + ys) == AddAll(AddAll(b, xs), ys)
  {
    if ys == [] {
      assert xs + ys == xs;
    } else {
      AddAllAppends(b, xs, ys[..|ys| - 1]);
      assert (xs + ys)[..|xs + ys| - 1] == xs + ys[..|ys| - 1];
    }
  }

  // ---------------------------------------------------------------- the walk of init

  const STRIDE: nat := 1001

  // What init loads: pages of 1000 rows, with the row between two pages left out.
  function Loaded(rows: seq<string>): seq<string> {
    if |rows| <= PAGE_SIZE then rows else rows[..PAGE_SIZE] + Loaded(rows[STRIDE..])
  }

  predicate LoadedAt(rows: seq<string>, i: nat) {
    i < |rows| && i % STRIDE != PAGE_SIZE
  }

  // The loaded rows, in order, are exactly those whose index is not 1000 modulo 1001: row i stands at
  // place i less the number of rows left out before it, and no other place is filled.
  lemma {:induction false} LoadedByIndex(rows: seq<string>, i: nat)
    ensures LoadedAt(rows, i) ==> i - i / STRIDE < |Loaded(rows)| && Loaded(rows)[i - i / STRIDE] == rows[i]
    ensures |Loaded(rows)| == |rows| - |rows| / STRIDE
    decreases |rows|
  {
    LoadedLength(rows);
    if |rows| > PAGE_SIZE {
      var rest := rows[STRIDE..];
      LoadedByIndex(rest, if i >= STRIDE then i - STRIDE else 0);
      if LoadedAt(rows, i) && i >= STRIDE {
        OneStrideOn(i - STRIDE);
        assert rest[i - STRIDE] == rows[i];
      }
    }
  }

  lemma {:induction false} LoadedLength(rows: seq<string>)
    ensures |Loaded(rows)| == |rows| - |rows| / STRIDE
    decreases |rows|
  {
    if |rows| > PAGE_SIZE {
      LoadedLength(rows[STRIDE..]);
      OneStrideOn(|rows| - STRIDE);
    }
  }

  lemma OneStrideOn(i: nat)
    ensures (i + STRIDE) / STRIDE == i / STRIDE + 1 && (i + STRIDE) % STRIDE == i % STRIDE
  {
    Arith.AddMultiple(i, 1, STRIDE);
  }

  lemma {:induction false} LoadedHasIndex(rows: seq<string>, x: string) returns (i: nat)
    requires x in Loaded(rows)
    ensures LoadedAt(rows, i) && rows[i] == x
    decreases |rows|
  {
    if |rows| <= PAGE_SIZE {
      i :| 0 <= i < |rows| && rows[i] == x;
    } else if x in rows[..PAGE_SIZE] {
      i :| 0 <= i < PAGE_SIZE && rows[i] == x;
    } else {
      var j := LoadedHasIndex(rows[STRIDE..], x);
      Arith.AddMultiple(j, 1, STRIDE);
      i := j + STRIDE;
    }
  }

  function OnlyFor(x: string): string -> set<nat> {
    (y: string) => if y == x then {1} else {0}
  }

  lemma OthersLeaveItOut(xs: seq<string>, x: string)
    requires x !in xs
    ensures !Contains(AddAll(Bloom({}, OnlyFor(x)), xs), x)
  {
    AddAllContains(Bloom({}, OnlyFor(x)), xs);
    assert OnlyFor(x)(x) == {1};
    assert forall y :: y in xs ==> OnlyFor(x)(y) == {0};
  }

  lemma RowsAreDistinct(rows: seq<string>, i: nat, j: nat)
    requires Sorted(rows) && i < |rows| && j < |rows| && i != j
    ensures rows[i] != rows[j]
  {
    BelowIsTotal(rows[i], rows[i]);
    if i < j {
      assert Below(rows[i], rows[j]);
    } else {
      assert Below(rows[j], rows[i]);
    }
  }

  lemma IndexIsNotBetween(rows: seq<string>, i: nat)
    requires Sorted(rows) && |rows| > PAGE_SIZE && LoadedAt(rows, i)
    ensures rows[i] != rows[PAGE_SIZE]
  {
    RowsAreDistinct(rows, i, PAGE_SIZE);
  }

  lemma LoadedIsNotBetween(rows: seq<string>, x: string)
    requires Sorted(rows) && |rows| > PAGE_SIZE && x in Loaded(rows)
    ensures x != rows[PAGE_SIZE]
  {
    var i := LoadedHasIndex(rows, x);
    IndexIsNotBetween(rows, i);
  }

  // A filter can exist that tells the row between the first two pages apart from all that was loaded.
  lemma RowBetweenPagesIsMissed(rows: seq<string>)
    requires Sorted(rows) && |rows| > PAGE_SIZE
    ensures !LoadsAll(rows, OnlyFor(rows[PAGE_SIZE]))
  {
    var missed, loaded := rows[PAGE_SIZE], Loaded(rows);
    forall x | x in loaded
      ensures x != missed
    {
      LoadedIsNotBetween(rows, x);
    }
    OthersLeaveItOut(loaded, missed);
    assert missed in rows;
  }

  ghost predicate LoadsAll(rows: seq<string>, positions: string -> set<nat>) {
    forall x :: x in rows ==> Contains(AddAll(Bloom({}, positions), Loaded(rows)), x)
  }

  // Every row is loaded, with every seed, exactly when the table has at most one page.
  lemma InitIsCompleteIff(rows: seq<string>)
    requires Sorted(rows)
    ensures (forall positions: string -> set<nat> :: LoadsAll(rows, positions)) <==> |rows| <= PAGE_SIZE
  {
    if |rows| <= PAGE_SIZE {
      forall positions: string -> set<nat>
        ensures LoadsAll(rows, positions)
      {
        AddAllContains(Bloom({}, positions), Loaded(rows));
      }
    } else {
      RowBetweenPagesIsMissed(rows);
    }
  }

  // ---------------------------------------------------------------- the storage

  datatype Contents = Contents(rows: seq<string>, bloom: Bloom)

  function Place(rows: seq<string>, x: string): seq<string> {
    if rows == [] then [x]
    else if rows[0] == x then rows
    else if Below(x, rows[0]) then [x] + rows
    else [rows[0]] + Place(rows[1..], x)
  }

  function Without(rows: seq<string>, x: string): seq<string> {
    if rows == [] then []
    else if rows[0] == x then rows[1..]
    else [rows[0]] + Without(rows[1..], x)
  }

  lemma {:induction false} PlaceKeepsOrder(rows: seq<string>, x: string)
    requires Sorted(rows)
    ensures Sorted(Place(rows, x))
    ensures forall y :: y in Place(rows, x) <==> y in rows || y == x
  {
    if rows != [] {
      BelowIsTotal(x, rows[0]);
      assert rows == [rows[0]] + rows[1..];
      if Below(x, rows[0]) {
        forall j | 0 <= j < |rows|
          ensures Below(x, rows[j])
        {
          if j > 0 {
            BelowIsTransitive(x, rows[0], rows[j]);
          }
        }
      } else if rows[0] != x {
        PlaceKeepsOrder(rows[1..], x);
        var rest := Place(rows[1..], x);
        forall j | 0 <= j < |rest|
          ensures Below(rows[0], rest[j])
        {
          assert rest[j] in rest;
        }
      }
    }
  }

  lemma {:induction false} WithoutKeepsOrder(rows: seq<string>, x: string)
    requires Sorted(rows)
    ensures Sorted(Without(rows, x))
    ensures forall y :: y in Without(rows, x) <==> y in rows && y != x
  {
    if rows != [] {
      assert rows == [rows[0]] + rows[1..];
      if rows[0] == x {
        BelowIsTotal(x, x);
      } else {
        WithoutKeepsOrder(rows[1..], x);
        var rest := Without(rows[1..], x);
        forall j | 0 <= j < |rest|
          ensures Below(rows[0], rest[j])
        {
          assert rest[j] in rest;
        }
      }
    }
  }

  // The next page starts at row k.
  predicate AtCursor(rows: seq<string>, cursor: Option<string>, k: nat) {
    k <= |rows| && (if k == 0 then cursor == None else cursor == Some(rows[k - 1]))
  }

  lemma PageAtCursor(rows: seq<string>, cursor: Option<string>, k: nat)
    requires Sorted(rows) && AtCursor(rows, cursor, k)
    ensures var page := List(rows, cursor, PAGE_SIZE);
      && Loaded(rows[k..])
         == page.items + (if page.next.Some? && k + STRIDE <= |rows| then Loaded(rows[k + STRIDE..]) else [])
      && (page.items == [] ==> page.next.None?)
      && (page.next.Some? ==> AtCursor(rows, page.next, k + STRIDE))
  {
    if k > 0 {
      AfterRow(rows, k);
    }
    assert After(rows, cursor) == rows[k..];
    if |rows| - k > PAGE_SIZE {
      assert rows[k..][STRIDE..] == rows[k + STRIDE..];
    }
  }

  lemma PagesOf(rows: seq<string>, p: nat)
    requires RowsBefore(p) <= |rows|
    ensures p <= |rows| / STRIDE
  {
  }

  // Page p is the last when it has no next one.
  lemma LastPage(rows: seq<string>, cursor: Option<string>, p: nat)
    requires Sorted(rows) && AtCursor(rows, cursor, RowsBefore(p))
    ensures List(rows, cursor, PAGE_SIZE).next.None? ==> |rows| / STRIDE == p
  {
    if p > 0 {
      AfterRow(rows, RowsBefore(p));
    }
    if List(rows, cursor, PAGE_SIZE).next.None? {
      Arith.Unique(|rows|, p, |rows| - RowsBefore(p), STRIDE);
    }
  }

  // No page up to p fails.
  predicate Readable(failing: set<nat>, p: nat) {
    forall j :: 0 <= j <= p ==> j !in failing
  }

  // The number of rows before page p, each page with its cursor.
  function RowsBefore(p: nat): nat {
    STRIDE * p
  }

  // The walk stands before page p, and the filter holds what was loaded up to there.
  ghost predicate Walking(rows: seq<string>, cursor: Option<string>, p: nat, loaded: seq<string>, bloom: Bloom,
                          positions: string -> set<nat>, failing: set<nat>) {
    && RowsBefore(p) <= |rows| && AtCursor(rows, cursor, RowsBefore(p)) && (forall j :: 0 <= j < p ==> j !in failing)
    && bloom == AddAll(Bloom({}, positions), loaded) && loaded + Loaded(rows[RowsBefore(p)..]) == Loaded(rows)
  }

  ghost predicate Walked(rows: seq<string>, bloom: Bloom, positions: string -> set<nat>, failing: set<nat>) {
    bloom == AddAll(Bloom({}, positions), Loaded(rows)) && Readable(failing, |rows| / STRIDE)
  }

  lemma NextPage(rows: seq<string>, cursor: Option<string>, p: nat, loaded: seq<string>, bloom: Bloom,
                 positions: string -> set<nat>, failing: set<nat>, page: Page)
    requires Sorted(rows) && Walking(rows, cursor, p, loaded, bloom, positions, failing) && p !in failing
    requires page == List(rows, cursor, PAGE_SIZE) && page.next.Some?
    ensures page.items != []
    ensures Walking(rows, page.next, p + 1, loaded + page.items, AddAll(bloom, page.items), positions, failing)
  {
    PageAdvances(rows, cursor, RowsBefore(p), loaded, page);
    assert RowsBefore(p + 1) == RowsBefore(p) + STRIDE;
    AddAllAppends(Bloom({}, positions), loaded, page.items);
  }

  lemma NoNextPage(rows: seq<string>, cursor: Option<string>, p: nat, loaded: seq<string>, bloom: Bloom,
                   positions: string -> set<nat>, failing: set<nat>, page: Page)
    requires Sorted(rows) && Walking(rows, cursor, p, loaded, bloom, positions, failing) && p !in failing
    requires page == List(rows, cursor, PAGE_SIZE) && page.next.None?
    ensures Walked(rows, AddAll(bloom, page.items), positions, failing)
  {
    PageAdvances(rows, cursor, RowsBefore(p), loaded, page);
    LastIsReadable(rows, cursor, p, failing);
    AddAllAppends(Bloom({}, positions), loaded, page.items);
  }

  lemma LastIsReadable(rows: seq<string>, cursor: Option<string>, p: nat, failing: set<nat>)
    requires Sorted(rows) && AtCursor(rows, cursor, RowsBefore(p)) && List(rows, cursor, PAGE_SIZE).next.None?
    requires forall j :: 0 <= j <= p ==> j !in failing
    ensures Readable(failing, |rows| / STRIDE)
  {
    LastPage(rows, cursor, p);
  }

  lemma PageAdvances(rows: seq<string>, cursor: Option<string>, k: nat, loaded: seq<string>, page: Page)
    requires Sorted(rows) && AtCursor(rows, cursor, k) && loaded + Loaded(rows[k..]) == Loaded(rows)
    requires page == List(rows, cursor, PAGE_SIZE)
    ensures page.next.Some? ==>
      && page.items != [] && k + STRIDE <= |rows| && AtCursor(rows, page.next, k + STRIDE)
      && loaded + page.items + Loaded(rows[k + STRIDE..]) == Loaded(rows)
    ensures page.next.None? ==> loaded + page.items == Loaded(rows)
  {
    PageAtCursor(rows, cursor, k);
    Associate(loaded, page.items, if page.next.Some? && k + STRIDE <= |rows| then Loaded(rows[k + STRIDE..]) else []);
  }

  lemma FailedAt(rows: seq<string>, cursor: Option<string>, p: nat, loaded: seq<string>, bloom: Bloom,
                 positions: string -> set<nat>, failing: set<nat>)
    requires Walking(rows, cursor, p, loaded, bloom, positions, failing) && p in failing
    ensures !Readable(failing, |rows| / STRIDE)
    ensures loaded <= Loaded(rows) && bloom == AddAll(Bloom({}, positions), loaded)
  {
    PagesOf(rows, p);
  }

  lemma Associate(a: seq<string>, b: seq<string>, c: seq<string>)
    ensures a + b + c == a + (b + c)
    ensures c == [] ==> a + b == a + (b + c)
  {
  }

  /** PostgresDenyListStorage: the table and the filter in memory. */
  class DenyListStorage {
    var rows: seq<string>
    var bloom: Bloom

    ghost predicate Valid()
      reads this
    {
      Sorted(rows)
    }

    // Every row is in the filter.
    ghost predicate Covered()
      reads this
    {
      forall x :: x in rows ==> Contains(bloom, x)
    }

    constructor (rows: seq<string>, positions: string -> set<nat>)
      requires Sorted(rows)
      ensures Valid() && this.rows == rows && bloom == Bloom({}, positions)
    {
      this.rows, bloom := rows, Bloom({}, positions);
    }

    // positions belongs to the seed of the new filter; failing holds the numbers of the pages that cannot be
    // read. A failure leaves the filter with what was loaded before it.
    method Init(positions: string -> set<nat>, failing: set<nat>) returns (ok: bool)
      requires Valid()
      modifies this`bloom
      ensures ok <==> Readable(failing, |rows| / STRIDE)
      ensures ok ==> bloom == AddAll(Bloom({}, positions), Loaded(rows)) && (|rows| <= PAGE_SIZE ==> Covered())
      ensures !ok ==> exists loaded :: loaded <= Loaded(rows) && bloom == AddAll(Bloom({}, positions), loaded)
    {
      bloom := Bloom({}, positions);
      var cursor: Option<string> := None;
      var p := 0;
      ghost var loaded: seq<string> := [];
      var more := true;
      while more
        invariant if more then Walking(rows, cursor, p, loaded, bloom, positions, failing)
                  else Walked(rows, bloom, positions, failing)
        decreases more, |rows| - RowsBefore(p)
      {
        if p in failing {
          FailedAt(rows, cursor, p, loaded, bloom, positions, failing);
          return false;
        }
        var page := ListPage(rows, cursor, PAGE_SIZE);
        if page.next.Some? {
          NextPage(rows, cursor, p, loaded, bloom, positions, failing, page);
        } else {
          NoNextPage(rows, cursor, p, loaded, bloom, positions, failing, page);
        }
        AddPage(page.items);
        more := page.items != [] && page.next.Some?;
        if more {
          loaded := loaded + page.items;
          p := p + 1;
          cursor := page.next;
        }
      }
      ok := true;
      AddAllContains(Bloom({}, positions), Loaded(rows));
    }

    method AddPage(items: seq<string>)
      modifies this`bloom
      ensures bloom == AddAll(old(bloom), items)
    {
      for i := 0 to |items|
        invariant bloom == AddAll(old(bloom), items[..i])
      {
        assert items[..i + 1][..i] == items[..i];
        bloom := Add(bloom, items[i]);
      }
      assert items[..|items|] == items;
    }

    method Exists(member: string) returns (found: bool)
      ensures found == Found(Contents(rows, bloom), member)
      ensures Covered() ==> (found <==> member in rows)
      ensures (exists p :: p in bloom.positions(member) && p !in bloom.bits) ==> !found
    {
      if !Contains(bloom, member) {
        return false;
      }
      found := member in rows;
    }

    method Insert(item: string)
      requires Valid()
      modifies this
      ensures Valid() && Contents(rows, bloom) == Apply(old(Contents(rows, bloom)), Put(item))
      ensures old(Covered()) ==> Covered()
    {
      PlaceKeepsOrder(rows, item);
      rows := Place(rows, item);
      bloom := Add(bloom, item);
    }

    method Delete(item: string) returns (deleted: bool)
      requires Valid()
      modifies this`rows
      ensures Valid() && Contents(rows, bloom) == Apply(old(Contents(rows, bloom)), Drop(item))
      ensures deleted == (item in old(rows)) && (old(Covered()) ==> Covered())
    {
      WithoutKeepsOrder(rows, item);
      deleted := item in rows;
      rows := Without(rows, item);
      // The filter keeps the item.
    }
  }

  function Found(c: Contents, member: string): bool {
    Contains(c.bloom, member) && member in c.rows
  }

  datatype Change = Put(item: string) | Drop(item: string)

  function Apply(c: Contents, change: Change): Contents {
    match change
    case Put(x) => Contents(Place(c.rows, x), Add(c.bloom, x))
    case Drop(x) => c.(rows := Without(c.rows, x))
  }

  function ApplyAll(c: Contents, changes: seq<Change>): Contents {
    if changes == [] then c else Apply(ApplyAll(c, changes[..|changes| - 1]), changes[|changes| - 1])
  }

  function AsSet(rows: seq<string>): set<string> {
    set x | x in rows
  }

  // What the denylist is meant to be: a set.
  function Members(start: set<string>, changes: seq<Change>): set<string> {
    if changes == [] then start
    else
      var before := Members(start, changes[..|changes| - 1]);
      match changes[|changes| - 1]
      case Put(x) => before + {x}
      case Drop(x) => before - {x}
  }

  lemma {:induction false} ChangesKeepCover(c: Contents, changes: seq<Change>)
    requires Sorted(c.rows) && forall x :: x in c.rows ==> Contains(c.bloom, x)
    ensures var d := ApplyAll(c, changes);
      && Sorted(d.rows) && (forall x :: x in d.rows ==> Contains(d.bloom, x))
      && (forall x :: x in d.rows <==> x in Members(AsSet(c.rows), changes))
  {
    if changes != [] {
      var last := changes[|changes| - 1];
      ChangesKeepCover(c, changes[..|changes| - 1]);
      var before := ApplyAll(c, changes[..|changes| - 1]);
      PlaceKeepsOrder(before.rows, last.item);
      WithoutKeepsOrder(before.rows, last.item);
    }
  }

  // From a table of at most one page at init, through any inserts and deletes, asking the storage is
  // asking the set.
  lemma ExistsIsMembership(rows: seq<string>, positions: string -> set<nat>, changes: seq<Change>, member: string)
    requires Sorted(rows) && |rows| <= PAGE_SIZE
    ensures Found(ApplyAll(Contents(rows, AddAll(Bloom({}, positions), Loaded(rows))), changes), member)
       <==> member in Members(AsSet(rows), changes)
  {
    AddAllContains(Bloom({}, positions), Loaded(rows));
    ChangesKeepCover(Contents(rows, AddAll(Bloom({}, positions), Loaded(rows))), changes);
  }

  // Beyond one page, a filter can exist with which the row between the first two pages is not found, although
  // it is in the table.
  lemma MissedRowIsNotFound(rows: seq<string>)
    requires Sorted(rows) && |rows| > PAGE_SIZE
    ensures var missed := rows[PAGE_SIZE];
      missed in rows && !Found(Contents(rows, AddAll(Bloom({}, OnlyFor(missed)), Loaded(rows))), missed)
  {
    var missed, loaded := rows[PAGE_SIZE], Loaded(rows);
    forall x | x in loaded
      ensures x != missed
    {
      LoadedIsNotBetween(rows, x);
    }
    OthersLeaveItOut(loaded, missed);
  }

  // ---------------------------------------------------------------- init among concurrent inserts

  // init has not begun, is about to read the page after a cursor, holds a page it has read, or is done.
  datatype Walk = NotStarted | Reading(cursor: Option<string>) | Holding(page: Page) | Finished

  // pending holds the rows whose insert has written the table but not yet the filter; skipped collects
  // the cursors the latest init has used. The filter is abstracted to the items put into it. A finished
  // init may be followed by another, which clears the filter.
  datatype Shared = Shared(
    rows: seq<string>, filter: set<string>, pending: multiset<string>, walk: Walk, skipped: set<string>)

  datatype Move = WriteRow(x: string) | WriteFilter(x: string) | DeleteRow(x: string) | StartInit | ReadPage | LoadPage

  function Advance(s: Shared, m: Move): Option<Shared> {
    match m
    case WriteRow(x) => Some(s.(rows := Place(s.rows, x), pending := s.pending + multiset{x}))
    case WriteFilter(x) =>
      if x !in s.pending then None else Some(s.(filter := s.filter + {x}, pending := s.pending - multiset{x}))
    case DeleteRow(x) => Some(s.(rows := Without(s.rows, x)))
    case StartInit =>
      if s.walk.Reading? || s.walk.Holding? then None
      else Some(s.(filter := {}, walk := Reading(None), skipped := {}))
    case ReadPage =>
      if !s.walk.Reading? then None
      else
        var page := List(s.rows, s.walk.cursor, PAGE_SIZE);
        if page.items == [] then Some(s.(walk := Finished))
        else Some(s.(walk := Holding(page),
                     skipped := s.skipped + (if page.next.Some? then {page.next.value} else {})))
    case LoadPage =>
      if !s.walk.Holding? then None
      else Some(s.(filter := s.filter + AsSet(s.walk.page.items),
                   walk := if s.walk.page.next.Some? then Reading(s.walk.page.next) else Finished))
  }

  // init has x in hand or still ahead of it.
  predicate WillLoad(walk: Walk, x: string) {
    match walk
    case NotStarted => true
    case Reading(cursor) => cursor.Some? ==> Below(cursor.value, x)
    case Holding(page) => x in page.items || (page.next.Some? && Below(page.next.value, x))
    case Finished => false
  }

  predicate Accounted(s: Shared, x: string) {
    x in s.filter || x in s.pending || WillLoad(s.walk, x) || x in s.skipped
  }

  ghost predicate SharedInv(s: Shared) {
    Sorted(s.rows) && forall x :: x in s.rows ==> Accounted(s, x)
  }

  lemma ReadAccounts(s: Shared, x: string)
    requires Sorted(s.rows) && s.walk.Reading? && x in s.rows && Accounted(s, x)
    ensures Accounted(Advance(s, ReadPage).value, x)
  {
    var rest := After(s.rows, s.walk.cursor);
    AfterIsBeyond(s.rows, s.walk.cursor);
    if WillLoad(s.walk, x) {
      var i :| 0 <= i < |rest| && rest[i] == x;
      if |rest| > PAGE_SIZE && i < PAGE_SIZE {
        assert rest[..PAGE_SIZE][i] == x;
      }
    }
  }

  lemma AdvanceKeepsInv(s: Shared, m: Move, s': Shared)
    requires SharedInv(s) && Advance(s, m) == Some(s')
    ensures SharedInv(s')
  {
    match m
    case WriteRow(x) => PlaceKeepsOrder(s.rows, x);
    case DeleteRow(x) => WithoutKeepsOrder(s.rows, x);
    case ReadPage =>
      forall x | x in s'.rows
        ensures Accounted(s', x)
      {
        ReadAccounts(s, x);
      }
    case _ =>
  }

  ghost predicate IsRun(tr: seq<Shared>, moves: seq<Move>) {
    && |tr| == |moves| + 1
    && Sorted(tr[0].rows) && tr[0].walk == NotStarted && tr[0].skipped == {}
    && forall k :: 0 <= k < |moves| ==> Advance(tr[k], moves[k]) == Some(tr[k + 1])
  }

  lemma {:induction false} InvAlongRun(tr: seq<Shared>, moves: seq<Move>, n: nat)
    requires IsRun(tr, moves) && n < |tr|
    ensures SharedInv(tr[n])
  {
    if n > 0 {
      InvAlongRun(tr, moves, n - 1);
      AdvanceKeepsInv(tr[n - 1], moves[n - 1], tr[n]);
    }
  }

  // Once init is done, a row whose insert has completed is in the filter, unless init used it as a cursor.
  lemma RowsReachFilter(tr: seq<Shared>, moves: seq<Move>, n: nat, x: string)
    requires IsRun(tr, moves) && n < |tr| && tr[n].walk == Finished
    requires x in tr[n].rows && x !in tr[n].pending && x !in tr[n].skipped
    ensures x in tr[n].filter
  {
    InvAlongRun(tr, moves, n);
    assert Accounted(tr[n], x);
  }

  // Since move s, x has been in the table or in the hands of an inserter.
  ghost predicate SeenSince(tr: seq<Shared>, s: nat, n: nat, x: string)
    requires n < |tr|
  {
    exists k :: s <= k <= n && (x in tr[k].rows || x in tr[k].pending)
  }

  lemma SeenLater(tr: seq<Shared>, s: nat, n: nat, x: string)
    requires n + 1 < |tr| && SeenSince(tr, s, n, x)
    ensures SeenSince(tr, s, n + 1, x)
  {
  }

  // init starts with an empty filter: nothing is in it, or about to be, that is not of the time since it started.
  lemma {:induction false} FilterIsFromSince(tr: seq<Shared>, moves: seq<Move>, s: nat, n: nat, x: string)
    requires IsRun(tr, moves) && s < n < |tr| && moves[s] == StartInit
    requires forall k :: s < k < n ==> moves[k] != StartInit
    ensures x in tr[n].filter || (tr[n].walk.Holding? && x in tr[n].walk.page.items) ==> SeenSince(tr, s, n, x)
    decreases n
  {
    assert Advance(tr[n - 1], moves[n - 1]) == Some(tr[n]);
    if n > s + 1 {
      FilterIsFromSince(tr, moves, s, n - 1, x);
      if moves[n - 1].ReadPage? && tr[n].walk.Holding? && x in tr[n].walk.page.items {
        PageIsPart(tr[n - 1].rows, tr[n - 1].walk.cursor, x);
      }
      if SeenSince(tr, s, n - 1, x) {
        SeenLater(tr, s, n - 1, x);
      }
    }
  }

  lemma PageIsPart(rows: seq<string>, cursor: Option<string>, x: string)
    requires x in List(rows, cursor, PAGE_SIZE).items
    ensures x in rows
  {
    AfterIsPart(rows, cursor, x);
  }

  lemma {:induction false} AfterIsPart(rows: seq<string>, cursor: Option<string>, x: string)
    ensures x in After(rows, cursor) ==> x in rows
  {
    if rows != [] && After(rows, cursor) != rows {
      AfterIsPart(rows[1..], cursor, x);
    }
  }

  lemma {:induction false} AfterIsNoLonger(rows: seq<string>, cursor: Option<string>)
    ensures |After(rows, cursor)| <= |rows|
  {
    if rows != [] && cursor.Some? && !Below(cursor.value, rows[0]) {
      AfterIsNoLonger(rows[1..], cursor);
    }
  }

  lemma {:induction false} OnePageSkipsNothing(tr: seq<Shared>, moves: seq<Move>, n: nat)
    requires IsRun(tr, moves) && n < |tr|
    requires forall k :: 0 <= k < n ==> |tr[k].rows| <= PAGE_SIZE
    ensures tr[n].skipped == {}
  {
    if n > 0 {
      OnePageSkipsNothing(tr, moves, n - 1);
      assert Advance(tr[n - 1], moves[n - 1]) == Some(tr[n]);
      if moves[n - 1].ReadPage? {
        AfterIsNoLonger(tr[n - 1].rows, tr[n - 1].walk.cursor);
      }
    }
  }

  // In particular every row, while the table stays within one page, however inserts, deletes and init
  // interleave.
  lemma OnePageRowsReachFilter(tr: seq<Shared>, moves: seq<Move>, n: nat, x: string)
    requires IsRun(tr, moves) && n < |tr| && tr[n].walk == Finished
    requires forall k :: 0 <= k < n ==> |tr[k].rows| <= PAGE_SIZE
    requires x in tr[n].rows && x !in tr[n].pending
    ensures x in tr[n].filter
  {
    OnePageSkipsNothing(tr, moves, n);
    RowsReachFilter(tr, moves, n, x);
  }
}
