/** `NestedCursor` (akiban/api.py): a fully materialised, FIFO buffer of rows
    behind the DB-API fetch methods. It is generic in the field-list type `F`,
    the description type `D` and the row type `R`, as the Python class accepts
    any of them. */
module NestedCursors {
  import opened Json

  function Min(a: nat, b: nat): nat {
    if a <= b then a else b
  }

  /** `fetchone` on the buffer `buf`: the row returned and the buffer left. */
  function TakeOne<R>(buf: seq<R>): (r: (Option<R>, seq<R>))
    ensures r.0.None? <==> buf == []
    ensures r.0.None? ==> r.1 == []
    ensures r.0.Some? ==> [r.0.value] + r.1 == buf
  {
    if buf == [] then (None, []) else (Some(buf[0]), buf[1..])
  }

  /** `fetchmany` of `size` rows: Python's `l[0:size]` and `l[size:]`. */
  function TakeMany<R>(buf: seq<R>, size: nat): (r: (seq<R>, seq<R>))
    ensures r.0 + r.1 == buf
    ensures |r.0| == Min(size, |buf|)
  {
    if size <= |buf| then (buf[..size], buf[size..]) else (buf, [])
  }

  /** The size `fetchmany` uses: the argument, or `arraysize` when it is None. */
  function FetchSize(size: Option<nat>, arraysize: nat): (r: nat)
    ensures size.Some? ==> r == size.value
    ensures size.None? ==> r == arraysize
  {
    match size
    case Some(k) => k
    case None => arraysize
  }

  /** The results of `n` successive `fetchone` calls. */
  function FetchOneSeries<R>(buf: seq<R>, n: nat): seq<Option<R>>
    decreases n
  {
    if n == 0 then [] else [TakeOne(buf).0] + FetchOneSeries(TakeOne(buf).1, n - 1)
  }

  /** The results of successive `fetchmany` calls with the given sizes. */
  function FetchManySeries<R>(buf: seq<R>, arraysize: nat, sizes: seq<Option<nat>>): seq<seq<R>>
    decreases |sizes|
  {
    if sizes == [] then []
    else
      var (taken, rest) := TakeMany(buf, FetchSize(sizes[0], arraysize));
      [taken] + FetchManySeries(rest, arraysize, sizes[1..])
  }

  /** The buffer left after those calls. */
  function RemainingAfter<R>(buf: seq<R>, arraysize: nat, sizes: seq<Option<nat>>): seq<R>
    decreases |sizes|
  {
    if sizes == [] then buf
    else RemainingAfter(TakeMany(buf, FetchSize(sizes[0], arraysize)).1, arraysize, sizes[1..])
  }

  function Concat<R>(pieces: seq<seq<R>>): seq<R> {
    if pieces == [] then [] else pieces[0] + Concat(pieces[1..])
  }

  /** Over N buffered rows, N + k calls of `fetchone` return the rows in their
      order and then k times None. */
  lemma {:induction false} FetchOneDrainsInOrder<R>(buf: seq<R>, n: nat)
    ensures |FetchOneSeries(buf, n)| == n
    ensures forall i :: 0 <= i < n ==>
      FetchOneSeries(buf, n)[i] == if i < |buf| then Some(buf[i]) else None
    decreases n
  {
    if n > 0 {
      FetchOneDrainsInOrder(TakeOne(buf).1, n - 1);
      forall i | 0 <= i < n
        ensures FetchOneSeries(buf, n)[i] == if i < |buf| then Some(buf[i]) else None
      {
        if 0 < i < |buf| {
          assert buf[1..][i - 1] == buf[i];
        }
      }
    }
  }

  /** Successive `fetchmany` calls lose and duplicate nothing: what they
      return, followed by what is left, is the original buffer. */
  lemma {:induction false} FetchManyIsLossless<R>(buf: seq<R>, arraysize: nat, sizes: seq<Option<nat>>)
    ensures Concat(FetchManySeries(buf, arraysize, sizes)) + RemainingAfter(buf, arraysize, sizes) == buf
    ensures |FetchManySeries(buf, arraysize, sizes)| == |sizes|
    decreases |sizes|
  {
    if sizes != [] {
      var (taken, rest) := TakeMany(buf, FetchSize(sizes[0], arraysize));
      FetchManyIsLossless(rest, arraysize, sizes[1..]);
      assert Concat(FetchManySeries(buf, arraysize, sizes))
          == taken + Concat(FetchManySeries(rest, arraysize, sizes[1..]));
    }
  }

  /** The test fixture: 20 rows and `arraysize` 12; `fetchmany(5)`, then
      `fetchmany()`, then `fetchmany(10)` return 5, 12 and 3 rows, which are
      rows 0-4, 5-16 and 17-19, and leave the buffer empty. */
  lemma FetchManyFixture<R>(buf: seq<R>)
    requires |buf| == 20
    ensures var got := FetchManySeries(buf, 12, [Some(5), None, Some(10)]);
      && |got| == 3
      && got[0] == buf[..5] && got[1] == buf[5..17] && got[2] == buf[17..]
      && RemainingAfter(buf, 12, [Some(5), None, Some(10)]) == []
  {
    var s: seq<Option<nat>> := [Some(5), None, Some(10)];
    assert s[1..] == [None, Some(10)] && s[1..][1..] == [Some(10)] && s[1..][1..][1..] == [];
    assert buf[5..][..12] == buf[5..17] && buf[5..][12..] == buf[17..];
    assert TakeMany(buf, 5) == (buf[..5], buf[5..]);
    assert TakeMany(buf[5..], 12) == (buf[5..17], buf[17..]);
    assert TakeMany(buf[17..], 10) == (buf[17..], []);
    assert FetchManySeries(buf[17..], 12, s[1..][1..]) == [buf[17..]];
    assert FetchManySeries(buf[5..], 12, s[1..]) == [buf[5..17], buf[17..]];
    assert RemainingAfter(buf[17..], 12, s[1..][1..]) == [];
  }

  class NestedCursor<F, D, R> {
    const fields: F
    const descriptionFactory: F -> D
    var arraysize: nat
    /** `_rows`, front first. */
    var rows: seq<R>

    /** `NestedCursor(ctx, arraysize, fields, description_factory)`: the
        buffer starts empty. */
    constructor (arraysize: nat, fields: F, descriptionFactory: F -> D)
      ensures this.arraysize == arraysize && this.fields == fields
      ensures this.descriptionFactory == descriptionFactory
      ensures rows == []
    {
      this.arraysize := arraysize;
      this.fields := fields;
      this.descriptionFactory := descriptionFactory;
      rows := [];
    }

    /** `description`: the factory applied to the cursor's field list, read
        without touching the buffer. */
    function Description(): (r: D)
      reads this
      ensures r == descriptionFactory(fields)
    {
      descriptionFactory(fields)
    }

    /** `_rows.extend(more)`, which the row decoder performs right after
        construction. */
    method Extend(more: seq<R>)
      modifies this`rows
      ensures rows == old(rows) + more
    {
      rows := rows + more;
    }

    /** `fetchone()`: removes and returns the front row, or None when the
        buffer is empty. */
    method FetchOne() returns (r: Option<R>)
      modifies this`rows
      ensures (r, rows) == TakeOne(old(rows))
    {
      if rows != [] {
        r := Some(rows[0]);
        rows := rows[1..];
      } else {
        r := None;
      }
    }

    /** `fetchall()`: the remaining rows in order; the buffer becomes empty. */
    method FetchAll() returns (r: seq<R>)
      modifies this`rows
      ensures r == old(rows) && rows == []
    {
      r := rows;
      rows := [];
    }

    /** `fetchmany(size)`, with `size` None for the default `arraysize`. */
    method FetchMany(size: Option<nat>) returns (r: seq<R>)
      modifies this`rows
      ensures (r, rows) == TakeMany(old(rows), FetchSize(size, arraysize))
    {
      var k := if size.Some? then size.value else arraysize;
      var l := rows;
      if k <= |l| {
        r, rows := l[..k], l[k..];
      } else {
        r, rows := l, [];
      }
    }
  }

  /** The two type sentinels of the cursor tests, `NUMBER` and `STRING`. */
  datatype TypeToken = Number | Str

  /** A field record of the cursor tests: `{"name": ..., "type": ...}`. */
  type TestField = (string, TypeToken)

  type TestColumn = (string, TypeToken, Option<int>, Option<int>, Option<int>, Option<int>, Option<int>)

  /** The description factory of the cursor tests: a 7-tuple per field with
      its name, its type and five Nones. */
  function TestDescribe(fields: seq<TestField>): seq<TestColumn> {
    seq(|fields|, i requires 0 <= i < |fields| => (fields[i].0, fields[i].1, None, None, None, None, None))
  }

  const IdField: TestField := ("id", Number)
  const ValueField: TestField := ("value", Str)

  /** The tests of the cursor fixture, replayed against the contracts above:
      the description, 22 `fetchone` calls over 20 rows, `fetchall` twice,
      `fetchmany` on an emptied buffer, and `fetchmany(5)`, `fetchmany()`,
      `fetchmany(10)` with `arraysize` 12. */
  method FixtureClient(rows: seq<(int, string)>)
    returns (description: seq<TestColumn>, ones: seq<Option<(int, string)>>, all: seq<(int, string)>,
             again: seq<(int, string)>, drained: seq<(int, string)>, many: seq<seq<(int, string)>>)
    requires |rows| == 20
    ensures description == [("id", Number, None, None, None, None, None),
                            ("value", Str, None, None, None, None, None)]
    ensures |ones| == 22 && ones[20] == None && ones[21] == None
    ensures forall i :: 0 <= i < 20 ==> ones[i] == Some(rows[i])
    ensures all == rows && again == [] && drained == []
    ensures many == [rows[..5], rows[5..17], rows[17..]]
  {
    var c := new NestedCursor(12, [IdField, ValueField], TestDescribe);
    c.Extend(rows);
    description := c.Description();
    ones := [];
    var i := 0;
    while i < 22
      invariant 0 <= i <= 22 && |ones| == i
      invariant c.rows == if i < 20 then rows[i..] else []
      invariant forall j :: 0 <= j < i ==> ones[j] == if j < 20 then Some(rows[j]) else None
    {
      var r := c.FetchOne();
      ones := ones + [r];
      i := i + 1;
    }
    var d := new NestedCursor(12, [IdField, ValueField], TestDescribe);
    d.Extend(rows);
    all := d.FetchAll();
    again := d.FetchAll();
    drained := d.FetchMany(Some(2));
    var e := new NestedCursor(12, [IdField, ValueField], TestDescribe);
    e.Extend(rows);
    var first := e.FetchMany(Some(5));
    var second := e.FetchMany(None);
    var third := e.FetchMany(Some(10));
    assert rows[5..][..12] == rows[5..17] && rows[5..][12..] == rows[17..];
    many := [first, second, third];
  }
}
