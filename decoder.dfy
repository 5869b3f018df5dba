/** Row decoding (`_format_row`, `_create_rowset`, `_filter_row` in
    akiban/impl.py): one data document becomes a tuple with one entry per
    field, in field order; a nested field becomes a cursor already holding its
    decoded child rows, and a scalar goes through the context's typecast. */
module RowDecoder {
  import opened Json
  import opened FieldSchema
  import opened AdapterCache
  import opened ResultContexts

  /** An entry of a decoded tuple: a typecast scalar, or a nested cursor as it
      stands right after decoding (its `arraysize`, its field list and its
      buffered rows). */
  datatype Cell =
    | Scalar(value: Native)
    | Cursor(arraysize: nat, fields: seq<Field>, rows: seq<seq<Cell>>)

  type Row = seq<Cell>

  /** The value of `field` in the tuple for `doc`: for a type oid of 5001 a
      cursor over `field['akiban.fields']` filled by `_create_rowset`, and
      otherwise `typecast(doc[name], type_oid)`. */
  function CellOf(drv: Driver, arraysize: nat, cache: Cache, doc: Json, f: Field): (r: Outcome<Cell>)
    ensures Extends(cache, r.cache)
    decreases f, 0
  {
    if f.typeOid == JNum(NestedOid) then
      match f.akiban
      case NoNested => Outcome(Err(KeyError(JStr("akiban.fields"))), cache)
      case Nested(children) =>
        match Subscript(doc, f.name)
        case Err(e) => Outcome(Err(e), cache)
        case Ok(value) =>
          var rows := CreateRowsetOf(drv, arraysize, cache, value, children);
          Outcome(if rows.result.Ok? then Ok(Cursor(arraysize, children, rows.result.value))
                  else Err(rows.result.error), rows.cache)
    else
      match Subscript(doc, f.name)
      case Err(e) => Outcome(Err(e), cache)
      case Ok(value) =>
        var cast := CastOf(drv, cache, value, f.typeOid);
        Outcome(if cast.result.Ok? then Ok(Scalar(cast.result.value)) else Err(cast.result.error),
                cast.cache)
  }

  /** `_format_row(doc, fields, ctx)`: the loop over `fields`, threading the
      adapter cache from field to field; the first failing field decides the
      error. */
  function RowOf(drv: Driver, arraysize: nat, cache: Cache, doc: Json, fields: seq<Field>): (r: Outcome<Row>)
    ensures Extends(cache, r.cache)
    ensures r.result.Ok? ==> |r.result.value| == |fields|
    decreases fields, 0
  {
    if fields == [] then Outcome(Ok([]), cache)
    else
      var init := RowOf(drv, arraysize, cache, doc, fields[..|fields| - 1]);
      if init.result.Err? then init
      else
        var c := CellOf(drv, arraysize, init.cache, doc, fields[|fields| - 1]);
        Outcome(if c.result.Ok? then Ok(init.result.value + [c.result.value]) else Err(c.result.error),
                c.cache)
  }

  /** `_create_rowset(value, fields, ctx)`: iterate `value` and decode each
      element as a row. */
  function CreateRowsetOf(drv: Driver, arraysize: nat, cache: Cache, value: Json, fields: seq<Field>)
    : (r: Outcome<seq<Row>>)
    ensures Extends(cache, r.cache)
    decreases fields, 2
  {
    match Iterate(value)
    case Err(e) => Outcome(Err(e), cache)
    case Ok(docs) => RowsetOf(drv, arraysize, cache, docs, fields)
  }

  /** The comprehension of `_create_rowset` over the child documents `docs`. */
  function RowsetOf(drv: Driver, arraysize: nat, cache: Cache, docs: seq<Json>, fields: seq<Field>)
    : (r: Outcome<seq<Row>>)
    ensures Extends(cache, r.cache)
    ensures r.result.Ok? ==> |r.result.value| == |docs|
    decreases fields, 1, |docs|
  {
    if docs == [] then Outcome(Ok([]), cache)
    else
      var init := RowsetOf(drv, arraysize, cache, docs[..|docs| - 1], fields);
      if init.result.Err? then init
      else
        var row := RowOf(drv, arraysize, init.cache, docs[|docs| - 1], fields);
        Outcome(if row.result.Ok? then Ok(init.result.value + [row.result.value]) else Err(row.result.error),
                row.cache)
  }

  /** The tuple has one entry per field and no field is skipped or reordered:
      entry `i` is the value of field `i`, decoded against the cache the first
      `i` fields left behind. */
  lemma {:induction false} RowEntries(drv: Driver, arraysize: nat, cache: Cache, doc: Json, fields: seq<Field>, i: nat)
    requires RowOf(drv, arraysize, cache, doc, fields).result.Ok? && i < |fields|
    ensures var row := RowOf(drv, arraysize, cache, doc, fields).result.value;
      var before := RowOf(drv, arraysize, cache, doc, fields[..i]);
      && |row| == |fields|
      && before.result == Ok(row[..i])
      && CellOf(drv, arraysize, before.cache, doc, fields[i]).result == Ok(row[i])
    decreases |fields|
  {
    var k := |fields| - 1;
    var row := RowOf(drv, arraysize, cache, doc, fields).result.value;
    var init := RowOf(drv, arraysize, cache, doc, fields[..k]).result.value;
    assert row == init + [row[k]];
    assert row[..k] == init;
    if i < k {
      assert fields[..k][..i] == fields[..i];
      assert row[..i] == init[..i];
      RowEntries(drv, arraysize, cache, doc, fields[..k], i);
    }
  }

  /** Likewise each buffered row of a nested cursor is `_format_row` of the
      matching child document, in document order. */
  lemma {:induction false} RowsetEntries(drv: Driver, arraysize: nat, cache: Cache, docs: seq<Json>, fields: seq<Field>, j: nat)
    requires RowsetOf(drv, arraysize, cache, docs, fields).result.Ok? && j < |docs|
    ensures var rows := RowsetOf(drv, arraysize, cache, docs, fields).result.value;
      var before := RowsetOf(drv, arraysize, cache, docs[..j], fields);
      && |rows| == |docs|
      && before.result == Ok(rows[..j])
      && RowOf(drv, arraysize, before.cache, docs[j], fields).result == Ok(rows[j])
    decreases |docs|
  {
    var k := |docs| - 1;
    var rows := RowsetOf(drv, arraysize, cache, docs, fields).result.value;
    var init := RowsetOf(drv, arraysize, cache, docs[..k], fields).result.value;
    assert rows == init + [rows[k]];
    assert rows[..k] == init;
    if j < k {
      assert docs[..k][..j] == docs[..j];
      assert rows[..j] == init[..j];
      RowsetEntries(drv, arraysize, cache, docs[..k], fields, j);
    }
  }

  /** What a decoded entry is. A nested field yields a cursor with the
      context's `arraysize`, the field's own `akiban.fields` and one buffered
      row per child document of `doc[name]`; any other field yields the
      typecast of `doc[name]`; and the field's key must be present. */
  lemma CellMeaning(drv: Driver, arraysize: nat, cache: Cache, doc: Json, f: Field)
    requires CellOf(drv, arraysize, cache, doc, f).result.Ok?
    ensures Subscript(doc, f.name).Ok?
    ensures var cell := CellOf(drv, arraysize, cache, doc, f).result.value;
      var value := Subscript(doc, f.name).value;
      if f.typeOid == JNum(NestedOid) then
        && f.akiban.Nested? && Iterate(value).Ok?
        && cell.Cursor? && cell.arraysize == arraysize && cell.fields == f.akiban.fields
        && |cell.rows| == |Iterate(value).value|
        && Ok(cell.rows) == RowsetOf(drv, arraysize, cache, Iterate(value).value, f.akiban.fields).result
      else
        && CastOf(drv, cache, value, f.typeOid).result.Ok?
        && cell == Scalar(CastOf(drv, cache, value, f.typeOid).result.value)
  {
  }

  /** A document that lacks the key of one of the fields cannot be decoded. */
  lemma MissingKeyFails(drv: Driver, arraysize: nat, cache: Cache, m: map<string, Json>, fields: seq<Field>, i: nat)
    requires i < |fields| && fields[i].name.JStr? && fields[i].name.s !in m
    ensures RowOf(drv, arraysize, cache, JObject(m), fields).result.Err?
  {
    if RowOf(drv, arraysize, cache, JObject(m), fields).result.Ok? {
      RowEntries(drv, arraysize, cache, JObject(m), fields, i);
      var before := RowOf(drv, arraysize, cache, JObject(m), fields[..i]);
      CellMeaning(drv, arraysize, before.cache, JObject(m), fields[i]);
    }
  }

  /** After a successful decode, the oid of every scalar field is in the
      cache. */
  lemma ScalarOidsCached(drv: Driver, arraysize: nat, cache: Cache, doc: Json, fields: seq<Field>, i: nat)
    requires RowOf(drv, arraysize, cache, doc, fields).result.Ok?
    requires i < |fields| && fields[i].typeOid != JNum(NestedOid)
    ensures Hashable(fields[i].typeOid) && HashKey(fields[i].typeOid) in RowOf(drv, arraysize, cache, doc, fields).cache
  {
    RowEntries(drv, arraysize, cache, doc, fields, i);
    var before := RowOf(drv, arraysize, cache, doc, fields[..i]);
    CellMeaning(drv, arraysize, before.cache, doc, fields[i]);
    var after := CellOf(drv, arraysize, before.cache, doc, fields[i]);
    RowPrefixExtends(drv, arraysize, cache, doc, fields, i + 1);
    assert fields[..i + 1][..i] == fields[..i];
  }

  /** The cache a prefix of the fields leaves behind is extended by the rest of
      the row, and the prefix of length `k + 1` ends with field `k`'s cache. */
  lemma {:induction false} RowPrefixExtends(drv: Driver, arraysize: nat, cache: Cache, doc: Json, fields: seq<Field>, k: nat)
    requires RowOf(drv, arraysize, cache, doc, fields).result.Ok? && 0 < k <= |fields|
    ensures var before := RowOf(drv, arraysize, cache, doc, fields[..k - 1]);
      && Extends(CellOf(drv, arraysize, before.cache, doc, fields[k - 1]).cache, RowOf(drv, arraysize, cache, doc, fields).cache)
    decreases |fields|
  {
    var last := |fields| - 1;
    assert fields[..k][..k - 1] == fields[..k - 1];
    if k <= last {
      RowEntries(drv, arraysize, cache, doc, fields, last);
      RowPrefixExtends(drv, arraysize, cache, doc, fields[..last], k);
      assert fields[..last][..k - 1] == fields[..k - 1];
    } else {
      assert fields[..last] == fields[..k - 1];
    }
  }

  /** Once a prefix of the fields fails, the whole row fails the same way. */
  lemma {:induction false} RowErrorPersists(drv: Driver, arraysize: nat, cache: Cache, doc: Json, fields: seq<Field>, k: nat)
    requires k <= |fields| && RowOf(drv, arraysize, cache, doc, fields[..k]).result.Err?
    ensures RowOf(drv, arraysize, cache, doc, fields) == RowOf(drv, arraysize, cache, doc, fields[..k])
    decreases |fields| - k
  {
    if k < |fields| {
      var last := |fields| - 1;
      assert fields[..last][..k] == fields[..k];
      RowErrorPersists(drv, arraysize, cache, doc, fields[..last], k);
    } else {
      assert fields[..k] == fields;
    }
  }

  lemma {:induction false} RowsetErrorPersists(drv: Driver, arraysize: nat, cache: Cache, docs: seq<Json>, fields: seq<Field>, k: nat)
    requires k <= |docs| && RowsetOf(drv, arraysize, cache, docs[..k], fields).result.Err?
    ensures RowsetOf(drv, arraysize, cache, docs, fields) == RowsetOf(drv, arraysize, cache, docs[..k], fields)
    decreases |docs| - k
  {
    if k < |docs| {
      var last := |docs| - 1;
      assert docs[..last][..k] == docs[..k];
      RowsetErrorPersists(drv, arraysize, cache, docs[..last], fields, k);
    } else {
      assert docs[..k] == docs;
    }
  }

  /** `_format_row(document, fields, ctx)` */
  method FormatRow(ctx: Psycopg2ResultContext, doc: Json, fields: seq<Field>) returns (r: Result<Row>)
    modifies ctx.adapterCache
    ensures Outcome(r, ctx.adapterCache.entries)
         == RowOf(ctx.driver, ctx.arraysize, old(ctx.adapterCache.entries), doc, fields)
    decreases fields, 0
  {
    ghost var start := ctx.adapterCache.entries;
    var row: Row := [];
    var i := 0;
    while i < |fields|
      invariant 0 <= i <= |fields|
      invariant RowOf(ctx.driver, ctx.arraysize, start, doc, fields[..i])
             == Outcome(Ok(row), ctx.adapterCache.entries)
    {
      assert fields[..i + 1][..i] == fields[..i];
      var value := FormatCell(ctx, doc, fields[i]);
      if value.Err? {
        RowErrorPersists(ctx.driver, ctx.arraysize, start, doc, fields, i + 1);
        return Err(value.error);
      }
      row := row + [value.value];
      i := i + 1;
    }
    assert fields[..i] == fields;
    return Ok(row);
  }

  /** One iteration of the loop of `_format_row`: the entry for `field`. */
  method FormatCell(ctx: Psycopg2ResultContext, doc: Json, field: Field) returns (r: Result<Cell>)
    modifies ctx.adapterCache
    ensures Outcome(r, ctx.adapterCache.entries)
         == CellOf(ctx.driver, ctx.arraysize, old(ctx.adapterCache.entries), doc, field)
    decreases field, 0
  {
    if field.typeOid == JNum(NestedOid) {
      if field.akiban.NoNested? {
        return Err(KeyError(JStr("akiban.fields")));
      }
      var item := Subscript(doc, field.name);
      if item.Err? {
        return Err(item.error);
      }
      var rows := CreateRowset(ctx, item.value, field.akiban.fields);
      if rows.Err? {
        return Err(rows.error);
      }
      return Ok(Cursor(ctx.arraysize, field.akiban.fields, rows.value));
    } else {
      var item := Subscript(doc, field.name);
      if item.Err? {
        return Err(item.error);
      }
      var cast := ctx.Typecast(item.value, field.typeOid);
      if cast.Err? {
        return Err(cast.error);
      }
      return Ok(Scalar(cast.value));
    }
  }

  /** `_create_rowset(document, fields, ctx)` */
  method CreateRowset(ctx: Psycopg2ResultContext, value: Json, fields: seq<Field>) returns (r: Result<seq<Row>>)
    modifies ctx.adapterCache
    ensures Outcome(r, ctx.adapterCache.entries)
         == CreateRowsetOf(ctx.driver, ctx.arraysize, old(ctx.adapterCache.entries), value, fields)
    decreases fields, 2
  {
    var docs := Iterate(value);
    if docs.Err? {
      return Err(docs.error);
    }
    ghost var start := ctx.adapterCache.entries;
    var rows: seq<Row> := [];
    var j := 0;
    while j < |docs.value|
      invariant 0 <= j <= |docs.value|
      invariant RowsetOf(ctx.driver, ctx.arraysize, start, docs.value[..j], fields)
             == Outcome(Ok(rows), ctx.adapterCache.entries)
    {
      assert docs.value[..j + 1][..j] == docs.value[..j];
      var row := FormatRow(ctx, docs.value[j], fields);
      if row.Err? {
        RowsetErrorPersists(ctx.driver, ctx.arraysize, start, docs.value, fields, j + 1);
        return Err(row.error);
      }
      rows := rows + [row.value];
      j := j + 1;
    }
    assert docs.value[..j] == docs.value;
    return Ok(rows);
  }

  /** `_filter_row(row, ctx)`: None passes through without touching the
      context; a document is decoded against the context's own fields. */
  method FilterRow(ctx: Psycopg2ResultContext, row: Option<Json>) returns (r: Result<Option<Row>>)
    modifies ctx.adapterCache
    ensures row.None? ==> r == Ok(None) && ctx.adapterCache.entries == old(ctx.adapterCache.entries)
    ensures row.Some? ==>
      var o := RowOf(ctx.driver, ctx.arraysize, old(ctx.adapterCache.entries), row.value, ctx.fields);
      && ctx.adapterCache.entries == o.cache
      && (r.Ok? <==> o.result.Ok?)
      && (r.Ok? ==> r.value == Some(o.result.value))
      && (r.Err? ==> r.error == o.result.error)
  {
    if row.None? {
      return Ok(None);
    }
    var decoded := FormatRow(ctx, row.value, ctx.fields);
    if decoded.Err? {
      return Err(decoded.error);
    }
    return Ok(Some(decoded.value));
  }
}
