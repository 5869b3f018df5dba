/** What the adapter cache of `typecast` (akiban/psycopg2.py) costs the row
    decoder of akiban/impl.py. Decoding with a cache that is threaded through
    the traversal agrees with a reference decoding that consults psycopg2
    afresh for every scalar, provided every value of an oid has one
    representation: always a string or never one. */
module CacheSoundness {
  import opened Json
  import opened FieldSchema
  import opened AdapterCache
  import opened RowDecoder

  /** The reference decoder: every scalar is converted as on first sight of its
      oid, so no value depends on an earlier one. */
  function ColdCellOf(drv: Driver, arraysize: nat, doc: Json, f: Field): Result<Cell>
    decreases f, 0
  {
    if f.typeOid == JNum(NestedOid) then
      match f.akiban
      case NoNested => Err(KeyError(JStr("akiban.fields")))
      case Nested(children) =>
        var value :- Subscript(doc, f.name);
        var rows :- ColdCreateRowsetOf(drv, arraysize, value, children);
        Ok(Cursor(arraysize, children, rows))
    else
      var value :- Subscript(doc, f.name);
      var cast :- CastOf(drv, map[], value, f.typeOid).result;
      Ok(Scalar(cast))
  }

  /** The first failing field decides the error; otherwise one entry per field. */
  function ColdRowOf(drv: Driver, arraysize: nat, doc: Json, fields: seq<Field>): Result<Row>
    decreases fields, 0
  {
    if fields == [] then Ok([])
    else
      var init :- ColdRowOf(drv, arraysize, doc, fields[..|fields| - 1]);
      var cell :- ColdCellOf(drv, arraysize, doc, fields[|fields| - 1]);
      Ok(init + [cell])
  }

  function ColdCreateRowsetOf(drv: Driver, arraysize: nat, value: Json, fields: seq<Field>): Result<seq<Row>>
    decreases fields, 2
  {
    var docs :- Iterate(value);
    ColdRowsetOf(drv, arraysize, docs, fields)
  }

  function ColdRowsetOf(drv: Driver, arraysize: nat, docs: seq<Json>, fields: seq<Field>): Result<seq<Row>>
    decreases fields, 1, |docs|
  {
    if docs == [] then Ok([])
    else
      var init :- ColdRowsetOf(drv, arraysize, docs[..|docs| - 1], fields);
      var row :- ColdRowOf(drv, arraysize, docs[|docs| - 1], fields);
      Ok(init + [row])
  }

  /** `rep[k]`: whether the values of oid key `k` are strings. */
  type Representation = map<Json, bool>

  /** Every cache entry is the one first sight of a value of the recorded
      representation would store. */
  ghost predicate Agrees(drv: Driver, cache: Cache, rep: Representation) {
    forall k :: k in cache ==> k in rep && FirstEntry(drv, k, rep[k]) == Some(cache[k])
  }

  /** Every scalar value `doc` holds for `f`, at any depth, has the recorded
      representation of its oid. */
  ghost predicate UniformCell(rep: Representation, doc: Json, f: Field)
    decreases f, 0
  {
    match Subscript(doc, f.name)
    case Err(_) => true
    case Ok(value) =>
      if f.typeOid == JNum(NestedOid) then
        match f.akiban
        case NoNested => true
        case Nested(children) =>
          (match Iterate(value)
           case Err(_) => true
           case Ok(docs) => UniformRowset(rep, docs, children))
      else
        Hashable(f.typeOid) ==> HashKey(f.typeOid) in rep && rep[HashKey(f.typeOid)] == IsString(value)
  }

  ghost predicate UniformRow(rep: Representation, doc: Json, fields: seq<Field>)
    decreases fields, 0
  {
    forall i :: 0 <= i < |fields| ==> UniformCell(rep, doc, fields[i])
  }

  ghost predicate UniformRowset(rep: Representation, docs: seq<Json>, fields: seq<Field>)
    decreases fields, 1
  {
    forall j :: 0 <= j < |docs| ==> UniformRow(rep, docs[j], fields)
  }

  /** One `typecast` under the assumption: the warm result is the cold one and
      the entry it may add agrees too. */
  lemma CastAgrees(drv: Driver, cache: Cache, rep: Representation, value: Json, oid: Json)
    requires Agrees(drv, cache, rep)
    requires Hashable(oid) ==> HashKey(oid) in rep && rep[HashKey(oid)] == IsString(value)
    ensures CastOf(drv, cache, value, oid).result == CastOf(drv, map[], value, oid).result
    ensures Agrees(drv, CastOf(drv, cache, value, oid).cache, rep)
  {
    if Hashable(oid) && HashKey(oid) in cache {
      ConsistentRepresentationIsSound(drv, cache, value, oid);
    }
  }

  lemma {:induction false} WarmCellIsCold(drv: Driver, arraysize: nat, cache: Cache, rep: Representation, doc: Json, f: Field)
    requires Agrees(drv, cache, rep) && UniformCell(rep, doc, f)
    ensures CellOf(drv, arraysize, cache, doc, f).result == ColdCellOf(drv, arraysize, doc, f)
    ensures Agrees(drv, CellOf(drv, arraysize, cache, doc, f).cache, rep)
    decreases f, 0
  {
    match Subscript(doc, f.name)
    case Err(_) =>
    case Ok(value) =>
      if f.typeOid == JNum(NestedOid) {
        if f.akiban.Nested? {
          WarmCreateRowsetIsCold(drv, arraysize, cache, rep, value, f.akiban.fields);
        }
      } else {
        CastAgrees(drv, cache, rep, value, f.typeOid);
      }
  }

  lemma {:induction false} WarmRowIsCold(drv: Driver, arraysize: nat, cache: Cache, rep: Representation, doc: Json, fields: seq<Field>)
    requires Agrees(drv, cache, rep) && UniformRow(rep, doc, fields)
    ensures RowOf(drv, arraysize, cache, doc, fields).result == ColdRowOf(drv, arraysize, doc, fields)
    ensures Agrees(drv, RowOf(drv, arraysize, cache, doc, fields).cache, rep)
    decreases fields, 0
  {
    if fields != [] {
      var k := |fields| - 1;
      assert UniformRow(rep, doc, fields[..k]) by {
        forall i | 0 <= i < k ensures UniformCell(rep, doc, fields[..k][i]) {
          assert fields[..k][i] == fields[i];
        }
      }
      WarmRowIsCold(drv, arraysize, cache, rep, doc, fields[..k]);
      var init := RowOf(drv, arraysize, cache, doc, fields[..k]);
      if init.result.Ok? {
        WarmCellIsCold(drv, arraysize, init.cache, rep, doc, fields[k]);
      }
    }
  }

  lemma {:induction false} WarmCreateRowsetIsCold(drv: Driver, arraysize: nat, cache: Cache, rep: Representation, value: Json, fields: seq<Field>)
    requires Agrees(drv, cache, rep)
    requires Iterate(value).Ok? ==> UniformRowset(rep, Iterate(value).value, fields)
    ensures CreateRowsetOf(drv, arraysize, cache, value, fields).result == ColdCreateRowsetOf(drv, arraysize, value, fields)
    ensures Agrees(drv, CreateRowsetOf(drv, arraysize, cache, value, fields).cache, rep)
    decreases fields, 2
  {
    if Iterate(value).Ok? {
      WarmRowsetIsCold(drv, arraysize, cache, rep, Iterate(value).value, fields);
    }
  }

  lemma {:induction false} WarmRowsetIsCold(drv: Driver, arraysize: nat, cache: Cache, rep: Representation, docs: seq<Json>, fields: seq<Field>)
    requires Agrees(drv, cache, rep) && UniformRowset(rep, docs, fields)
    ensures RowsetOf(drv, arraysize, cache, docs, fields).result == ColdRowsetOf(drv, arraysize, docs, fields)
    ensures Agrees(drv, RowsetOf(drv, arraysize, cache, docs, fields).cache, rep)
    decreases fields, 1, |docs|
  {
    if docs != [] {
      var k := |docs| - 1;
      assert UniformRowset(rep, docs[..k], fields) by {
        forall j | 0 <= j < k ensures UniformRow(rep, docs[..k][j], fields) {
          assert docs[..k][j] == docs[j];
        }
      }
      WarmRowsetIsCold(drv, arraysize, cache, rep, docs[..k], fields);
      var init := RowsetOf(drv, arraysize, cache, docs[..k], fields);
      if init.result.Ok? {
        WarmRowIsCold(drv, arraysize, init.cache, rep, docs[k], fields);
      }
    }
  }

  /** Starting from an empty cache, the assumption alone makes a whole
      document decode exactly as the reference decoder does. */
  lemma ColdStartIsSound(drv: Driver, arraysize: nat, rep: Representation, doc: Json, fields: seq<Field>)
    requires UniformRow(rep, doc, fields)
    ensures RowOf(drv, arraysize, map[], doc, fields).result == ColdRowOf(drv, arraysize, doc, fields)
  {
    WarmRowIsCold(drv, arraysize, map[], rep, doc, fields);
  }
}
