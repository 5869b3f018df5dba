/** Schema extraction (`_format_fields`): the metadata document of a result
    set's first row becomes an ordered list of field records, recursively for
    nested tables. */
module FieldSchema {
  import opened Json

  /** `_NESTED_OID`: the type oid given to a column that holds a nested table. */
  const NestedOid: int := 5001

  /** Whether a field record carries an `akiban.fields` entry, and its value. */
  datatype Nesting = NoNested | Nested(fields: seq<Field>)

  /** One field record as `_format_fields` builds it: the eight dict entries
      `table_oid`, `name`, `column_attrnum`, `format`, `type_modifier`,
      `type_size`, `type_oid` and, for a nested table only, `akiban.fields`. */
  datatype Field = Field(
    tableOid: Option<int>,
    name: Json,
    columnAttrnum: nat,
    format: Option<int>,
    typeModifier: int,
    typeSize: int,
    typeOid: Json,
    akiban: Nesting)

  /** `_format_fields(doc)`. A list is walked record by record. Any other
      iterable yields strings (the characters of a string, the keys of a dict),
      and the first `rec['name']` on a string raises TypeError, so only an
      empty one yields the empty list. */
  function FieldsOf(doc: Json): (r: Result<seq<Field>>)
    ensures r.Ok? && doc.JArray? ==>
      |r.value| == |doc.items| && forall i :: 0 <= i < |doc.items| ==> RecordOf(doc.items[i], i) == Ok(r.value[i])
    ensures r.Ok? && !doc.JArray? ==> r.value == []
    ensures doc.JArray? && (forall i :: 0 <= i < |doc.items| ==> RecordOf(doc.items[i], i).Ok?) ==> r.Ok?
  {
    match doc
    case JArray(recs) => RecordsOf(recs)
    case _ =>
      var recs :- Iterate(doc);
      if recs == [] then Ok([]) else Err(TypeError)
  }

  /** The loop of `_format_fields` over the records `recs`, numbering them from 0;
      the first failing record, in order, decides the error. */
  function RecordsOf(recs: seq<Json>): (r: Result<seq<Field>>)
    ensures r.Ok? ==> |r.value| == |recs|
    ensures r.Ok? ==> forall i :: 0 <= i < |recs| ==> RecordOf(recs[i], i) == Ok(r.value[i])
    ensures (forall i :: 0 <= i < |recs| ==> RecordOf(recs[i], i).Ok?) ==> r.Ok?
  {
    if recs == [] then Ok([])
    else
      var init :- RecordsOf(recs[..|recs| - 1]);
      var f :- RecordOf(recs[|recs| - 1], |recs| - 1);
      Ok(init + [f])
  }

  /** The field record built for `rec` at position `attrnum`: the name is
      copied, the constant entries are filled in, and `columns` takes
      precedence over `oid`; the lookups raise in the order the source makes
      them. */
  function RecordOf(rec: Json, attrnum: nat): (r: Result<Field>)
    ensures r.Ok? ==>
      && rec.JObject? && "name" in rec.members
      && r.value.name == rec.members["name"] && r.value.columnAttrnum == attrnum
      && r.value.tableOid == None && r.value.format == None
      && r.value.typeModifier == -1 && r.value.typeSize == -1
      && ("columns" in rec.members ==>
            r.value.typeOid == JNum(NestedOid) && r.value.akiban.Nested?
            && FieldsOf(rec.members["columns"]) == Ok(r.value.akiban.fields))
      && ("columns" !in rec.members ==>
            "oid" in rec.members && r.value.typeOid == rec.members["oid"] && r.value.akiban == NoNested)
    ensures !rec.JObject? ==> r == Err(TypeError)
    ensures rec.JObject? && "name" !in rec.members ==> r == Err(KeyError(JStr("name")))
    ensures rec.JObject? && "name" in rec.members && "columns" !in rec.members && "oid" !in rec.members
            ==> r == Err(KeyError(JStr("oid")))
  {
    var name :- Subscript(rec, JStr("name"));
    // `rec` is a dict here: a list or a string cannot be subscripted by a string.
    if "columns" in rec.members then
      var nested :- FieldsOf(rec.members["columns"]);
      Ok(Field(None, name, attrnum, None, -1, -1, JNum(NestedOid), Nested(nested)))
    else
      var oid :- Subscript(rec, JStr("oid"));
      Ok(Field(None, name, attrnum, None, -1, -1, oid, NoNested))
  }

  /** The reference reading of the extractor, stated record by record: `fields`
      has one record per metadata record, in order, each numbered by its
      position in its own level, with the name copied, the constant entries,
      and `columns` taking precedence over `oid`. */
  ghost predicate Describes(fields: seq<Field>, doc: Json)
    decreases doc, 1
  {
    match doc
    case JArray(recs) =>
      |fields| == |recs| && forall i :: 0 <= i < |recs| ==> DescribesRecord(fields[i], recs[i], i)
    case JStr(s) => s == "" && fields == []
    case JObject(m) => m == map[] && fields == []
    case _ => false
  }

  ghost predicate DescribesRecord(f: Field, rec: Json, attrnum: nat)
    decreases rec, 0
  {
    && rec.JObject?
    && "name" in rec.members
    && f.name == rec.members["name"]
    && f.columnAttrnum == attrnum
    && f.tableOid == None && f.format == None
    && f.typeModifier == -1 && f.typeSize == -1
    && if "columns" in rec.members then
         f.typeOid == JNum(NestedOid) && f.akiban.Nested?
         && Describes(f.akiban.fields, rec.members["columns"])
       else
         "oid" in rec.members && f.typeOid == rec.members["oid"] && f.akiban == NoNested
  }

  /** Whatever `_format_fields` returns satisfies the reference reading. */
  lemma {:induction false} FieldsOfDescribes(doc: Json)
    ensures FieldsOf(doc).Ok? ==> Describes(FieldsOf(doc).value, doc)
    decreases doc, 2
  {
    if doc.JArray? {
      RecordsOfDescribe(doc.items);
    }
  }

  lemma {:induction false} RecordsOfDescribe(recs: seq<Json>)
    ensures RecordsOf(recs).Ok? ==>
      forall i :: 0 <= i < |recs| ==> DescribesRecord(RecordsOf(recs).value[i], recs[i], i)
    decreases recs, 1
  {
    if recs != [] && RecordsOf(recs).Ok? {
      var n := |recs| - 1;
      RecordsOfDescribe(recs[..n]);
      RecordOfDescribes(recs[n], n);
      forall i | 0 <= i < |recs|
        ensures DescribesRecord(RecordsOf(recs).value[i], recs[i], i)
      {
        if i < n {
          assert recs[..n][i] == recs[i];
        }
      }
    }
  }

  lemma {:induction false} RecordOfDescribes(rec: Json, attrnum: nat)
    ensures RecordOf(rec, attrnum).Ok? ==> DescribesRecord(RecordOf(rec, attrnum).value, rec, attrnum)
    decreases rec, 0
  {
    if RecordOf(rec, attrnum).Ok? && "columns" in rec.members {
      FieldsOfDescribes(rec.members["columns"]);
    }
  }

  /** Conversely, a field list that satisfies the reference reading is exactly
      what `_format_fields` returns: the extractor fails exactly when no field
      list describes the metadata. */
  lemma {:induction false} DescribedIsExtracted(fields: seq<Field>, doc: Json)
    requires Describes(fields, doc)
    ensures FieldsOf(doc) == Ok(fields)
    decreases doc, 2
  {
    if doc.JArray? {
      RecordsExtracted(fields, doc.items);
    }
  }

  lemma {:induction false} RecordsExtracted(fields: seq<Field>, recs: seq<Json>)
    requires |fields| == |recs|
    requires forall i :: 0 <= i < |recs| ==> DescribesRecord(fields[i], recs[i], i)
    ensures RecordsOf(recs) == Ok(fields)
    decreases recs, 1
  {
    if recs != [] {
      var n := |recs| - 1;
      forall i | 0 <= i < n
        ensures DescribesRecord(fields[..n][i], recs[..n][i], i)
      {
        assert fields[..n][i] == fields[i] && recs[..n][i] == recs[i];
      }
      RecordsExtracted(fields[..n], recs[..n]);
      RecordExtracted(fields[n], recs[n], n);
      assert fields == fields[..n] + [fields[n]];
    }
  }

  lemma {:induction false} RecordExtracted(f: Field, rec: Json, attrnum: nat)
    requires DescribesRecord(f, rec, attrnum)
    ensures RecordOf(rec, attrnum) == Ok(f)
    decreases rec, 0
  {
    if "columns" in rec.members {
      DescribedIsExtracted(f.akiban.fields, rec.members["columns"]);
    }
  }

  /** A record that has neither `columns` nor `oid` makes extraction fail. */
  lemma MissingOidAndColumnsFails(recs: seq<Json>, i: nat)
    requires i < |recs| && recs[i].JObject?
    requires "columns" !in recs[i].members && "oid" !in recs[i].members
    ensures FieldsOf(JArray(recs)).Err?
    ensures "name" in recs[i].members ==> RecordOf(recs[i], i) == Err(KeyError(JStr("oid")))
    ensures "name" in recs[i].members && RecordsOf(recs[..i]).Ok? ==>
      FieldsOf(JArray(recs)) == Err(KeyError(JStr("oid")))
  {
    FieldsOfDescribes(JArray(recs));
    if "name" in recs[i].members && RecordsOf(recs[..i]).Ok? {
      assert recs[..i + 1][..i] == recs[..i];
      RecordsErrorPersists(recs, i + 1);
    }
  }

  /** The imperative `_format_fields`: a loop appending one new record per
      metadata record, recursing into `columns`. */
  method FormatFields(doc: Json) returns (r: Result<seq<Field>>)
    ensures r == FieldsOf(doc)
  {
    if !doc.JArray? {
      var recs := Iterate(doc);
      if recs.Err? {
        return Err(recs.error);
      }
      return if recs.value == [] then Ok([]) else Err(TypeError);
    }
    var recs := doc.items;
    var ret: seq<Field> := [];
    var attrnum := 0;
    while attrnum < |recs|
      invariant 0 <= attrnum <= |recs|
      invariant RecordsOf(recs[..attrnum]) == Ok(ret)
    {
      var rec := recs[attrnum];
      assert recs[..attrnum + 1][..attrnum] == recs[..attrnum];
      var name := Subscript(rec, JStr("name"));
      if name.Err? {
        RecordsErrorPersists(recs, attrnum + 1);
        return Err(name.error);
      }
      var newrec: Field;
      if "columns" in rec.members {
        var nested := FormatFields(rec.members["columns"]);
        if nested.Err? {
          RecordsErrorPersists(recs, attrnum + 1);
          return Err(nested.error);
        }
        newrec := Field(None, name.value, attrnum, None, -1, -1, JNum(NestedOid), Nested(nested.value));
      } else {
        var oid := Subscript(rec, JStr("oid"));
        if oid.Err? {
          RecordsErrorPersists(recs, attrnum + 1);
          return Err(oid.error);
        }
        newrec := Field(None, name.value, attrnum, None, -1, -1, oid.value, NoNested);
      }
      ret := ret + [newrec];
      attrnum := attrnum + 1;
    }
    assert recs[..attrnum] == recs;
    return Ok(ret);
  }

  /** Once a prefix of the records fails, the whole list fails the same way. */
  lemma {:induction false} RecordsErrorPersists(recs: seq<Json>, k: nat)
    requires k <= |recs| && RecordsOf(recs[..k]).Err?
    ensures RecordsOf(recs) == RecordsOf(recs[..k])
    decreases |recs| - k
  {
    if k < |recs| {
      var n := |recs| - 1;
      assert recs[..n][..k] == recs[..k];
      RecordsErrorPersists(recs[..n], k);
      assert recs[..|recs|] == recs;
    } else {
      assert recs[..k] == recs;
    }
  }
}
