/** The two description generators of `Psycopg2ResultContext`
    (akiban/psycopg2.py): the flat DB-API 7-tuples of `gen_description` and the
    8-tuples of `gen_akiban_description`, whose last element describes a nested
    table recursively. */
module Descriptions {
  import opened Json
  import opened FieldSchema

  /** A DB-API description 7-tuple: name, type code and five attributes the
      engine always reports as None. */
  datatype Column = Column(
    name: Json,
    typeCode: Json,
    displaySize: Option<int>,
    internalSize: Option<int>,
    precision: Option<int>,
    scale: Option<int>,
    nullOk: Option<bool>)

  /** The extended 8-tuple: the seven entries and the description of the
      nested table's own columns, or None for a scalar column. */
  datatype AkibanColumn = AkibanColumn(
    name: Json,
    typeCode: Json,
    displaySize: Option<int>,
    internalSize: Option<int>,
    precision: Option<int>,
    scale: Option<int>,
    nullOk: Option<bool>,
    nested: Option<seq<AkibanColumn>>)

  /** `gen_description(fields)`: one 7-tuple per field, in order, with the
      field's name and type oid and None for the rest. */
  function GenDescription(fields: seq<Field>): (r: seq<Column>)
    ensures |r| == |fields|
    ensures forall i :: 0 <= i < |fields| ==>
      && r[i].name == fields[i].name && r[i].typeCode == fields[i].typeOid
      && r[i].displaySize == None && r[i].internalSize == None && r[i].precision == None
      && r[i].scale == None && r[i].nullOk == None
  {
    seq(|fields|, i requires 0 <= i < |fields| =>
      Column(fields[i].name, fields[i].typeOid, None, None, None, None, None))
  }

  /** `gen_akiban_description(fields)`: one 8-tuple per field, in order,
      starting with the field's 7-tuple and carrying a nested description
      exactly for the fields with `akiban.fields`. */
  function GenAkibanDescription(fields: seq<Field>): (r: seq<AkibanColumn>)
    ensures |r| == |fields|
    ensures forall i :: 0 <= i < |fields| ==>
      Flat(r[i]) == GenDescription(fields)[i] && (r[i].nested.Some? <==> fields[i].akiban.Nested?)
    decreases fields, 1
  {
    seq(|fields|, i requires 0 <= i < |fields| => AkibanEntry(fields[i]))
  }

  /** The 8-tuple of one field record: its name and type oid, five Nones, and
      for a nested table the description of each of its own fields. */
  function AkibanEntry(f: Field): (r: AkibanColumn)
    ensures Flat(r) == GenDescription([f])[0]
    ensures r.nested.Some? <==> f.akiban.Nested?
    ensures f.akiban.Nested? ==> |r.nested.value| == |f.akiban.fields|
    decreases f, 0
  {
    AkibanColumn(f.name, f.typeOid, None, None, None, None, None,
      match f.akiban
      case Nested(children) => Some(GenAkibanDescription(children))
      case NoNested => None)
  }

  /** The first seven entries of an 8-tuple. */
  function Flat(c: AkibanColumn): Column {
    Column(c.name, c.typeCode, c.displaySize, c.internalSize, c.precision, c.scale, c.nullOk)
  }

  /** The two descriptions are parallel outputs of one field list, at every
      depth: each 8-tuple starts with the flat 7-tuple of the same field, and
      its last element is present exactly when the field has `akiban.fields`,
      and then it stands in the same relation to those fields. */
  ghost predicate Parallel(fields: seq<Field>, desc: seq<AkibanColumn>)
    decreases fields, 1
  {
    |desc| == |fields|
    && forall i :: 0 <= i < |fields| ==>
         Flat(desc[i]) == GenDescription(fields)[i] && ParallelAt(fields[i], desc[i])
  }

  ghost predicate ParallelAt(f: Field, c: AkibanColumn)
    decreases f, 0
  {
    match f.akiban
    case NoNested => c.nested == None
    case Nested(children) => c.nested.Some? && Parallel(children, c.nested.value)
  }

  lemma {:induction false} AkibanExtendsFlat(fields: seq<Field>)
    ensures Parallel(fields, GenAkibanDescription(fields))
    decreases fields, 1
  {
    forall i | 0 <= i < |fields|
      ensures ParallelAt(fields[i], GenAkibanDescription(fields)[i])
    {
      AkibanEntryExtendsFlat(fields[i]);
    }
  }

  lemma {:induction false} AkibanEntryExtendsFlat(f: Field)
    ensures ParallelAt(f, AkibanEntry(f))
    decreases f, 0
  {
    if f.akiban.Nested? {
      AkibanExtendsFlat(f.akiban.fields);
    }
  }

  /** End to end with the extractor: the flat description of an extracted
      schema names each metadata record and reports its oid, or 5001 for a
      record with `columns`. */
  lemma DescriptionOfMetadata(recs: seq<Json>)
    requires FieldsOf(JArray(recs)).Ok?
    ensures var d := GenDescription(FieldsOf(JArray(recs)).value);
      && |d| == |recs|
      && forall i :: 0 <= i < |recs| ==>
           && recs[i].JObject? && "name" in recs[i].members
           && d[i].name == recs[i].members["name"]
           && if "columns" in recs[i].members then d[i].typeCode == JNum(NestedOid)
              else "oid" in recs[i].members && d[i].typeCode == recs[i].members["oid"]
  {
    FieldsOfDescribes(JArray(recs));
    var fs := FieldsOf(JArray(recs)).value;
    forall i | 0 <= i < |recs|
      ensures DescribesRecord(fs[i], recs[i], i)
    {
    }
  }
}
