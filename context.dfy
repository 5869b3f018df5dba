/** `Psycopg2ResultContext` (akiban/psycopg2.py) with the state it inherits
    from `AkibanResultContext` (akiban/impl.py): the schema of the statement's
    result set, the `arraysize` nested cursors get, and the shared adapter
    cache behind `typecast`. */
module ResultContexts {
  import opened Json
  import opened FieldSchema
  import opened AdapterCache
  import opened Descriptions

  class Psycopg2ResultContext {
    const driver: Driver
    /** The module-level adapter cache this context reads and writes. */
    const adapterCache: AdapterTable
    /** `self.fields`, extracted from the first row's metadata document. */
    const fields: seq<Field>
    /** `arraysize`, which the source reads from the top-level cursor. */
    var arraysize: nat

    constructor (driver: Driver, adapterCache: AdapterTable, fields: seq<Field>, arraysize: nat)
      ensures this.driver == driver && this.adapterCache == adapterCache
      ensures this.fields == fields && this.arraysize == arraysize
    {
      this.driver := driver;
      this.adapterCache := adapterCache;
      this.fields := fields;
      this.arraysize := arraysize;
    }

    /** `description`: one 7-tuple per field of the result set, in order. */
    function Description(): (r: seq<Column>)
      reads this
      ensures |r| == |fields|
      ensures forall i :: 0 <= i < |fields| ==>
        r[i] == Column(fields[i].name, fields[i].typeOid, None, None, None, None, None)
    {
      GenDescription(fields)
    }

    /** `akiban_description`: the extended description of the same fields,
        parallel to `description` at every depth. */
    function AkibanDescription(): (r: seq<AkibanColumn>)
      reads this
      ensures Parallel(fields, r)
      ensures forall i :: 0 <= i < |fields| ==> Flat(r[i]) == Description()[i]
    {
      AkibanExtendsFlat(fields);
      GenAkibanDescription(fields)
    }

    /** `typecast(value, oid)`: look the oid up in the cache; on a miss decide
        the adapter from whether the value is a string, store it, and store
        None instead when it is psycopg2's STRING typecaster; then apply it,
        which may raise after the entry was stored. */
    method Typecast(value: Json, oid: Json) returns (r: Result<Native>)
      modifies adapterCache
      ensures Outcome(r, adapterCache.entries) == CastOf(driver, old(adapterCache.entries), value, oid)
    {
      if !Hashable(oid) {
        return Err(TypeError);
      }
      var key := HashKey(oid);
      var adapter: Option<Adapter>;
      if key in adapterCache.entries {
        adapter := adapterCache.entries[key];
      } else {
        if IsString(value) {
          if key !in driver.stringTypes {
            return Err(KeyError(oid));
          }
          adapter := Some(driver.stringTypes[key]);
        } else {
          adapter := None;
        }
        adapterCache.entries := adapterCache.entries[key := adapter];
        if adapter.Some? && adapter.value == driver.stringCaster {
          adapter := None;
          adapterCache.entries := adapterCache.entries[key := None];
        }
      }
      if adapter.Some? {
        if driver.rejects(adapter.value, value) {
          r := Err(AdapterError(value));
        } else {
          r := Ok(Adapted(adapter.value, value));
        }
      } else {
        r := Ok(Raw(value));
      }
    }
  }

  /** `Psycopg2ResultContext(cursor, firstrow)`: the schema comes from the
      first row's metadata document, and a malformed one raises. */
  method NewContext(driver: Driver, adapterCache: AdapterTable, firstDocument: Json, arraysize: nat)
    returns (r: Result<Psycopg2ResultContext>)
    ensures r.Ok? <==> FieldsOf(firstDocument).Ok?
    ensures r.Err? ==> r.error == FieldsOf(firstDocument).error
    ensures r.Ok? ==> && fresh(r.value)
                      && r.value.fields == FieldsOf(firstDocument).value
                      && r.value.driver == driver && r.value.adapterCache == adapterCache
                      && r.value.arraysize == arraysize
  {
    var fields := FormatFields(firstDocument);
    if fields.Err? {
      return Err(fields.error);
    }
    var ctx := new Psycopg2ResultContext(driver, adapterCache, fields.value, arraysize);
    return Ok(ctx);
  }
}
