# Akiban result decoding, modelled in Dafny

akiban_python is a psycopg2-based client for the Akiban server. Akiban can answer
a query whose columns are themselves sub-queries. In that mode every raw row
carries one JSON document: the first row is the metadata document describing
the columns, and the rows after it carry the data. This project models the engine that turns those
documents into DB-API tuples:

- **Schema extraction** (`_format_fields`, module `FieldSchema`). The metadata
  array becomes an ordered list of field records. A record with `columns` gets the
  type oid 5001 and its own recursive field list, `akiban.fields`.
- **Row decoding** (`_format_row`, `_create_rowset`, `_filter_row`, module
  `RowDecoder`). Fields are decoded in order. A scalar goes through the context's
  `typecast`. A nested field becomes a cursor whose buffer already holds the
  decoded child rows.
- **The buffered cursor** (`NestedCursor`, module `NestedCursors`). It is a FIFO
  buffer drained by `fetchone`, `fetchall` and `fetchmany`.
- **The psycopg2 result context** (modules `AdapterCache`, `Descriptions` and
  `ResultContexts`):
  - `typecast` with its module-level per-oid adapter cache;
  - the flat 7-tuple and the recursive 8-tuple description generators.
- **The output-format toggle of `Connection`** (module `Connections`).

JSON documents are the datatype `Json.Json`. Python's `d[k]` and `for x in d` on
such values are `Json.Subscript` and `Json.Iterate`, with their exceptions as
`Result` errors. `typecast` mutates a dictionary shared by every context. Its
model is therefore two things:

- the class `AdapterTable`, which the methods modify;
- the function `CastOf`, which returns the result together with the new cache,
  on failure as well as on success. Python keeps cache updates made before an
  exception, so an entry stored on first sight survives when the adapter call
  that follows it raises.

The decoding functions thread that cache through the traversal in Python's
evaluation order. The imperative methods `FormatRow`, `FormatCell` and
`CreateRowset` are proved equal to those functions. Module `CacheSoundness`
proves when the cache is harmless: if every value of an oid is always, or never,
a string, then decoding with a warm cache gives exactly what a reference decoder
gives that consults psycopg2 afresh for every value.

## Model

| member | source | states |
|---|---|---|
| Json.Subscript | akiban/impl.py:52-60 | A string key on a dict yields the entry when the key is present and raises KeyError(key) when it is absent; a string key on anything else raises TypeError; an integer or bool index on a list yields the item at the normalised position, or IndexError out of range |
| Json.Iterate | akiban/impl.py:35-37 | A list iterates as its items and a string as its one-character strings; only lists, strings and the empty dict iterate, and every failure is TypeError |
| Json.HashKey | akiban/psycopg2.py:105 | True is the dict key 1 and False the key 0; every other key is itself |
| Json.Position | akiban/impl.py:52 | A Python index is valid exactly when it lies in -len..len-1 |
| FieldSchema.FieldsOf | akiban/impl.py:66-83 | For a list, extraction succeeds exactly when every record extracts, and then yields one record per metadata record, entry i being record i built at position i; any other iterable yields the empty list or fails |
| FieldSchema.RecordsOf | akiban/impl.py:66-83 | Extraction yields exactly one record per metadata record, entry i being record i built at position i, and it fails only if some record fails |
| FieldSchema.RecordOf | akiban/impl.py:69-81 | A built record copies the name, numbers the record by `attrnum`, has the constants None/None/-1/-1, and takes oid 5001 with the extracted `columns` list when `columns` is present, the record's `oid` otherwise; a non-dict raises TypeError, a missing `name` raises KeyError('name') and a missing `oid` (without `columns`) KeyError('oid') |
| FieldSchema.FieldsOfDescribes | akiban/impl.py:66-83 | Every extracted list is record for record as intended: the name is copied; `column_attrnum` is the position within its own level (restarting at 0 in nested levels); the constants are None/None/-1/-1; `columns` takes precedence and gives oid 5001 with the recursive list; otherwise the record's `oid` is used and there is no `akiban.fields` |
| FieldSchema.DescribedIsExtracted | akiban/impl.py:66-83 | Conversely, every list that describes the metadata that way is what extraction returns |
| FieldSchema.MissingOidAndColumnsFails | akiban/impl.py:77-81 | A record with neither `columns` nor `oid` makes extraction fail; when it has a name, its own error is KeyError('oid'), and extraction's error is KeyError('oid') when no earlier record fails |
| FieldSchema.RecordsErrorPersists | akiban/impl.py:68 | Once a prefix of the records fails, extraction fails with that error |
| FieldSchema.FormatFields | akiban/impl.py:66-83 | The imperative loop returns exactly the extraction function's result, errors included |
| AdapterCache.Apply | akiban/psycopg2.py:124-129 | A None entry passes the value through; a typecaster converts it, or raises AdapterError(value) exactly when it rejects the value |
| AdapterCache.FirstEntry | akiban/psycopg2.py:111-122 | A non-string value gives None; there is no decision exactly for a string whose oid has no registered typecaster; a stored typecaster is the registered one and is never psycopg2's STRING |
| AdapterCache.CastOf | akiban/psycopg2.py:100-129 | typecast only grows the cache and never overwrites an entry, and adds no key but the oid's; the oid has an entry afterwards when the call returns and also when the adapter call raises; the other failures (an unhashable oid, an unregistered string oid) leave the cache as it was; a hit leaves it as it was |
| AdapterCache.CacheHit | akiban/psycopg2.py:102-105 | On a hit the result is the cached entry applied to the value (which may raise in the adapter) and the cache is unchanged; whether the value is a string is not looked at |
| AdapterCache.FirstSight | akiban/psycopg2.py:106-129 | On a miss, the entry stored is the first-sight decision and the result is that entry applied, even when applying it raises; an unregistered string oid raises KeyError and stores nothing |
| AdapterCache.FirstSightCases | akiban/psycopg2.py:111-129 | Case by case: a non-string caches None and passes through; a string with the STRING caster caches None and passes through; any other caster is cached and then applied, its exception surfacing with the entry kept |
| AdapterCache.ConsistentRepresentationIsSound | akiban/psycopg2.py:106-110 | When the value has the representation that filled the entry, a warm lookup gives the cold result |
| AdapterCache.MixedRepresentationSkipsAdapter | akiban/psycopg2.py:106-110 | When an oid is first seen with a non-string, a later string of that oid skips the adapter that a cold lookup would apply |
| AdapterCache.AdapterTable.constructor | akiban/psycopg2.py:70-71 | The shared cache starts empty |
| ResultContexts.Psycopg2ResultContext.Typecast | akiban/psycopg2.py:100-129 | The method's result and the new cache equal CastOf of the old cache |
| ResultContexts.Psycopg2ResultContext.constructor | akiban/impl.py:16-22 | The context stores its driver, the shared cache, the fields and the cursor's arraysize |
| ResultContexts.NewContext | akiban/impl.py:16-26 | The context exists exactly when the first row's metadata extracts; its fields are the extracted list, and extraction's error is raised otherwise |
| ResultContexts.Psycopg2ResultContext.Description | akiban/psycopg2.py:82-84 | `description` has one 7-tuple per field of the result set, in order: name, type oid and five Nones |
| ResultContexts.Psycopg2ResultContext.AkibanDescription | akiban/psycopg2.py:86-88 | `akiban_description` is parallel to `description` at every depth: each 8-tuple starts with the 7-tuple of the same field, and carries the nested description exactly when the field has `akiban.fields` |
| Descriptions.GenDescription | akiban/psycopg2.py:75-80 | One 7-tuple per field in order: the name, the type oid and five Nones |
| Descriptions.GenAkibanDescription | akiban/psycopg2.py:90-98 | One 8-tuple per field in order; each starts with that field's 7-tuple and has an 8th element exactly when the field has `akiban.fields` |
| Descriptions.AkibanEntry | akiban/psycopg2.py:92-96 | A field's 8-tuple starts with its 7-tuple, and for a nested table carries one entry per nested field |
| Descriptions.AkibanExtendsFlat | akiban/psycopg2.py:86-98 | At every depth, each 8-tuple starts with the flat 7-tuple of its field; its 8th element is present exactly when the field has `akiban.fields`, and it is then the description of those fields |
| Descriptions.AkibanEntryExtendsFlat | akiban/psycopg2.py:90-98 | The same for the 8-tuple of a single field |
| Descriptions.DescriptionOfMetadata | akiban/psycopg2.py:75-80 | After extraction, the description names each metadata record and reports its oid, or 5001 for a record with `columns` |
| RowDecoder.CellOf | akiban/impl.py:42-62 | Decoding one entry only grows the adapter cache |
| RowDecoder.RowOf | akiban/impl.py:40-64 | A decoded tuple has one entry per field, and the cache only grows |
| RowDecoder.RowsetOf | akiban/impl.py:34-38 | A decoded rowset has one row per child document, and the cache only grows |
| RowDecoder.CreateRowsetOf | akiban/impl.py:34-38 | Building a rowset only grows the cache |
| RowDecoder.RowEntries | akiban/impl.py:41-64 | Entry i of the tuple is field i decoded after fields 0..i-1; nothing is skipped or reordered |
| RowDecoder.RowsetEntries | akiban/impl.py:34-38 | Row j of a nested cursor is the j-th child document decoded, in order |
| RowDecoder.CellMeaning | akiban/impl.py:43-62 | A nested entry is a cursor with the context's arraysize, the field's `akiban.fields` and one row per child of `document[name]` (exactly the decoded rowset); a scalar entry is `typecast(document[name], type_oid)`; the key must exist |
| RowDecoder.MissingKeyFails | akiban/impl.py:52-60 | A document without the key of some field cannot be decoded |
| RowDecoder.ScalarOidsCached | akiban/impl.py:59-61 | After a successful decode, every scalar field's oid is in the cache |
| RowDecoder.RowPrefixExtends | akiban/impl.py:41-63 | The cache after field k-1 is extended by the rest of the row |
| RowDecoder.RowErrorPersists | akiban/impl.py:42-63 | Once a prefix of the fields fails, the row fails with that error |
| RowDecoder.RowsetErrorPersists | akiban/impl.py:35-37 | Once a prefix of the children fails, the rowset fails with that error |
| RowDecoder.FormatRow | akiban/impl.py:40-64 | The loop's result and new cache equal the decoding function's |
| RowDecoder.FormatCell | akiban/impl.py:42-63 | One loop iteration equals the cell function, in Python's evaluation order (`akiban.fields`, then `document[name]`, then the rowset) |
| RowDecoder.CreateRowset | akiban/impl.py:34-38 | The comprehension's result and new cache equal the rowset function's |
| RowDecoder.FilterRow | akiban/impl.py:28-32 | None gives None and leaves the context untouched; a document is decoded against the context's own fields |
| CacheSoundness.CastAgrees | akiban/psycopg2.py:100-129 | A typecast that respects the representation gives the cold result and keeps the cache consistent |
| CacheSoundness.WarmCellIsCold | akiban/impl.py:42-62 | Under a consistent cache and uniform representations, an entry decodes exactly as the reference decoder decodes it, and the cache stays consistent |
| CacheSoundness.WarmRowIsCold | akiban/impl.py:40-64 | The same for a whole tuple |
| CacheSoundness.WarmCreateRowsetIsCold | akiban/impl.py:34-38 | The same for a nested rowset |
| CacheSoundness.WarmRowsetIsCold | akiban/impl.py:34-38 | The same for a list of child documents |
| CacheSoundness.ColdStartIsSound | akiban/psycopg2.py:106-110 | From an empty cache, uniform representations alone make decoding equal to the reference decoder |
| DecoderFixture.ItemFixture | tests/test_psycopg2.py:170-194 | An item document decodes to its single integer under a warm INTEGER cache |
| DecoderFixture.OneItemFixture | tests/test_psycopg2.py:170-194 | A one-item list decodes to one item row |
| DecoderFixture.TwoItemsFixture | tests/test_psycopg2.py:170-194 | A two-item list decodes to two item rows, in order |
| DecoderFixture.OrderFixture | tests/test_psycopg2.py:170-194 | An order decodes to its id and a cursor with the context's arraysize over its decoded items |
| DecoderFixture.SingleItemOrder | tests/test_psycopg2.py:170-194 | An order with one item decodes to its id and a cursor over that one item row |
| DecoderFixture.ThreeOrdersFixture | tests/test_psycopg2.py:170-194 | Three decoded orders form a rowset of three rows, in order |
| DecoderFixture.CustomerFixture | tests/test_psycopg2.py:170-194 | A customer decodes to its id and a cursor over its decoded orders, from an empty or a warm cache, and the cache ends holding exactly INTEGER to None |
| DecoderFixture.MultipleNestFixture | tests/test_psycopg2.py:150-194 | The three customers of the test decode to exactly the expected nested rows (customer 1: orders 101 with items 1001 and 1002, 102 with 1003, 103 with 1004; customer 2: 104-106 with 1005-1007; customer 3: 107 with 1008 and 1009, 108 with 1010, 109 with 1011), the first from an empty cache and the others against the cache it left |
| NestedCursors.TakeOne | akiban/api.py:19-23 | `fetchone` returns None exactly on an empty buffer, which stays empty; otherwise the row returned followed by the new buffer is the old buffer |
| NestedCursors.FetchSize | akiban/api.py:30-32 | `fetchmany` uses the given size, or `arraysize` when the size is None |
| NestedCursors.TakeMany | akiban/api.py:33-34 | What is returned, followed by the new buffer, is the old buffer, and `min(size, len)` rows are returned |
| NestedCursors.FetchOneDrainsInOrder | akiban/api.py:19-23 | N+k `fetchone` calls over N rows return the rows in order, then k Nones |
| NestedCursors.FetchManyIsLossless | akiban/api.py:30-35 | Successive `fetchmany` calls neither lose nor duplicate rows |
| NestedCursors.FetchManyFixture | tests/test_cursor.py:47-66 | Over 20 rows with arraysize 12, sizes 5, default and 10 return rows 0-4, 5-16 and 17-19 and empty the buffer |
| NestedCursors.NestedCursor.constructor | akiban/api.py:8-13 | A new cursor stores arraysize, fields and factory, and its buffer is empty |
| NestedCursors.NestedCursor.Extend | akiban/impl.py:50-56 | The decoder's `_rows.extend` appends the rows after the existing ones |
| NestedCursors.NestedCursor.FetchOne | akiban/api.py:19-23 | Removes and returns the front row, or None on an empty buffer |
| NestedCursors.NestedCursor.FetchAll | akiban/api.py:25-28 | Returns the remaining rows in order and empties the buffer |
| NestedCursors.NestedCursor.FetchMany | akiban/api.py:30-35 | Returns the first `min(size, len)` rows (size defaults to arraysize) and keeps the rest |
| NestedCursors.NestedCursor.Description | akiban/api.py:15-17 | `description` is the factory applied to the cursor's stored fields; it is a read of the cursor and cannot change the buffer |
| NestedCursors.FixtureClient | tests/test_cursor.py:7-77 | On the 20-row fixture with arraysize 12: the description is the test's factory's, `[("id", NUMBER, None x5), ("value", STRING, None x5)]`; 22 `fetchone` calls give the rows in order and then two Nones; `fetchall` gives every row, then `[]`; `fetchmany(2)` on the emptied buffer gives `[]` (as test_psycopg2.py:252 expects); `fetchmany(5)`, `fetchmany()`, `fetchmany(10)` give rows 0-4, 5-16 and 17-19 |
| Connections.Statement | akiban/psycopg2.py:149-151 | The statement names `json_with_meta_data` exactly for nested mode and `table` exactly for table mode |
| Connections.Mode | akiban/psycopg2.py:147-153 | After a series of requests the connection is in the mode last requested, or in its starting mode when there was none |
| Connections.Issued | akiban/psycopg2.py:147-153 | Every statement issued is for a mode some request asked for |
| Connections.IssuedAlternates | akiban/psycopg2.py:133-153 | At most one statement per request; the first statement leaves the starting mode, each later one reverses the previous one, and the last one names the current mode |
| Connections.RepeatIsSilent | akiban/psycopg2.py:148 | Asking for the current mode again issues no statement |
| Connections.Connection.constructor | akiban/psycopg2.py:133-135 | A new connection is in table mode and has issued nothing |
| Connections.Connection.SetOutputFormat | akiban/psycopg2.py:147-153 | Afterwards the mode is the requested one; the switching statement is logged exactly when the mode changed |
| Connections.IssuedStep | akiban/psycopg2.py:147-153 | One more request appends the statement for its mode exactly when it differs from the current mode |
| Connections.OpenCursors | akiban/psycopg2.py:140-153 | After successive `cursor(nested)` calls the connection is in the mode `Mode` gives, and its log has gained exactly the statements for the modes `Issued` lists, the series that IssuedAlternates is about |

## Left out

- JSON text parsing (`json_decoder.decode`) is a library call. `_fields_from_row` and `_filter_row` take the already-parsed document.
- Floating-point JSON numbers are not modelled; numbers are integers.
- Json.Iterate: iterating a non-empty dict is a TypeError in the model. Python iterates its keys in no fixed order. For schema extraction the result is the same, because the first `rec['name']` on a key string raises TypeError. A nested field whose value is a non-empty dict and whose own field list is empty would decode in Python to one empty tuple per key; the model reports TypeError instead.
- RowDecoder.CellOf: a decoded nested cursor is the value `Cursor(arraysize, fields, rows)`. It does not create and extend a `NestedCursor` object. The identity of those objects and their `ctx` back-reference are not modelled. The draining of a cursor is modelled by the class `NestedCursors.NestedCursor`, and its `Extend` stands for the decoder's `_rows.extend`.
- ResultContexts.Psycopg2ResultContext: `arraysize` is a field set at construction. The source reads the top-level cursor's `arraysize` on every access; that cursor is not part of this model.
- The psycopg2 `Cursor` subclass and `_super_cursor` are left out. They delegate to the C driver and the network. `Connections.OpenCursors` models only the output-format side of `Connection.cursor`: the statement a cursor would execute is logged, and no cursor is created.
- The bool `register_adapter` call is a foreign library registration and is left out.
- The concrete psycopg2 typecasters and `string_types` are abstract: adapters are opaque ids in a map. A successful adapter call is the uninterpreted value `Adapted(adapter, value)`. Which values a typecaster rejects is the driver's abstract predicate `rejects`, and every exception it raises is the one error `AdapterError(value)`.
- `NESTED_CURSOR` in akiban/api.py is a bare `object()`. The model states nothing about it. Only `_NESTED_OID == 5001` is modelled.
- NestedCursors.NestedCursor.FetchMany: sizes are natural numbers. Python's behaviour for negative slice bounds is not modelled.
- Connections.Connection.SetOutputFormat: the source compares with `is not`, which equals inequality only for the bool singletons. The model takes a bool.
- A `close()` method for `NestedCursor` does not exist in akiban/api.py. The model follows the code.
- AdapterCache.CastOf: the oid is not always in the cache afterwards. When a string value's oid has no typecaster registered, `string_types[oid]` raises KeyError before anything is stored, and an unhashable oid raises TypeError at the first lookup.
