# TupleDesc — a verified model of simpledb's tuple schema descriptor

`TupleDesc` describes the schema of a tuple in simpledb: an ordered list of
fields, each a `TDItem` of a field type and a name that may be null. The model
keeps the source's shape:

- `wrappers.dfy` — `Option` (a Java reference that may be null) and `Result`
  (a value, or the exception raised instead).
- `tuple_desc.dfy` — module `Storage`: an abstract `FieldType` with equality
  only (it stands for `simpledb.common.Type`), the `TDItem` value, the
  exceptions as `Error`, and the class `TupleDesc`. The class's one piece of
  state is `items: seq<TDItem>`, the Java `List<TDItem> tdItems`. Both
  constructors fill it in a loop, and `Merge` appends onto it in place.
  `FieldNameToIndex` and `Equals` are index loops with early exits. The
  read-only accessors are functions that read `this`. The pure functions
  `Types`, `SameSchema` and `IndexOfName` are the specifications the
  methods and lemmas are stated against.

Where the documentation and the code disagree, the model follows the code:

- Neither constructor rejects an empty type array, although the doc-comment
  says it "must contain at least one entry".
- `GetSize` returns the field count, although the doc-comment promises a width
  in bytes.
- `Merge` changes `td1` in place and returns that same object. For the case
  `td1 == td2` the model assumes the OpenJDK `ArrayList.addAll`, which copies
  the argument before appending, so `td1`'s fields are doubled; the `List`
  contract itself leaves adding a non-empty list to itself undefined.

## Model

| member | source | states |
|---|---|---|
| `Storage.TupleDesc.Named` | src/java/simpledb/storage/TupleDesc.java:57-70 | the schema has `typeAr.Length` fields, and field i has type `typeAr[i]` and name `fieldAr[i]`, in array order; an empty array is accepted |
| `Storage.TupleDesc.Anonymous` | src/java/simpledb/storage/TupleDesc.java:72-85 | the schema has `typeAr.Length` fields, and field i has type `typeAr[i]` and a null name |
| `Storage.TupleDesc.NumFields` | src/java/simpledb/storage/TupleDesc.java:87-94 | the field count is the number of field types of the schema |
| `Storage.SameFieldsIsStricter` | src/java/simpledb/storage/TupleDesc.java:180 | the name-sensitive equality named in the implementer's comment implies the documented types-only equality, and two schemas differing only in a name show the converse fails |
| `Storage.TupleDesc.GetFieldName` | src/java/simpledb/storage/TupleDesc.java:96-111 | succeeds exactly when `0 <= i < NumFields()`, with field i's (possibly null) name; otherwise raises NoSuchElement; reads only, so the schema is unchanged |
| `Storage.TupleDesc.GetFieldType` | src/java/simpledb/storage/TupleDesc.java:113-127 | succeeds exactly when `0 <= i < NumFields()`, with the i-th entry of the schema's type sequence; otherwise raises NoSuchElement; reads only |
| `Storage.IndexOfName` | src/java/simpledb/storage/TupleDesc.java:129-147 | the lowest index whose field is named `name`, no field before it having that name; None exactly when no field has the name; a null field name never matches |
| `Storage.TupleDesc.FieldNameToIndex` | src/java/simpledb/storage/TupleDesc.java:137-147 | a null name raises IllegalArgument; otherwise the result is the first matching index of `IndexOfName`, or NoSuchElement when no field matches |
| `Storage.TupleDesc.GetSize` | src/java/simpledb/storage/TupleDesc.java:87-155 | the result equals `NumFields()`, the number of field types, as the code computes it; the doc-comment at lines 149-152 speaks of a width in bytes instead |
| `Storage.TupleDesc.Merge` | src/java/simpledb/storage/TupleDesc.java:157-172 | returns `td1` itself; a null or empty `td2` leaves `td1`'s fields as they were; otherwise `td1`'s fields become its old fields followed by `td2`'s old fields, so it has `td1.numFields + td2.numFields` fields; `td2` changes only when it is `td1` |
| `Storage.IndexOfNameInMerge` | src/java/simpledb/storage/TupleDesc.java:137-172 | name lookup in a merged schema finds the left schema's field first; a right-hand match is found at its index shifted by the left field count |
| `Storage.MergePreservesSameSchema` | src/java/simpledb/storage/TupleDesc.java:157-178 | merging schemas that are pairwise equal under the documented equality gives equal schemas |
| `Storage.Types` | src/java/simpledb/storage/TupleDesc.java:174-178 | the type sequence has one entry per field, the i-th being field i's type; the documented equality compares exactly this |
| `Storage.SameSchemaIffSameTypes` | src/java/simpledb/storage/TupleDesc.java:174-178 | two schemas are equal under the documented contract exactly when their type sequences are equal, so names are ignored |
| `Storage.SameSchemaIsEquivalence` | src/java/simpledb/storage/TupleDesc.java:174-178 | the documented equality is reflexive, symmetric and transitive |
| `Storage.TupleDesc.EqualsAsWritten` | src/java/simpledb/storage/TupleDesc.java:187-203 | the code as written answers false for every argument: non-TupleDesc, different size, and same size alike |
| `Storage.EqualsAsWrittenRejectsItself` | src/java/simpledb/storage/TupleDesc.java:187-203 | a schema is unequal to itself under the code as written, although the documented equality holds |
| `Storage.TupleDesc.Equals` | src/java/simpledb/storage/TupleDesc.java:174-203 | true exactly when the argument is a TupleDesc with as many fields and equal i-th types for every i; false for a non-TupleDesc or null argument and for a different field count |

## Left out

- Java serialization (`Serializable`, `serialVersionUID`) has no logic to model.
- `hashCode` only throws UnsupportedOperationException; it is not modelled.
- `toString` of `TupleDesc` returns the empty string, and `TDItem.toString`
  depends on `Type.toString`; string formatting is not modelled.
- `simpledb.common.Type` is not part of this model: `FieldType` is abstract
  with equality only, so no byte widths exist to sum for `GetSize`.
- The `Iterator` protocol of `iterator()` is not modelled; the field `items`
  is the ordered item sequence it would traverse.
- `Storage.TupleDesc.Named`: requires `fieldAr.Length >= typeAr.Length`; with
  a shorter name array the Java loop would throw ArrayIndexOutOfBoundsException
  part-way, and that path is not modelled.
- `Storage.TupleDesc.Merge`: requires a non-null `td1`; with null `td1` and a
  non-empty `td2` the Java code throws NullPointerException. With a null `td1` and a
  null or empty `td2`, Java returns null without raising; that case is not
  modelled either.
- Null arrays are not modelled: the constructors take non-null arrays. In Java
  a null `typeAr` throws NullPointerException, and so does a null `fieldAr`
  with a non-empty `typeAr`; a null `fieldAr` with an empty `typeAr` gives an
  empty schema.
- Counts and indices are unbounded `nat`/`int`; Java's 32-bit `int` limit on
  the number of fields is not modelled.

## Findings

| source | as written | input that shows it | evidently intended | confidence | as-written member | corrected member |
|---|---|---|---|---|---|---|
| src/java/simpledb/storage/TupleDesc.java:187-203 | `equals` returns false on every path; the comparison loop fetches both items and compares nothing | any descriptor compared with itself, e.g. `td.equals(td)` | per the doc-comment at lines 174-178 (not the name-sensitive comment at line 180): true when the other object is a TupleDesc with as many fields and the i-th types equal for every i | not executed | `Storage.TupleDesc.EqualsAsWritten` (with `Storage.EqualsAsWrittenRejectsItself`) | `Storage.TupleDesc.Equals` (with `Storage.SameSchemaIsEquivalence`) |

The source states two intentions for `equals`. The doc-comment at lines
174-178 compares the field count and the i-th types only; the implementer's
comment at line 180 asks for equal types and equal names. The corrected
`Storage.TupleDesc.Equals` follows lines 174-178, not line 180.
`Storage.SameFields` is the name-sensitive reading, and
`Storage.SameFieldsIsStricter` shows it implies the documented one but not
conversely. The finding holds under either reading: `td.equals(td)` should
be true under both.
