/** The schema of a tuple: an ordered list of (type, optional name) fields,
    as described by simpledb.storage.TupleDesc. */
module Storage {
  import opened Wrappers

  /** simpledb.common.Type: a field type that the schema only compares for equality. */
  type FieldType(==)

  /** One field of a schema; a name of None is a Java null (an anonymous field). */
  datatype TDItem = TDItem(fieldType: FieldType, fieldName: Option<string>)

  /** The exceptions a TupleDesc operation raises. */
  datatype Error = NoSuchElement | IllegalArgument

  /** The field types of a schema, in order. */
  function Types(items: seq<TDItem>): (ts: seq<FieldType>)
    ensures |ts| == |items|
    ensures forall i :: 0 <= i < |items| ==> ts[i] == items[i].fieldType
  {
    if items == [] then [] else [items[0].fieldType] + Types(items[1..])
  }

  /** The documented equality of two schemas: as many fields, and the i-th types
      equal for every i. Names play no part. */
  predicate SameSchema(a: seq<TDItem>, b: seq<TDItem>)
  {
    |a| == |b| && forall i :: 0 <= i < |a| ==> a[i].fieldType == b[i].fieldType
  }

  /** A stricter, name-sensitive reading of equality: as many fields, and the
      i-th types and the i-th names equal for every i. */
  predicate SameFields(a: seq<TDItem>, b: seq<TDItem>)
  {
    |a| == |b| && forall i :: 0 <= i < |a| ==> a[i].fieldType == b[i].fieldType && a[i].fieldName == b[i].fieldName
  }

  /** The name-sensitive reading implies the documented one, but not the converse:
      two one-field schemas of the same type named "a" and "b" differ only there. */
  lemma SameFieldsIsStricter(a: seq<TDItem>, b: seq<TDItem>, t: FieldType)
    ensures SameFields(a, b) ==> SameSchema(a, b)
    ensures SameSchema([TDItem(t, Some("a"))], [TDItem(t, Some("b"))])
    ensures !SameFields([TDItem(t, Some("a"))], [TDItem(t, Some("b"))])
  {
    assert [TDItem(t, Some("a"))][0].fieldName != [TDItem(t, Some("b"))][0].fieldName;
  }

  /** The index of the first field called `name`, if any; a field without a name
      never matches. */
  function IndexOfName(items: seq<TDItem>, name: string): (r: Option<nat>)
    ensures r.Some? ==> r.value < |items| && items[r.value].fieldName == Some(name)
    ensures r.Some? ==> forall j :: 0 <= j < r.value ==> items[j].fieldName != Some(name)
    ensures r.None? ==> forall j :: 0 <= j < |items| ==> items[j].fieldName != Some(name)
  {
    if items == [] then None
    else if items[0].fieldName == Some(name) then Some(0)
    else match IndexOfName(items[1..], name)
      case None => None
      case Some(k) => Some(k + 1)
  }

  class TupleDesc {
    /** The fields in order; read directly where the source hands out an iterator. */
    var items: seq<TDItem>

    /** A schema with typeAr.Length fields, the i-th of type typeAr[i] named fieldAr[i]. */
    constructor Named(typeAr: array<FieldType>, fieldAr: array<Option<string>>)
      requires fieldAr.Length >= typeAr.Length
      ensures NumFields() == typeAr.Length
      ensures forall i :: 0 <= i < typeAr.Length ==>
                GetFieldType(i) == Success(typeAr[i]) && GetFieldName(i) == Success(fieldAr[i])
    {
      items := [];
      new;
      var i := 0;
      while i < typeAr.Length
        invariant 0 <= i <= typeAr.Length
        invariant |items| == i
        invariant forall j :: 0 <= j < i ==> items[j] == TDItem(typeAr[j], fieldAr[j])
      {
        items := items + [TDItem(typeAr[i], fieldAr[i])];
        i := i + 1;
      }
    }

    /** A schema with typeAr.Length anonymous fields, the i-th of type typeAr[i]. */
    constructor Anonymous(typeAr: array<FieldType>)
      ensures NumFields() == typeAr.Length
      ensures forall i :: 0 <= i < typeAr.Length ==>
                GetFieldType(i) == Success(typeAr[i]) && GetFieldName(i) == Success(None)
    {
      items := [];
      new;
      var i := 0;
      while i < typeAr.Length
        invariant 0 <= i <= typeAr.Length
        invariant |items| == i
        invariant forall j :: 0 <= j < i ==> items[j] == TDItem(typeAr[j], None)
      {
        items := items + [TDItem(typeAr[i], None)];
        i := i + 1;
      }
    }

    /** The number of fields: one per field type. */
    function NumFields(): (n: nat)
      reads this
      ensures n == |Types(items)|
    {
      |items|
    }

    /** The (possibly null) name of field i, or NoSuchElement when i is not a field. */
    function GetFieldName(i: int): (r: Result<Option<string>, Error>)
      reads this
      ensures r.Success? <==> 0 <= i < NumFields()
      ensures r.Success? ==> r.value == items[i].fieldName
      ensures r.Failure? ==> r.error == NoSuchElement
    {
      if i < 0 || i >= |items| then Failure(NoSuchElement) else Success(items[i].fieldName)
    }

    /** The type of field i, or NoSuchElement when i is not a field. */
    function GetFieldType(i: int): (r: Result<FieldType, Error>)
      reads this
      ensures r.Success? <==> 0 <= i < NumFields()
      ensures r.Success? ==> r.value == Types(items)[i]
      ensures r.Failure? ==> r.error == NoSuchElement
    {
      if i < 0 || i >= |items| then Failure(NoSuchElement) else Success(items[i].fieldType)
    }

    /** The index of the first field called `name`: IllegalArgument for a null name,
        NoSuchElement when no field has that name. */
    method FieldNameToIndex(name: Option<string>) returns (r: Result<nat, Error>)
      ensures name.None? ==> r == Failure(IllegalArgument)
      ensures name.Some? ==>
                r == (match IndexOfName(items, name.value)
                      case Some(i) => Success(i)
                      case None => Failure(NoSuchElement))
    {
      if name.None? {
        return Failure(IllegalArgument);
      }
      var i := 0;
      while i < |items|
        invariant 0 <= i <= |items|
        invariant forall j :: 0 <= j < i ==> items[j].fieldName != name
      {
        if items[i].fieldName == name {
          return Success(i);
        }
        i := i + 1;
      }
      return Failure(NoSuchElement);
    }

    /** As written, the number of fields (the documentation promises a width in bytes). */
    function GetSize(): (n: int)
      reads this
      ensures n == NumFields()
      ensures n == |Types(items)|
    {
      |items|
    }

    /** `that` appended onto `td1` in place; td1 itself is returned. A null or empty
        `that` leaves td1 as it was; `that` is only changed when it is td1 itself. */
    static method Merge(td1: TupleDesc, td2: TupleDesc?) returns (r: TupleDesc)
      modifies td1
      ensures r == td1
      ensures td2 == null ==> td1.items == old(td1.items)
      ensures td2 != null ==> td1.items == old(td1.items) + old(td2.items)
      ensures td2 != null && td2 != td1 ==> td2.items == old(td2.items)
    {
      if td2 == null || td2.GetSize() == 0 {
        return td1;
      }
      td1.items := td1.items + td2.items;
      return td1;
    }

    /** Equality as the source implements it: every path answers false. */
    function EqualsAsWritten(o: object?): (b: bool)
      reads this, o
      ensures !b
    {
      if !(o is TupleDesc) then false
      else if GetSize() != (o as TupleDesc).GetSize() then false
      else false
    }

    /** Equality as documented: `o` is a TupleDesc with as many fields, and the
        i-th types agree for every i; names are ignored. */
    method Equals(o: object?) returns (b: bool)
      ensures b <==> o is TupleDesc && SameSchema(items, (o as TupleDesc).items)
    {
      if !(o is TupleDesc) {
        return false;
      }
      var that := o as TupleDesc;
      if GetSize() != that.GetSize() {
        return false;
      }
      var i := 0;
      while i < |items|
        invariant 0 <= i <= |items|
        invariant forall j :: 0 <= j < i ==> items[j].fieldType == that.items[j].fieldType
      {
        if items[i].fieldType != that.items[i].fieldType {
          return false;
        }
        i := i + 1;
      }
      return true;
    }
  }

  /** Schemas are equal exactly when their type sequences are: names never matter. */
  lemma SameSchemaIffSameTypes(a: seq<TDItem>, b: seq<TDItem>)
    ensures SameSchema(a, b) <==> Types(a) == Types(b)
  {
  }

  /** The documented equality is an equivalence relation. */
  lemma SameSchemaIsEquivalence(a: seq<TDItem>, b: seq<TDItem>, c: seq<TDItem>)
    ensures SameSchema(a, a)
    ensures SameSchema(a, b) ==> SameSchema(b, a)
    ensures SameSchema(a, b) && SameSchema(b, c) ==> SameSchema(a, c)
  {
  }

  /** Merging equal schemas gives equal schemas. */
  lemma MergePreservesSameSchema(a: seq<TDItem>, b: seq<TDItem>, c: seq<TDItem>, d: seq<TDItem>)
    requires SameSchema(a, c) && SameSchema(b, d)
    ensures SameSchema(a + b, c + d)
  {
  }

  /** Looking a name up in a merged schema finds the left fields first: a name of
      the left schema hides the same name in the right one, whose indices are
      shifted by the left schema's field count. */
  lemma {:induction false} IndexOfNameInMerge(a: seq<TDItem>, b: seq<TDItem>, name: string)
    ensures IndexOfName(a + b, name) ==
              match IndexOfName(a, name)
              case Some(i) => Some(i)
              case None =>
                match IndexOfName(b, name)
                case Some(k) => Some(|a| + k)
                case None => None
  {
    if a == [] {
      assert a + b == b;
    } else {
      assert (a + b)[1..] == a[1..] + b;
      IndexOfNameInMerge(a[1..], b, name);
    }
  }

  /** The source's equality is not reflexive: a schema is unequal to itself,
      although the documented contract calls it equal. */
  lemma EqualsAsWrittenRejectsItself(td: TupleDesc)
    ensures !td.EqualsAsWritten(td)
    ensures SameSchema(td.items, td.items)
  {
  }
}
