/**
 * `createFormData`: flatten a record of request fields into the ordered list of
 * multipart entries a FormData builder receives, one key after another.
 */
module ApiFormData {
  import opened Common
  import opened Strings

  /** A value of the record handed to `createFormData`. */
  datatype FieldValue =
    | FileValue(file: FileRef)
    | ArrayValue(items: seq<FieldValue>)
    | ObjectValue(fields: seq<(string, FieldValue)>)
    | NullValue
    | UndefinedValue
    | StringValue(s: string)
    | NumberValue(n: real)
    | BooleanValue(b: bool)

  /**
   * What one `append` carries: a file, the `JSON.stringify` of a value (the
   * serialiser is not modelled, so the value itself is kept), or a value that
   * FormData converts to text on its own.
   */
  datatype Part = FilePart(file: FileRef) | JsonPart(json: FieldValue) | RawPart(raw: FieldValue)

  datatype FormEntry = FormEntry(name: string, part: Part)

  /** The name `key[index]` under which element `index` of a file array is appended. */
  function IndexedName(key: string, index: nat): string {
    key + "[" + NatToString(index) + "]"
  }

  /** An element of a file array is appended as it is: a file, or otherwise its text. */
  function ElementPart(v: FieldValue): Part {
    if v.FileValue? then FilePart(v.file) else RawPart(v)
  }

  /** The entries of a file array, from element `from` on. */
  function IndexedEntries(key: string, items: seq<FieldValue>, from: nat): (es: seq<FormEntry>)
    requires from <= |items|
    ensures |es| == |items| - from
    ensures forall j :: 0 <= j < |es| ==> es[j] == FormEntry(IndexedName(key, from + j), ElementPart(items[from + j]))
    decreases |items| - from
  {
    if from == |items| then []
    else [FormEntry(IndexedName(key, from), ElementPart(items[from]))] + IndexedEntries(key, items, from + 1)
  }

  /** The entries one key of the record contributes. */
  function EntriesFor(key: string, value: FieldValue): seq<FormEntry> {
    match value
    case FileValue(f) => [FormEntry(key, FilePart(f))]
    case ArrayValue(items) =>
      if |items| > 0 && items[0].FileValue? then IndexedEntries(key, items, 0)
      else [FormEntry(key, JsonPart(value))]
    case ObjectValue(_) => [FormEntry(key, JsonPart(value))]
    case _ => [FormEntry(key, RawPart(value))]
  }

  /** All entries of the record, key after key in the record's order. */
  function FormDataSpec(record: seq<(string, FieldValue)>): seq<FormEntry> {
    if |record| == 0 then [] else EntriesFor(record[0].0, record[0].1) + FormDataSpec(record[1..])
  }

  /** `createFormData(data)`: the `forEach` over the keys appending to the builder. */
  method CreateFormData(record: seq<(string, FieldValue)>) returns (entries: seq<FormEntry>)
    ensures entries == FormDataSpec(record)
  {
    entries := [];
    var k := 0;
    while k < |record|
      invariant 0 <= k <= |record|
      invariant entries + FormDataSpec(record[k..]) == FormDataSpec(record)
    {
      assert record[k..][1..] == record[k + 1..];
      var appended := AppendField(record[k].0, record[k].1);
      assert FormDataSpec(record[k..]) == appended + FormDataSpec(record[k + 1..]);
      entries := entries + appended;
      k := k + 1;
    }
    assert record[|record|..] == [];
  }

  /** The body of the `forEach`: the appends made for one key. */
  method AppendField(key: string, value: FieldValue) returns (appended: seq<FormEntry>)
    ensures appended == EntriesFor(key, value)
  {
    match value {
      case FileValue(f) =>
        appended := [FormEntry(key, FilePart(f))];
      case ArrayValue(items) =>
        if |items| > 0 && items[0].FileValue? {
          appended := AppendFiles(key, items);
        } else {
          appended := [FormEntry(key, JsonPart(value))];
        }
      case ObjectValue(_) =>
        appended := [FormEntry(key, JsonPart(value))];
      case _ =>
        appended := [FormEntry(key, RawPart(value))];
    }
  }

  /** `value.forEach((file, index) => formData.append(`${key}[${index}]`, file))`. */
  method AppendFiles(key: string, items: seq<FieldValue>) returns (appended: seq<FormEntry>)
    ensures appended == IndexedEntries(key, items, 0)
  {
    appended := [];
    var i := 0;
    while i < |items|
      invariant 0 <= i <= |items|
      invariant |appended| == i
      invariant forall j :: 0 <= j < i ==> appended[j] == FormEntry(IndexedName(key, j), ElementPart(items[j]))
    {
      appended := appended + [FormEntry(IndexedName(key, i), ElementPart(items[i]))];
      i := i + 1;
    }
  }

  /** Keys are handled in order: the entries of a record's first part come before those of the rest. */
  lemma {:induction false} FormDataAppend(a: seq<(string, FieldValue)>, b: seq<(string, FieldValue)>)
    ensures FormDataSpec(a + b) == FormDataSpec(a) + FormDataSpec(b)
  {
    if |a| == 0 {
      assert a + b == b;
    } else {
      assert (a + b)[1..] == a[1..] + b;
      FormDataAppend(a[1..], b);
    }
  }

  /**
   * A non-empty array whose first element is a file gives one entry per element,
   * named `key[0]`, `key[1]`, ..., all names distinct.
   */
  lemma FileArrayEntries(key: string, items: seq<FieldValue>)
    requires |items| > 0 && items[0].FileValue?
    ensures var es := EntriesFor(key, ArrayValue(items));
      |es| == |items|
      && (forall i :: 0 <= i < |es| ==> es[i].name == IndexedName(key, i) && es[i].part == ElementPart(items[i]))
      && (forall i, j :: 0 <= i < j < |es| ==> es[i].name != es[j].name)
  {
    forall i, j | 0 <= i < j < |items| ensures IndexedName(key, i) != IndexedName(key, j) {
      if IndexedName(key, i) == IndexedName(key, j) {
        IndexedNameInjective(key, i, j);
      }
    }
  }

  /** `key[i]` names different elements for different indices. */
  lemma IndexedNameInjective(key: string, i: nat, j: nat)
    requires IndexedName(key, i) == IndexedName(key, j)
    ensures i == j
  {
    var a, b := NatToString(i), NatToString(j);
    var n := |key| + 1;
    assert IndexedName(key, i) == (key + "[") + (a + "]");
    assert IndexedName(key, j) == (key + "[") + (b + "]");
    assert a + "]" == IndexedName(key, i)[n..];
    assert b + "]" == IndexedName(key, j)[n..];
    assert a == (a + "]")[..|a|];
    assert b == (b + "]")[..|b|];
    NatToStringInjective(i, j);
  }

  /** An array that is empty or does not start with a file, and any object, is sent as one JSON entry. */
  lemma JsonEncodedValues(key: string, value: FieldValue)
    requires (value.ArrayValue? && (|value.items| == 0 || !value.items[0].FileValue?)) || value.ObjectValue?
    ensures EntriesFor(key, value) == [FormEntry(key, JsonPart(value))]
  {
  }

  /** A file gives one entry under its own key; null, undefined and scalars are appended raw. */
  lemma SingleEntryValues(key: string, value: FieldValue)
    requires !value.ArrayValue? && !value.ObjectValue?
    ensures EntriesFor(key, value) == [FormEntry(key, if value.FileValue? then FilePart(value.file) else RawPart(value))]
  {
  }
}
