/** What the two admin edit modals share: a record held as a form, with one
    list-valued field edited as a textarea of lines. */
module ModalForm {
  import opened Common
  import opened Text
  import opened Lists

  /** A list of strings as JSON. */
  function JStrs(ss: seq<string>): (r: seq<Json>)
    ensures |r| == |ss| && forall k :: 0 <= k < |r| ==> r[k] == JStr(ss[k])
  {
    seq(|ss|, k requires 0 <= k < |ss| => JStr(ss[k]))
  }

  /** The list field of a record, when it is an array of strings. */
  datatype ListField = List(items: seq<string>) | NotAList

  predicate AllStrings(items: seq<Json>)
  {
    forall k :: 0 <= k < |items| ==> items[k].JStr?
  }

  /** `Array.isArray(record[key])`, for arrays of strings. */
  function ListOf(record: map<string, Json>, key: string): (r: ListField)
    ensures key in record && record[key].JArr? && AllStrings(record[key].items) ==>
      r.List? && JStrs(r.items) == record[key].items
    ensures r.List? ==> key in record && record[key] == JArr(JStrs(r.items))
  {
    if key in record && record[key].JArr? && AllStrings(record[key].items) then
      var items := record[key].items;
      var strs := seq(|items|, k requires 0 <= k < |items| => items[k].s);
      assert JStrs(strs) == items;
      List(strs)
    else NotAList
  }

  /** `Array.isArray(v) ? v.join('\n') : ''`. */
  function LinesToText(v: ListField): string
  {
    if v.List? then Join(v.items, '\n') else ""
  }

  /** `x.trim() !== ''` (see `NonBlankIsTrimTest`). */
  predicate NonBlank(x: string)
  {
    !IsBlank(x)
  }

  /** The filter's test: a line is kept exactly when trimming leaves
      something. */
  lemma NonBlankIsTrimTest(x: string)
    ensures NonBlank(x) <==> Trim(x) != ""
  {
  }

  /** `text.split('\n').filter(x => x.trim() !== '')`. */
  function TextToLines(text: string): seq<string>
  {
    Filter(Split(text, '\n'), NonBlank)
  }

  /** The form: every field of the record, with the list field replaced by
      the textarea text `lines`. */
  datatype Form = Form(fields: map<string, Json>, lines: string)

  /** `{ ...record, [key]: join }`: the record loaded into the form. */
  function Load(record: map<string, Json>, key: string): Form
  {
    Form(record - {key}, LinesToText(ListOf(record, key)))
  }

  /** `{ ...formData, [key]: split-filter }`: what `onSave` receives. */
  function Payload(f: Form, key: string): map<string, Json>
  {
    f.fields[key := LinesValue(f.lines)]
  }

  /** The submitted list field, as JSON. */
  function LinesValue(lines: string): Json
  {
    JArr(JStrs(TextToLines(lines)))
  }

  // ---- Properties ----

  /** The submitted list is an order-preserving sub-list of the textarea's
      lines holding exactly its non-blank lines, untrimmed. */
  lemma TextToLinesSpec(text: string)
    ensures var r := TextToLines(text); var pieces := Split(text, '\n');
      && IsSubsequence(r, pieces)
      && (forall k :: 0 <= k < |r| ==> NonBlank(r[k]) && '\n' !in r[k])
      && (forall x :: x in r <==> x in pieces && NonBlank(x))
  {
    var r := TextToLines(text);
    var pieces := Split(text, '\n');
    forall x
      ensures x in r <==> x in pieces && NonBlank(x)
    {
      FilterMembers(pieces, NonBlank, x);
    }
    forall k | 0 <= k < |r|
      ensures '\n' !in r[k]
    {
      FilterMembers(pieces, NonBlank, r[k]);
    }
  }

  /** Every entry is one non-blank line. */
  predicate Editable(items: seq<string>)
  {
    forall k :: 0 <= k < |items| ==> '\n' !in items[k] && NonBlank(items[k])
  }

  /** Joining a list of non-blank, one-line entries and splitting it again
      gives the list back; the empty list comes back empty. */
  lemma {:induction false} LinesRoundTrip(items: seq<string>)
    requires Editable(items)
    ensures TextToLines(LinesToText(List(items))) == items
  {
    if items == [] {
      assert Split("", '\n') == [""];
      assert Filter([""], NonBlank) == Filter([""][1..], NonBlank);
    } else {
      SplitJoin(items, '\n');
      FilterAll(items, NonBlank);
    }
  }

  /** A field that is not a list loads as the empty text and submits as the
      empty list. */
  lemma NotAListSubmitsEmpty(record: map<string, Json>, key: string)
    requires ListOf(record, key).NotAList?
    ensures Load(record, key).lines == ""
    ensures Payload(Load(record, key), key)[key] == JArr([])
  {
    assert Split("", '\n') == [""];
    assert Filter([""], NonBlank) == Filter([""][1..], NonBlank);
  }

  /** The payload carries every other field of the form unchanged. */
  lemma PayloadKeepsFields(f: Form, key: string)
    ensures Payload(f, key).Keys == f.fields.Keys + {key}
    ensures forall k :: k in f.fields && k != key ==> Payload(f, key)[k] == f.fields[k]
    ensures Payload(f, key)[key] == JArr(JStrs(TextToLines(f.lines)))
  {
    var p := f.fields[key := LinesValue(f.lines)];
    assert p.Keys == f.fields.Keys + {key};
  }

  /** Submitting a record's form unchanged puts the record's list back
      exactly when the list survives the textarea. */
  lemma PayloadOfLoad(record: map<string, Json>, key: string, lines: string)
    requires key in record && record[key] == LinesValue(lines)
    ensures Payload(Form(record - {key}, lines), key) == record
  {
    var p := (record - {key})[key := record[key]];
    assert p.Keys == record.Keys;
    forall k | k in p
      ensures p[k] == record[k]
    {
    }
  }

  /** Loading a record whose list has only non-blank one-line entries and
      submitting it unchanged gives the same record back. */
  lemma RecordRoundTrip(record: map<string, Json>, key: string)
    requires ListOf(record, key).List?
    requires Editable(ListOf(record, key).items)
    ensures Payload(Load(record, key), key) == record
  {
    var items := ListOf(record, key).items;
    LinesRoundTrip(items);
    PayloadOfLoad(record, key, LinesToText(List(items)));
  }
}
