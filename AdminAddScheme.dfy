/**
 * The admin "Add New Scheme" form (client/src/pages/admin-add-scheme.tsx):
 * a record of field values updated one named field at a time, and the
 * submission step that turns the comma-separated documents and tags fields
 * into lists.
 */
module AdminAddScheme {
  import opened Wrappers
  import opened Text
  import opened Seqs

  /** A form field holds the raw text of an input, or the `checked` state of a checkbox. */
  datatype FieldValue = Text(text: string) | Flag(checked: bool)

  type Form = map<string, FieldValue>

  /** The fields the form starts with, in declaration order. */
  const TEXT_FIELDS: seq<string> := ["title", "description", "category", "amount", "eligibility", "deadline",
    "processingTime", "startDate", "endDate", "maxBeneficiaries", "documents", "applicationProcess", "benefits",
    "fundingSource", "contactPerson", "contactEmail", "contactPhone", "tags"]

  /** The initial form: every text field empty, `isActive` checked and the status ACTIVE. */
  function InitialForm(): (form: Form)
    ensures forall name :: name in TEXT_FIELDS ==> name in form && form[name] == Text("")
    ensures "isActive" in form && form["isActive"] == Flag(true)
    ensures "status" in form && form["status"] == Text("ACTIVE")
    ensures form.Keys == set name | name in TEXT_FIELDS + ["isActive", "status"]
  {
    var form := map name | name in TEXT_FIELDS :: Text("");
    form["isActive" := Flag(true)]["status" := Text("ACTIVE")]
  }

  /**
   * `handleChange`: a checkbox input stores its `checked` state under its
   * name, any other control its raw value; no other field changes. A name the
   * form does not have yet is added.
   */
  function HandleChange(form: Form, name: string, value: string, isCheckbox: bool, checked: bool): (r: Form)
    ensures r.Keys == form.Keys + {name}
    ensures forall k :: k in form && k != name ==> r[k] == form[k]
    ensures r[name] == if isCheckbox then Flag(checked) else Text(value)
  {
    if isCheckbox then form[name := Flag(checked)] else form[name := Text(value)]
  }

  /** Repeating an input event changes nothing more, and the second of two events on one field wins. */
  lemma HandleChangeOverwrites(form: Form, name: string, v1: string, v2: string, box: bool, c1: bool, c2: bool)
    ensures HandleChange(HandleChange(form, name, v1, box, c1), name, v2, box, c2) == HandleChange(form, name, v2, box, c2)
    ensures var once := HandleChange(form, name, v1, box, c1); HandleChange(once, name, v1, box, c1) == once
  {
  }

  predicate NonEmpty(s: string) { s != "" }

  function TrimAll(parts: seq<string>): (r: seq<string>)
    ensures |r| == |parts|
    ensures forall i :: 0 <= i < |r| ==> r[i] == Trim(parts[i])
  {
    seq(|parts|, i requires 0 <= i < |parts| => Trim(parts[i]))
  }

  /** `s.split(",").map((d) => d.trim()).filter(Boolean)`. */
  function ParseList(s: string): (r: seq<string>)
    ensures forall i :: 0 <= i < |r| ==> r[i] != "" && !IsWhiteSpace(r[i][0]) && !IsWhiteSpace(r[i][|r[i]| - 1])
    ensures forall i :: 0 <= i < |r| ==> ',' !in r[i]
  {
    var parts := Split(s, ',');
    var trimmed := TrimAll(parts);
    var r := Filter(NonEmpty, trimmed);
    assert forall i :: 0 <= i < |r| ==> r[i] in trimmed by {
      FilterMembership(NonEmpty, trimmed);
    }
    assert forall x :: x in trimmed ==> ',' !in x by {
      forall x | x in trimmed ensures ',' !in x {
        var i :| 0 <= i < |trimmed| && trimmed[i] == x;
        assert ',' !in parts[i];
      }
    }
    r
  }

  predicate IsEmptyText(s: string) { s == "" }

  /**
   * The entries are the trimmed pieces between commas, kept in input order:
   * every non-empty trimmed piece is an entry, and there are as many entries
   * as non-empty pieces, so only the empty ones are dropped.
   */
  lemma ParseListKeepsOrder(s: string)
    ensures IsSubsequence(ParseList(s), TrimAll(Split(s, ',')))
    ensures forall x :: x in ParseList(s) <==> x != "" && x in TrimAll(Split(s, ','))
    ensures |ParseList(s)| == |TrimAll(Split(s, ','))| - |Filter(IsEmptyText, TrimAll(Split(s, ',')))|
  {
    var trimmed := TrimAll(Split(s, ','));
    FilterIsSubsequence(NonEmpty, trimmed);
    FilterMembership(NonEmpty, trimmed);
    FilterComplementCount(NonEmpty, IsEmptyText, trimmed);
  }

  /** Input made only of commas and whitespace, the empty string among it, yields no entries. */
  lemma ParseListOfBlank(s: string)
    requires forall i :: 0 <= i < |s| ==> s[i] == ',' || IsWhiteSpace(s[i])
    ensures ParseList(s) == []
  {
    var parts := Split(s, ',');
    SplitPieceChars(s, ',');
    forall i | 0 <= i < |parts| ensures !NonEmpty(TrimAll(parts)[i]) {
      var p := parts[i];
      forall j | 0 <= j < |p| ensures IsWhiteSpace(p[j]) {
        assert p[j] in p;
        assert p[j] in s;
        var k :| 0 <= k < |s| && s[k] == p[j];
        assert p[j] != ',';
      }
    }
    FilterKeepsNone(NonEmpty, TrimAll(parts));
  }

  /** Entries that are non-empty, trimmed and free of commas survive a join with "," and a parse unchanged. */
  lemma ParseListOfJoin(xs: seq<string>)
    requires forall i :: 0 <= i < |xs| ==> xs[i] != "" && !IsWhiteSpace(xs[i][0]) && !IsWhiteSpace(xs[i][|xs[i]| - 1])
    requires forall i :: 0 <= i < |xs| ==> ',' !in xs[i]
    ensures ParseList(Join(xs, ',')) == xs
  {
    if xs == [] {
      assert Split("", ',') == [""];
      assert TrimAll([""]) == [""];
      assert Filter(NonEmpty, [""]) == [] + Filter(NonEmpty, [""][1..]);
    } else {
      SplitJoin(xs, ',');
      forall i | 0 <= i < |xs| ensures Trim(xs[i]) == xs[i] {
        TrimPadded([], xs[i], []);
        assert [] + xs[i] + [] == xs[i];
      }
      assert TrimAll(xs) == xs;
      FilterKeepsAll(NonEmpty, xs);
    }
  }

  /** What `handleSubmit` sends besides the raw fields: `isActive` as a boolean and the two parsed lists. */
  datatype Submission = Submission(fields: Form, isActive: bool, documents: seq<string>, tags: seq<string>)

  /** `Boolean(v)`: a checkbox state as it is, a text truthy when non-empty. */
  function ToBoolean(v: FieldValue): bool {
    match v
    case Flag(b) => b
    case Text(s) => s != ""
  }

  /**
   * `handleSubmit`'s conversion. `split` exists only on text, so a form whose
   * documents or tags field is missing or a checkbox state fails (`None`);
   * a missing `isActive` is `undefined`, which is false.
   */
  function Submit(form: Form): (r: Option<Submission>)
    ensures r.Some? <==> "documents" in form && form["documents"].Text? && "tags" in form && form["tags"].Text?
    ensures r.Some? ==> (&& r.value.fields == form
                         && r.value.documents == ParseList(form["documents"].text)
                         && r.value.tags == ParseList(form["tags"].text)
                         && r.value.isActive == ("isActive" in form && ToBoolean(form["isActive"])))
  {
    if "documents" in form && form["documents"].Text? && "tags" in form && form["tags"].Text? then
      Some(Submission(form, "isActive" in form && ToBoolean(form["isActive"]),
                      ParseList(form["documents"].text), ParseList(form["tags"].text)))
    else None
  }

  /** Submitting the untouched form sends no documents, no tags and `isActive` true. */
  lemma SubmitInitial()
    ensures var r := Submit(InitialForm());
            r.Some? && r.value.documents == [] && r.value.tags == [] && r.value.isActive
  {
    var form := InitialForm();
    assert "documents" in TEXT_FIELDS && "tags" in TEXT_FIELDS;
    ParseListOfBlank("");
  }

  /** Text typed into the documents and tags inputs reaches the submission as parsed lists. */
  lemma SubmitAfterTyping(form: Form, docs: string, tags: string)
    requires "documents" in form && form["documents"].Text? && "tags" in form && form["tags"].Text?
    ensures var typed := HandleChange(HandleChange(form, "documents", docs, false, false), "tags", tags, false, false);
            var r := Submit(typed);
            r.Some? && r.value.documents == ParseList(docs) && r.value.tags == ParseList(tags)
  {
  }
}
