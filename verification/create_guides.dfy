/**
 * The batch-create form (src/components/CreateContentTypeGuides.tsx): a list of
 * rows the administrator edits, saved as a whole once the content types pass
 * the collision check handed in by the configuration screen.
 */
module CreateGuides {
  import opened Wrappers

  /** One row of the form; every field is free text. */
  datatype Row = Row(contentType: string, defaultGuideId: string, guideId: string)

  /** The field names a change handler may write. */
  datatype Field = DefaultGuideIdField | GuideIdField | ContentTypeField

  const BlankRow: Row := Row("", "", "")

  const InUseMessage: string := "One or more of the content types are already in use."

  /** `row[field]`. */
  function FieldValue(row: Row, field: Field): string
  {
    match field
    case DefaultGuideIdField => row.defaultGuideId
    case GuideIdField => row.guideId
    case ContentTypeField => row.contentType
  }

  /** `row[field] = value`: the named field reads back as the new value, the others as before. */
  function SetField(row: Row, field: Field, value: string): (r: Row)
    ensures FieldValue(r, field) == value
    ensures forall f :: f != field ==> FieldValue(r, f) == FieldValue(row, f)
  {
    match field
    case DefaultGuideIdField => row.(defaultGuideId := value)
    case GuideIdField => row.(guideId := value)
    case ContentTypeField => row.(contentType := value)
  }

  /** Writing back the value a field already holds leaves the row as it was. */
  lemma SetFieldToOwnValue(row: Row, field: Field)
    ensures SetField(row, field, FieldValue(row, field)) == row
  {
  }

  /** A later write to the same field overrides an earlier one. */
  lemma SetFieldTwice(row: Row, field: Field, first: string, second: string)
    ensures SetField(SetField(row, field, first), field, second) == SetField(row, field, second)
  {
  }

  /** `guides.filter((_, i) => i !== index)`: keep every row whose position is not `index`. */
  function RemoveAt(rows: seq<Row>, index: int): (r: seq<Row>)
    ensures !(0 <= index < |rows|) ==> r == rows
    ensures 0 <= index < |rows| ==> |r| == |rows| - 1
    ensures 0 <= index < |rows| ==> r == rows[..index] + rows[index + 1..]
    decreases |rows|
  {
    if rows == [] then []
    else (if index == 0 then [] else [rows[0]]) + RemoveAt(rows[1..], index - 1)
  }

  /** `guides.map(guide => guide.contentType)`. */
  function ContentTypes(rows: seq<Row>): seq<string>
  {
    seq(|rows|, i requires 0 <= i < |rows| => rows[i].contentType)
  }

  class CreateGuidesForm {
    var error: string
    var contentTypesInUse: seq<string>
    var guides: seq<Row>

    /** The form always shows at least one row. */
    ghost predicate Valid()
      reads this
    {
      |guides| >= 1
    }

    /** The form opens with one blank row and no error. */
    constructor ()
      ensures Valid()
      ensures guides == [BlankRow]
      ensures error == "" && contentTypesInUse == []
    {
      error := "";
      contentTypesInUse := [];
      guides := [BlankRow];
    }

    /** `handleAddGuide`: one blank row is appended after the existing ones. */
    method AddGuide()
      requires Valid()
      modifies this`guides
      ensures Valid()
      ensures guides == old(guides) + [BlankRow]
    {
      guides := guides + [BlankRow];
    }

    /**
     * `handleRemoveGuide`: the remove button is only rendered while there is more
     * than one row, so the list never becomes empty.
     */
    method RemoveGuide(index: int)
      requires Valid() && |guides| > 1
      modifies this`guides
      ensures Valid()
      ensures guides == RemoveAt(old(guides), index)
    {
      guides := RemoveAt(guides, index);
    }

    /**
     * `handleGuideChange`: one field of the row at `index` is written; every
     * index the form passes belongs to a rendered row.
     */
    method ChangeGuide(index: int, field: Field, value: string)
      requires Valid() && 0 <= index < |guides|
      modifies this`guides
      ensures Valid()
      ensures |guides| == |old(guides)|
      ensures FieldValue(guides[index], field) == value
      ensures forall f :: f != field ==> FieldValue(guides[index], f) == FieldValue(old(guides)[index], f)
      ensures forall j :: 0 <= j < |guides| && j != index ==> guides[j] == old(guides)[j]
    {
      guides := guides[index := SetField(guides[index], field, value)];
    }

    /**
     * `handleSave`: the content types, in row order, go to `validate`. A non-empty
     * answer is recorded as the error and nothing is saved; otherwise the rows are
     * handed over unchanged (the caller's `onSave`, followed by `onClose`).
     */
    method Save(validate: seq<string> -> seq<string>) returns (saved: Option<seq<Row>>)
      requires Valid()
      modifies this`error, this`contentTypesInUse
      ensures Valid()
      ensures |validate(ContentTypes(guides))| > 0 ==>
        saved == None && error == InUseMessage && contentTypesInUse == validate(ContentTypes(guides))
      ensures |validate(ContentTypes(guides))| == 0 ==>
        saved == Some(guides) && error == old(error) && contentTypesInUse == old(contentTypesInUse)
    {
      var inUse := validate(ContentTypes(guides));
      if |inUse| > 0 {
        contentTypesInUse := inUse;
        error := InUseMessage;
        return None;
      }
      saved := Some(guides);
    }
  }
}
