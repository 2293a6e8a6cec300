/** The Education editor (src/components/CVBuilder/FormSections/Education.tsx):
    appending a blank entry, setting one string field of the entries with a
    given id, and removing the entries with a given id. `crypto.randomUUID()`
    enters as the parameter `freshId`. */
module Education {
  import opened CvTypes
  import opened ItemList

  /** The keys of `EducationItem`; all of them hold strings. */
  datatype Field = Id | Degree | Institution | GraduationYear

  /** One `[field]: value` write. */
  datatype Edit = Edit(field: Field, value: string)

  /** `item[field]`. */
  function Get(item: EducationItem, f: Field): string
  {
    match f
    case Id => item.id
    case Degree => item.degree
    case Institution => item.institution
    case GraduationYear => item.graduationYear
  }

  /** `{ ...item, [field]: value }`. */
  function Apply(item: EducationItem, e: Edit): (r: EducationItem)
    ensures Get(r, e.field) == e.value
    ensures forall f :: f != e.field ==> Get(r, f) == Get(item, f)
  {
    match e.field
    case Id => item.(id := e.value)
    case Degree => item.(degree := e.value)
    case Institution => item.(institution := e.value)
    case GraduationYear => item.(graduationYear := e.value)
  }

  /** `addItem`: exactly one entry with the fresh id and empty degree,
      institution and year, appended after the unchanged existing ones. */
  function AddItem(items: seq<EducationItem>, freshId: string): (r: seq<EducationItem>)
    ensures |r| == |items| + 1 && r[..|items|] == items
    ensures r[|items|].id == freshId
    ensures r[|items|].degree == "" && r[|items|].institution == "" && r[|items|].graduationYear == ""
  {
    items + [EducationItem(freshId, "", "", "")]
  }

  /** `updateItem(id, field, value)`. */
  function UpdateItem(items: seq<EducationItem>, id: string, field: Field, value: string): (r: seq<EducationItem>)
    ensures |r| == |items|
    ensures forall i :: 0 <= i < |items| && items[i].id != id ==> r[i] == items[i]
    ensures forall i :: 0 <= i < |items| && items[i].id == id ==>
              && Get(r[i], field) == value
              && forall f :: f != field ==> Get(r[i], f) == Get(items[i], f)
    ensures (forall i :: 0 <= i < |items| ==> items[i].id != id) ==> r == items
  {
    UpdateWhere(items, EducationId, id, Apply, Edit(field, value))
  }

  /** `removeItem(id)`. */
  function RemoveItem(items: seq<EducationItem>, id: string): (r: seq<EducationItem>)
    ensures forall i :: 0 <= i < |r| ==> r[i] in items && r[i].id != id
    ensures forall i :: 0 <= i < |items| && items[i].id != id ==> items[i] in r
  {
    RemoveWhere(items, EducationId, id)
  }

  /** Removing keeps the surviving entries in their original order. */
  lemma RemoveKeepsOrder(a: seq<EducationItem>, b: seq<EducationItem>, id: string)
    ensures RemoveItem(a + b, id) == RemoveItem(a, id) + RemoveItem(b, id)
  {
    RemoveConcat(a, b, EducationId, id);
  }

  /** Adding under a fresh id and removing that id is the identity. */
  lemma AddThenRemove(items: seq<EducationItem>, freshId: string)
    requires forall i :: 0 <= i < |items| ==> items[i].id != freshId
    ensures RemoveItem(AddItem(items, freshId), freshId) == items
  {
    var added := EducationItem(freshId, "", "", "");
    RemoveConcat(items, [added], EducationId, freshId);
    RemoveAbsent(items, EducationId, freshId);
    assert RemoveWhere([added], EducationId, freshId) == [];
  }
}
