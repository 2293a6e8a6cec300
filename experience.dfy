/** The Experience editor (src/components/CVBuilder/FormSections/Experience.tsx):
    appending a blank entry, editing one field of the entries with a given
    id, and removing the entries with a given id. `crypto.randomUUID()`
    enters as the parameter `freshId`. */
module Experience {
  import opened CvTypes
  import opened ItemList

  /** The keys of `ExperienceItem`. */
  datatype Field = Id | Title | Company | StartDate | EndDate | Current | Description

  /** A field's value: `current` is a boolean, every other field a string. */
  datatype Value = Text(text: string) | Flag(flag: bool)

  /** One `[field]: value` write, typed as the form's inputs produce it. */
  datatype Edit =
    | SetId(id: string)
    | SetTitle(title: string)
    | SetCompany(company: string)
    | SetStartDate(startDate: string)
    | SetEndDate(endDate: string)
    | SetCurrent(current: bool)
    | SetDescription(description: string)

  function FieldOf(e: Edit): Field
  {
    match e
    case SetId(_) => Id
    case SetTitle(_) => Title
    case SetCompany(_) => Company
    case SetStartDate(_) => StartDate
    case SetEndDate(_) => EndDate
    case SetCurrent(_) => Current
    case SetDescription(_) => Description
  }

  function ValueOf(e: Edit): Value
  {
    match e
    case SetId(v) => Text(v)
    case SetTitle(v) => Text(v)
    case SetCompany(v) => Text(v)
    case SetStartDate(v) => Text(v)
    case SetEndDate(v) => Text(v)
    case SetCurrent(v) => Flag(v)
    case SetDescription(v) => Text(v)
  }

  /** `item[field]`. */
  function Get(item: ExperienceItem, f: Field): Value
  {
    match f
    case Id => Text(item.id)
    case Title => Text(item.title)
    case Company => Text(item.company)
    case StartDate => Text(item.startDate)
    case EndDate => Text(item.endDate)
    case Current => Flag(item.current)
    case Description => Text(item.description)
  }

  /** `{ ...item, [field]: value }`: the edited field reads back the new
      value and every other field keeps its old one. */
  function Apply(item: ExperienceItem, e: Edit): (r: ExperienceItem)
    ensures Get(r, FieldOf(e)) == ValueOf(e)
    ensures forall f :: f != FieldOf(e) ==> Get(r, f) == Get(item, f)
  {
    match e
    case SetId(v) => item.(id := v)
    case SetTitle(v) => item.(title := v)
    case SetCompany(v) => item.(company := v)
    case SetStartDate(v) => item.(startDate := v)
    case SetEndDate(v) => item.(endDate := v)
    case SetCurrent(v) => item.(current := v)
    case SetDescription(v) => item.(description := v)
  }

  /** The entry `addItem` creates: every text field empty, not current. */
  predicate IsBlank(item: ExperienceItem)
  {
    item.title == "" && item.company == "" && item.startDate == ""
    && item.endDate == "" && !item.current && item.description == ""
  }

  /** `addItem`: exactly one blank entry with the fresh id, appended after
      the existing entries, which are unchanged. */
  function AddItem(items: seq<ExperienceItem>, freshId: string): (r: seq<ExperienceItem>)
    ensures |r| == |items| + 1 && r[..|items|] == items
    ensures r[|items|].id == freshId && IsBlank(r[|items|])
  {
    items + [ExperienceItem(freshId, "", "", "", "", false, "")]
  }

  /** `updateItem(id, field, value)`. */
  function UpdateItem(items: seq<ExperienceItem>, id: string, e: Edit): (r: seq<ExperienceItem>)
    ensures |r| == |items|
    ensures forall i :: 0 <= i < |items| && items[i].id != id ==> r[i] == items[i]
    ensures forall i :: 0 <= i < |items| && items[i].id == id ==>
              && Get(r[i], FieldOf(e)) == ValueOf(e)
              && forall f :: f != FieldOf(e) ==> Get(r[i], f) == Get(items[i], f)
    ensures (forall i :: 0 <= i < |items| ==> items[i].id != id) ==> r == items
  {
    UpdateWhere(items, ExperienceId, id, Apply, e)
  }

  /** `removeItem(id)`. */
  function RemoveItem(items: seq<ExperienceItem>, id: string): (r: seq<ExperienceItem>)
    ensures forall i :: 0 <= i < |r| ==> r[i] in items && r[i].id != id
    ensures forall i :: 0 <= i < |items| && items[i].id != id ==> items[i] in r
  {
    RemoveWhere(items, ExperienceId, id)
  }

  /** Removing keeps the surviving entries in their original order: it
      acts on a list piecewise. */
  lemma RemoveKeepsOrder(a: seq<ExperienceItem>, b: seq<ExperienceItem>, id: string)
    ensures RemoveItem(a + b, id) == RemoveItem(a, id) + RemoveItem(b, id)
  {
    RemoveConcat(a, b, ExperienceId, id);
  }

  /** Adding an entry under an id no entry has, then removing that id,
      gives back the original list. */
  lemma AddThenRemove(items: seq<ExperienceItem>, freshId: string)
    requires forall i :: 0 <= i < |items| ==> items[i].id != freshId
    ensures RemoveItem(AddItem(items, freshId), freshId) == items
  {
    var added := ExperienceItem(freshId, "", "", "", "", false, "");
    RemoveConcat(items, [added], ExperienceId, freshId);
    RemoveAbsent(items, ExperienceId, freshId);
    assert RemoveWhere([added], ExperienceId, freshId) == [];
  }
}
