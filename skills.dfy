/** The Skills editor (src/components/CVBuilder/FormSections/Skills.tsx).
    `{ ...skills }` copies only the record, so `push` and `splice` change
    the very `hard` and `soft` arrays of the builder's `initialData`; they
    are the object `SkillArrays`, which the editor changes in place beside
    its two text inputs and its log of `setSkills` calls. */
module Skills {
  import opened Strings
  import opened CvTypes

  datatype SkillType = Hard | Soft

  function Other(t: SkillType): SkillType
  {
    if t == Hard then Soft else Hard
  }

  /** No skill is listed twice. */
  predicate Distinct(list: seq<string>)
  {
    forall i, j :: 0 <= i < j < |list| ==> list[i] != list[j]
  }

  /** Whether `addSkill(type, value)` pushes: the trimmed value is
      non-empty and not yet in the list. */
  predicate Pushes(list: seq<string>, value: string)
  {
    Trim(value) != "" && Trim(value) !in list
  }

  /** The chosen list after `addSkill(type, value)`. */
  function Added(list: seq<string>, value: string): (r: seq<string>)
    ensures Pushes(list, value) ==> |r| == |list| + 1 && r[..|list|] == list && r[|list|] == Trim(value)
    ensures !Pushes(list, value) ==> r == list
  {
    if Pushes(list, value) then list + [Trim(value)] else list
  }

  /** A whitespace-only value changes nothing. */
  lemma AddedBlank(list: seq<string>, value: string)
    requires forall k :: 0 <= k < |value| ==> IsSpace(value[k])
    ensures Added(list, value) == list
  {
    TrimEmptyIffBlank(value);
  }

  /** Adding never introduces a duplicate, and afterwards the trimmed value
      is in the list unless it was blank. */
  lemma AddedDistinct(list: seq<string>, value: string)
    requires Distinct(list)
    ensures Distinct(Added(list, value))
    ensures Trim(value) != "" ==> Trim(value) in Added(list, value)
  {
    if Pushes(list, value) {
      var r := Added(list, value);
      forall i, j | 0 <= i < j < |r|
        ensures r[i] != r[j]
      {
        if j == |list| {
          assert r[i] == list[i];
        }
      }
    }
  }

  /** The JavaScript `Array.prototype.splice(index, 1)` start position: a
      negative index counts back from the end, and it is clamped to the
      list. */
  function SpliceStart(n: nat, index: int): (r: nat)
    ensures r <= n
  {
    if index < 0 then (if n + index < 0 then 0 else n + index)
    else if index > n then n
    else index
  }

  /** The list after `splice(index, 1)`. */
  function Spliced(list: seq<string>, index: int): (r: seq<string>)
    ensures 0 <= index < |list| ==> |r| == |list| - 1
    ensures 0 <= index < |list| ==> forall j :: 0 <= j < index ==> r[j] == list[j]
    ensures 0 <= index < |list| ==> forall j :: index <= j < |r| ==> r[j] == list[j + 1]
    ensures index >= |list| ==> r == list
  {
    var start := SpliceStart(|list|, index);
    if start == |list| then list else list[..start] + list[start + 1..]
  }

  /** Deleting an index of a duplicate-free list removes exactly that
      skill. */
  lemma SplicedRemovesOne(list: seq<string>, index: int)
    requires Distinct(list) && 0 <= index < |list|
    ensures Distinct(Spliced(list, index))
    ensures list[index] !in Spliced(list, index)
    ensures forall x :: x in list && x != list[index] ==> x in Spliced(list, index)
  {
    var r := Spliced(list, index);
    forall x | x in list && x != list[index]
      ensures x in r
    {
      var k :| 0 <= k < |list| && list[k] == x;
      if k < index {
        assert r[k] == x;
      } else {
        assert r[k - 1] == x;
      }
    }
    forall j | 0 <= j < |r|
      ensures r[j] != list[index]
    {
      if j < index {
        assert r[j] == list[j];
      } else {
        assert r[j] == list[j + 1];
      }
    }
    forall i, j | 0 <= i < j < |r|
      ensures r[i] != r[j]
    {
      var i' := if i < index then i else i + 1;
      var j' := if j < index then j else j + 1;
      assert r[i] == list[i'] && r[j] == list[j'];
    }
  }

  /** The two arrays of `initialData.skills`. The builder's state and
      every shallow copy `{ ...skills }` hold these very arrays, so a `push`
      or `splice` through any of them changes them for all, the next mount
      of the builder included. */
  class SkillArrays {
    var hard: seq<string>
    var soft: seq<string>

    /** The literal `skills: { hard: [], soft: [] }` of `initialData`. */
    constructor ()
      ensures hard == [] && soft == []
    {
      hard, soft := [], [];
    }
  }

  class SkillsEditor {
    /** The arrays behind the `skills` prop. */
    const arrays: SkillArrays
    var hardInput: string
    var softInput: string
    /** The argument of every `setSkills` call, in order, as it reads at
        the time of the call. */
    var published: seq<SkillsData>

    function List(t: SkillType): seq<string>
      reads this, arrays
    {
      if t == Hard then arrays.hard else arrays.soft
    }

    function Input(t: SkillType): string
      reads this
    {
      if t == Hard then hardInput else softInput
    }

    /** The record `setSkills` is called with: a copy holding the same
        arrays. */
    function Current(): SkillsData
      reads this, arrays
    {
      SkillsData(arrays.hard, arrays.soft)
    }

    constructor (arrays: SkillArrays)
      ensures this.arrays == arrays
      ensures hardInput == "" && softInput == "" && published == []
    {
      this.arrays := arrays;
      hardInput, softInput := "", "";
      published := [];
    }

    /** The input's `onChange`. */
    method SetInput(t: SkillType, text: string)
      modifies this
      ensures Input(t) == text && Input(Other(t)) == old(Input(Other(t)))
      ensures published == old(published)
    {
      if t == Hard {
        hardInput := text;
      } else {
        softInput := text;
      }
    }

    /** `addSkill(type, value)`: pushes the trimmed value onto the chosen
        shared array when it is non-blank and new, and only then calls
        `setSkills`. */
    method AddSkill(t: SkillType, value: string)
      modifies this, arrays
      ensures List(t) == Added(old(List(t)), value)
      ensures List(Other(t)) == old(List(Other(t)))
      ensures hardInput == old(hardInput) && softInput == old(softInput)
      ensures published == old(published) + (if Pushes(old(List(t)), value) then [Current()] else [])
    {
      var trimmed := Trim(value);
      if trimmed == "" {
        return;
      }
      var list := List(t);
      assert Pushes(list, value) <==> trimmed !in list;
      if trimmed !in list {
        if t == Hard {
          arrays.hard := list + [trimmed];
        } else {
          arrays.soft := list + [trimmed];
        }
        published := published + [Current()];
      }
    }

    /** `removeSkill(type, index)`: splices the chosen shared array and
        always calls `setSkills`. */
    method RemoveSkill(t: SkillType, index: int)
      modifies this, arrays
      ensures List(t) == Spliced(old(List(t)), index)
      ensures List(Other(t)) == old(List(Other(t)))
      ensures hardInput == old(hardInput) && softInput == old(softInput)
      ensures published == old(published) + [Current()]
    {
      if t == Hard {
        arrays.hard := Spliced(arrays.hard, index);
      } else {
        arrays.soft := Spliced(arrays.soft, index);
      }
      published := published + [Current()];
    }

    /** The + button: `addSkill(type, input)` and then clearing that
        input. */
    method AddClicked(t: SkillType)
      modifies this, arrays
      ensures List(t) == Added(old(List(t)), old(Input(t)))
      ensures List(Other(t)) == old(List(Other(t)))
      ensures Input(t) == "" && Input(Other(t)) == old(Input(Other(t)))
      ensures published == old(published) + (if Pushes(old(List(t)), old(Input(t))) then [Current()] else [])
    {
      AddSkill(t, Input(t));
      SetInput(t, "");
    }

    /** `handleKeyDown`: on Enter, the same as the + button; any other key
        does nothing here. */
    method KeyDown(key: string, t: SkillType)
      modifies this, arrays
      ensures key != "Enter" ==> arrays.hard == old(arrays.hard) && arrays.soft == old(arrays.soft)
                                 && hardInput == old(hardInput) && softInput == old(softInput)
                                 && published == old(published)
      ensures key == "Enter" ==>
                && List(t) == Added(old(List(t)), old(Input(t)))
                && List(Other(t)) == old(List(Other(t)))
                && Input(t) == "" && Input(Other(t)) == old(Input(Other(t)))
                && published == old(published) + (if Pushes(old(List(t)), old(Input(t))) then [Current()] else [])
    {
      if key == "Enter" {
        AddClicked(t);
      }
    }
  }
}
