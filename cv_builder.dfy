/** The CV builder page (src/components/CVBuilder/CVBuilder.tsx): the
    initial record, the single-field updates the forms call, the paid flag
    read from `localStorage` at mount, and the download control. Every
    update is a record copy `prev => ({ ...prev, ... })`. */
module CvBuilder {
  import opened CvTypes
  import opened CvDocument
  import Experience
  import Skills
  import Strings

  /** The keys of `PersonalInfoData`. */
  datatype PersonalField = FullName | Email | Phone | Linkedin | Location | Title

  function GetPersonal(p: PersonalInfo, f: PersonalField): string
  {
    match f
    case FullName => p.fullName
    case Email => p.email
    case Phone => p.phone
    case Linkedin => p.linkedin
    case Location => p.location
    case Title => p.title
  }

  /** `initialData`. */
  function InitialData(): (r: CvData)
    ensures forall f :: GetPersonal(r.personalInfo, f) == ""
    ensures r.summary == "" && r.experience == [] && r.education == []
    ensures r.skills.hard == [] && r.skills.soft == []
  {
    CvData(PersonalInfo("", "", "", "", "", ""), "", [], [], SkillsData([], []))
  }

  /** The state a mount of the builder starts from: `useState(initialData)`
      hands over the module-level object itself, so its skill lists are the
      shared arrays as earlier mounts' edits left them, while every other
      part is still the empty literal (those updates build new objects). */
  function MountData(arrays: Skills.SkillArrays): (r: CvData)
    reads arrays
    ensures r.personalInfo == InitialData().personalInfo && r.summary == ""
    ensures r.experience == [] && r.education == []
    ensures r.skills == SkillsData(arrays.hard, arrays.soft)
    ensures r == InitialData() <==> arrays.hard == [] && arrays.soft == []
  {
    InitialData().(skills := SkillsData(arrays.hard, arrays.soft))
  }

  /** Leaving the builder and coming back: a skill added on one mount is
      still listed on the next, although the personal fields start empty
      again. */
  method SkillSurvivesRemount(arrays: Skills.SkillArrays, value: string) returns (remounted: CvData)
    requires Strings.Trim(value) != ""
    modifies arrays
    ensures remounted == MountData(arrays)
    ensures remounted.skills.hard == Skills.Added(old(arrays.hard), value)
    ensures Strings.Trim(value) in remounted.skills.hard
    ensures remounted.skills.soft == old(arrays.soft)
    ensures forall f :: GetPersonal(remounted.personalInfo, f) == ""
  {
    var editor := new Skills.SkillsEditor(arrays);
    editor.AddSkill(Skills.Hard, value);
    remounted := MountData(arrays);
  }

  /** `updatePersonalInfo(field, value)`: exactly that field of the
      personal information changes. */
  function UpdatePersonalInfo(data: CvData, f: PersonalField, value: string): (r: CvData)
    ensures GetPersonal(r.personalInfo, f) == value
    ensures forall g :: g != f ==> GetPersonal(r.personalInfo, g) == GetPersonal(data.personalInfo, g)
    ensures r.summary == data.summary && r.experience == data.experience
    ensures r.education == data.education && r.skills == data.skills
  {
    var p := data.personalInfo;
    var p' := match f
      case FullName => p.(fullName := value)
      case Email => p.(email := value)
      case Phone => p.(phone := value)
      case Linkedin => p.(linkedin := value)
      case Location => p.(location := value)
      case Title => p.(title := value);
    data.(personalInfo := p')
  }

  /** `updateSummary(value)`: only the summary changes. */
  function UpdateSummary(data: CvData, value: string): (r: CvData)
    ensures r.summary == value
    ensures r.personalInfo == data.personalInfo && r.experience == data.experience
    ensures r.education == data.education && r.skills == data.skills
  {
    data.(summary := value)
  }

  /** The `setItems` given to the Experience editor. */
  function SetExperience(data: CvData, items: seq<ExperienceItem>): (r: CvData)
    ensures r.experience == items
    ensures r.personalInfo == data.personalInfo && r.summary == data.summary
    ensures r.education == data.education && r.skills == data.skills
  {
    data.(experience := items)
  }

  /** The `setItems` given to the Education editor. */
  function SetEducation(data: CvData, items: seq<EducationItem>): (r: CvData)
    ensures r.education == items
    ensures r.personalInfo == data.personalInfo && r.summary == data.summary
    ensures r.experience == data.experience && r.skills == data.skills
  {
    data.(education := items)
  }

  /** The `setSkills` given to the Skills editor. */
  function SetSkills(data: CvData, skills: SkillsData): (r: CvData)
    ensures r.skills == skills
    ensures r.personalInfo == data.personalInfo && r.summary == data.summary
    ensures r.experience == data.experience && r.education == data.education
  {
    data.(skills := skills)
  }

  /** The storage key the payment landing page sets. */
  const PaidFlag := "cv_paid"

  /** `isPaid` once the mount effect has run: `false` unless
      `localStorage.getItem('cv_paid') === 'true'`; a missing entry reads
      as `null`. */
  function IsPaidAtMount(storage: map<string, string>): (r: bool)
    ensures r <==> PaidFlag in storage && storage[PaidFlag] == "true"
  {
    PaidFlag in storage && storage[PaidFlag] == "true"
  }

  /** The control beside the preview. */
  datatype DownloadControl = DownloadLink(fileName: string, document: Page) | UnlockButton(target: string)

  /** A paid user gets the link that downloads the rendered CV as
      `my-cv.pdf`; anyone else a button that navigates to `/pricing`. */
  function DownloadControlFor(isPaid: bool, data: CvData): (r: DownloadControl)
    ensures r.DownloadLink? <==> isPaid
    ensures r.DownloadLink? ==> r.fileName == "my-cv.pdf" && r.document == Render(data)
    ensures r.UnlockButton? ==> r.target == "/pricing"
  {
    if isPaid then DownloadLink("my-cv.pdf", Render(data)) else UnlockButton("/pricing")
  }

  /** The starting CV renders as the placeholder name with no contact
      line and no section. */
  lemma InitialDocument()
    ensures var page := Render(InitialData());
            && page.header.name == NamePlaceholder && page.header.contacts == []
            && page.summary.None? && page.experience.None? && page.education.None? && page.skills.None?
  {
    var p := InitialData().personalInfo;
    assert Contacts(p) == [];
  }

  /** After "Add experience" the page shows one more entry at the end of the
      experience block: no company, title or bullets, and the date text
      " - ". */
  lemma AddedExperienceRenders(data: CvData, freshId: string)
    ensures var page := Render(SetExperience(data, Experience.AddItem(data.experience, freshId)));
            && page.experience.Some?
            && |page.experience.value.body| == |data.experience| + 1
            && page.experience.value.body[|data.experience|] == ExperienceEntry("", " - ", "", [])
  {
    var items := Experience.AddItem(data.experience, freshId);
    assert DateText(items[|data.experience|]) == " - ";
  }

  /** Removing an experience entry by id removes its entry from the page
      and leaves the other blocks as they were. */
  lemma RemovedExperienceRenders(data: CvData, id: string)
    ensures var page := Render(SetExperience(data, Experience.RemoveItem(data.experience, id)));
            var before := Render(data);
            && page.header == before.header && page.summary == before.summary
            && page.education == before.education && page.skills == before.skills
            && (page.experience.Some? ==>
                  forall i :: 0 <= i < |page.experience.value.body| ==>
                    exists j :: 0 <= j < |data.experience| && data.experience[j].id != id
                                && page.experience.value.body[i] == ExperienceEntryFor(data.experience[j]))
  {
    var items := Experience.RemoveItem(data.experience, id);
    var page := Render(SetExperience(data, items));
    if page.experience.Some? {
      forall i | 0 <= i < |page.experience.value.body|
        ensures exists j :: 0 <= j < |data.experience| && data.experience[j].id != id
                            && page.experience.value.body[i] == ExperienceEntryFor(data.experience[j])
      {
        var j :| 0 <= j < |data.experience| && data.experience[j] == items[i];
        assert page.experience.value.body[i] == ExperienceEntryFor(items[i]);
      }
    }
  }
}
