/** The content of the PDF page `CVDocument` renders
    (src/components/CVBuilder/CVDocument.tsx), as a tree without styles:
    a header, then the summary, experience, education and skills blocks,
    each present or absent. */
module CvDocument {
  import opened Wrappers
  import opened Strings
  import opened CvTypes

  datatype ContactKind = EmailContact | PhoneContact | LocationContact | LinkedInContact

  /** One `<Text>` of the contact line. */
  datatype Contact = Contact(kind: ContactKind, text: string)

  datatype Header = Header(name: string, jobTitle: string, contacts: seq<Contact>)

  datatype ExperienceEntry = ExperienceEntry(company: string, dates: string, jobTitle: string, bullets: seq<string>)

  datatype EducationEntry = EducationEntry(institution: string, year: string, degree: string)

  /** A skills line: the bold label followed by the joined skills. */
  datatype SkillLine = SkillLine(heading: string, skills: string)

  /** A titled section. */
  datatype Section<T> = Section(title: string, body: T)

  datatype Page = Page(
    header: Header,
    summary: Option<Section<string>>,
    experience: Option<Section<seq<ExperienceEntry>>>,
    education: Option<Section<seq<EducationEntry>>>,
    skills: Option<Section<seq<SkillLine>>>)

  const NamePlaceholder := "Your Name"
  const Bullet := "• "
  const Present := "Present"
  const SummaryTitle := "Professional Summary"
  const ExperienceTitle := "Work Experience"
  const EducationTitle := "Education"
  const SkillsTitle := "Skills"
  const HardLabel := "Technical Skills: "
  const SoftLabel := "Soft Skills: "
  const SkillSeparator := ", "

  /** `fullName || 'Your Name'`. */
  function HeaderName(fullName: string): (r: string)
    ensures fullName != "" ==> r == fullName
    ensures fullName == "" ==> r == NamePlaceholder
    ensures r != ""
  {
    if fullName != "" then fullName else NamePlaceholder
  }

  /** The personal field a contact shows. */
  function ContactField(p: PersonalInfo, k: ContactKind): string
  {
    match k
    case EmailContact => p.email
    case PhoneContact => p.phone
    case LocationContact => p.location
    case LinkedInContact => p.linkedin
  }

  /** Only the e-mail address goes without the bullet separator. */
  function ContactPrefix(k: ContactKind): string
  {
    if k == EmailContact then "" else Bullet
  }

  /** The position of each contact on the line. */
  function ContactRank(k: ContactKind): nat
  {
    match k
    case EmailContact => 0
    case PhoneContact => 1
    case LocationContact => 2
    case LinkedInContact => 3
  }

  function ContactIf(p: PersonalInfo, k: ContactKind): seq<Contact>
  {
    if ContactField(p, k) != "" then [Contact(k, ContactPrefix(k) + ContactField(p, k))] else []
  }

  /** The contact line: the parts for e-mail, phone, location and
      LinkedIn, in that order. */
  function Contacts(p: PersonalInfo): seq<Contact>
  {
    ContactIf(p, EmailContact) + ContactIf(p, PhoneContact)
    + ContactIf(p, LocationContact) + ContactIf(p, LinkedInContact)
  }

  /** Every part shown is for a non-empty field and shows its prefix and
      the field's text. */
  lemma ContactsShown(p: PersonalInfo)
    ensures var r := Contacts(p);
            forall i :: 0 <= i < |r| ==>
              ContactField(p, r[i].kind) != "" && r[i].text == ContactPrefix(r[i].kind) + ContactField(p, r[i].kind)
  {
    var a, b, c, d := ContactIf(p, EmailContact), ContactIf(p, PhoneContact), ContactIf(p, LocationContact), ContactIf(p, LinkedInContact);
    var r := Contacts(p);
    forall i | 0 <= i < |r|
      ensures ContactField(p, r[i].kind) != "" && r[i].text == ContactPrefix(r[i].kind) + ContactField(p, r[i].kind)
    {
      if i < |a| {
        assert r[i] == a[i];
      } else if i < |a + b| {
        assert r[i] == b[i - |a|];
      } else if i < |a + b + c| {
        assert r[i] == c[i - |a + b|];
      } else {
        assert r[i] == d[i - |a + b + c|];
      }
    }
  }

  predicate Ranked(r: seq<Contact>)
  {
    forall i, j :: 0 <= i < j < |r| ==> ContactRank(r[i].kind) < ContactRank(r[j].kind)
  }

  predicate RanksBelow(r: seq<Contact>, n: nat)
  {
    forall i :: 0 <= i < |r| ==> ContactRank(r[i].kind) < n
  }

  lemma RankedThen(p: PersonalInfo, r: seq<Contact>, k: ContactKind)
    requires Ranked(r) && RanksBelow(r, ContactRank(k))
    ensures Ranked(r + ContactIf(p, k)) && RanksBelow(r + ContactIf(p, k), ContactRank(k) + 1)
  {
    var s := r + ContactIf(p, k);
    forall i | 0 <= i < |s|
      ensures ContactRank(s[i].kind) < ContactRank(k) + 1
    {
      if i < |r| {
        assert s[i] == r[i];
      }
    }
  }

  /** The parts appear in the fixed order e-mail, phone, location,
      LinkedIn. */
  lemma ContactsOrdered(p: PersonalInfo)
    ensures Ranked(Contacts(p))
  {
    var a := ContactIf(p, EmailContact);
    RankedThen(p, [], EmailContact);
    assert [] + a == a;
    RankedThen(p, a, PhoneContact);
    RankedThen(p, a + ContactIf(p, PhoneContact), LocationContact);
    RankedThen(p, a + ContactIf(p, PhoneContact) + ContactIf(p, LocationContact), LinkedInContact);
  }

  /** Every non-empty contact field has its part. */
  lemma ContactsComplete(p: PersonalInfo, k: ContactKind)
    requires ContactField(p, k) != ""
    ensures Contact(k, ContactPrefix(k) + ContactField(p, k)) in Contacts(p)
  {
  }

  /** `${startDate} - ${current ? 'Present' : endDate}`: the start date and
      a dash, then `Present` for a current position or else the end
      date. */
  function DateText(exp: ExperienceItem): (r: string)
    ensures StartsWith(r, exp.startDate + " - ")
    ensures Drop(r, |exp.startDate| + 3) == if exp.current then Present else exp.endDate
  {
    var head := exp.startDate + " - ";
    var tail := if exp.current then Present else exp.endDate;
    assert (head + tail)[|head|..] == tail;
    head + tail
  }

  /** The bullets of a description: none for an empty one, otherwise one
      per line, in order, with the lines joined back giving the
      description. */
  function Bullets(description: string): (r: seq<string>)
    ensures description == "" ==> r == []
    ensures description != "" ==> |r| == 1 + Count(description, '\n')
    ensures description != "" ==> Join(r, "\n") == description
    ensures forall i :: 0 <= i < |r| ==> '\n' !in r[i]
  {
    if description == "" then []
    else
      JoinSplit(description, '\n');
      Split(description, '\n')
  }

  function ExperienceEntryFor(exp: ExperienceItem): ExperienceEntry
  {
    ExperienceEntry(exp.company, DateText(exp), exp.title, Bullets(exp.description))
  }

  function EducationEntryFor(edu: EducationItem): EducationEntry
  {
    EducationEntry(edu.institution, edu.graduationYear, edu.degree)
  }

  /** The lines of the skills block: a technical line when there are hard
      skills, then a soft line when there are soft skills, each the list
      joined by a comma and a space. */
  function SkillLines(skills: SkillsData): (r: seq<SkillLine>)
    ensures |r| == (if skills.hard != [] then 1 else 0) + (if skills.soft != [] then 1 else 0)
    ensures skills.hard != [] ==> r[0] == SkillLine(HardLabel, Join(skills.hard, SkillSeparator))
    ensures skills.soft != [] ==> r[|r| - 1] == SkillLine(SoftLabel, Join(skills.soft, SkillSeparator))
  {
    (if skills.hard != [] then [SkillLine(HardLabel, Join(skills.hard, SkillSeparator))] else [])
    + (if skills.soft != [] then [SkillLine(SoftLabel, Join(skills.soft, SkillSeparator))] else [])
  }

  /** The page for a CV: the summary, experience and education blocks
      appear exactly when their part of the CV is non-empty, the skills
      block exactly when either list is; each experience and education
      entry becomes one entry of its block, in order. */
  function Render(data: CvData): (r: Page)
    ensures r.header.name == HeaderName(data.personalInfo.fullName)
    ensures r.header.jobTitle == data.personalInfo.title
    ensures r.header.contacts == Contacts(data.personalInfo)
    ensures r.summary.Some? <==> data.summary != ""
    ensures r.summary.Some? ==> r.summary.value == Section(SummaryTitle, data.summary)
    ensures r.experience.Some? <==> |data.experience| > 0
    ensures r.experience.Some? ==>
              && r.experience.value.title == ExperienceTitle
              && |r.experience.value.body| == |data.experience|
              && forall i :: 0 <= i < |data.experience| ==>
                   r.experience.value.body[i] == ExperienceEntryFor(data.experience[i])
    ensures r.education.Some? <==> |data.education| > 0
    ensures r.education.Some? ==>
              && r.education.value.title == EducationTitle
              && |r.education.value.body| == |data.education|
              && forall i :: 0 <= i < |data.education| ==>
                   r.education.value.body[i] == EducationEntryFor(data.education[i])
    ensures r.skills.Some? <==> |data.skills.hard| > 0 || |data.skills.soft| > 0
    ensures r.skills.Some? ==> r.skills.value == Section(SkillsTitle, SkillLines(data.skills))
  {
    var experience := data.experience;
    var education := data.education;
    Page(
      Header(HeaderName(data.personalInfo.fullName), data.personalInfo.title, Contacts(data.personalInfo)),
      if data.summary != "" then Some(Section(SummaryTitle, data.summary)) else None,
      if |experience| > 0 then
        Some(Section(ExperienceTitle, seq(|experience|, i requires 0 <= i < |experience| => ExperienceEntryFor(experience[i]))))
      else None,
      if |education| > 0 then
        Some(Section(EducationTitle, seq(|education|, i requires 0 <= i < |education| => EducationEntryFor(education[i]))))
      else None,
      if |data.skills.hard| > 0 || |data.skills.soft| > 0 then Some(Section(SkillsTitle, SkillLines(data.skills))) else None)
  }

  /** A one-line description gives a single bullet holding it. */
  lemma SingleLineBullet(description: string)
    requires description != "" && '\n' !in description
    ensures Bullets(description) == [description]
  {
    SplitFree(description, '\n');
  }
}
