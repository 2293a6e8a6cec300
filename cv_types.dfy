/** The CV record the builder edits and the document renders
    (src/components/CVBuilder/types.ts). */
module CvTypes {
  datatype ExperienceItem = ExperienceItem(
    id: string,
    title: string,
    company: string,
    startDate: string,
    endDate: string,
    current: bool,
    description: string)

  datatype EducationItem = EducationItem(
    id: string,
    degree: string,
    institution: string,
    graduationYear: string)

  /** `PersonalInfoData`; the `title` field is the job title. */
  datatype PersonalInfo = PersonalInfo(
    fullName: string,
    email: string,
    phone: string,
    linkedin: string,
    location: string,
    title: string)

  datatype SkillsData = SkillsData(hard: seq<string>, soft: seq<string>)

  datatype CvData = CvData(
    personalInfo: PersonalInfo,
    summary: string,
    experience: seq<ExperienceItem>,
    education: seq<EducationItem>,
    skills: SkillsData)

  function ExperienceId(item: ExperienceItem): string
  {
    item.id
  }

  function EducationId(item: EducationItem): string
  {
    item.id
  }
}
