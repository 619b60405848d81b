/** The resume data shape shared by the resume table, the dashboard's draft state
    and the two templates. Optional strings of the source (website, linkedin, gpa)
    are plain strings here, "" standing for absent: every use of them only tests
    whether they are truthy. */
module ResumeTypes {

  datatype Option<+T> = None | Some(value: T)

  datatype PersonalInfo = PersonalInfo(
    name: string,
    email: string,
    phone: string,
    location: string,
    website: string,
    linkedin: string)

  datatype Experience = Experience(
    id: string,
    title: string,
    company: string,
    location: string,
    startDate: string,
    endDate: string,
    description: string)

  datatype Education = Education(
    id: string,
    degree: string,
    school: string,
    location: string,
    startDate: string,
    endDate: string,
    gpa: string)

  /** The five fields a save sends and a resume record stores. */
  datatype ResumeData = ResumeData(
    template: string,
    personalInfo: PersonalInfo,
    experience: seq<Experience>,
    education: seq<Education>,
    skills: string)

  const EmptyPersonalInfo := PersonalInfo("", "", "", "", "", "")
}
