/** ModernTemplate: a coloured header, then experience, education and skills.
    Within an experience block: title, company, location, then the date range and
    the description; within an education block: degree, school, location, GPA, then
    the date range. */
module ModernTemplate {
  import opened ResumeTypes
  import opened TemplateRules

  function ExperienceBlock(locale: string -> string, e: Experience): (lines: seq<Line>)
    ensures multiset(lines) == ExperienceContent(locale, e)
  {
    [Title(e.title), Company(e.company), Place(e.location), Dates(ExperienceRange(locale, e))]
      + DescriptionLines(e.description)
  }

  function EducationBlock(locale: string -> string, e: Education): (lines: seq<Line>)
    ensures multiset(lines) == EducationContent(locale, e)
  {
    [Degree(e.degree), School(e.school), Place(e.location)] + GpaLines(e.gpa)
      + [Dates(EducationRange(locale, e))]
  }

  /** The rendered document, with `locale` standing for toLocaleDateString. */
  function Render(locale: string -> string, p: PersonalInfo, experience: seq<Experience>,
                  education: seq<Education>, skills: string): (doc: Document)
    ensures Presents(doc, locale, p, experience, education, skills)
  {
    var tags := SkillTags(skills);
    var xs := ExperienceSections(locale, experience, e => ExperienceBlock(locale, e));
    var ys := EducationSections(locale, education, e => EducationBlock(locale, e));
    var zs := SkillsSections(tags);
    KindsConcat(xs, ys);
    KindsConcat(xs + ys, zs);
    Document(DisplayName(p), Contacts(p), xs + ys + zs)
  }
}
