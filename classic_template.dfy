/** ClassicTemplate: a centred header, then experience, education and skills.
    Within an experience block: title and date range on one row, then company,
    location and the description; within an education block: degree and date range,
    then school, location and GPA. */
module ClassicTemplate {
  import opened ResumeTypes
  import opened TemplateRules

  function ExperienceBlock(locale: string -> string, e: Experience): (lines: seq<Line>)
    ensures multiset(lines) == ExperienceContent(locale, e)
  {
    [Title(e.title), Dates(ExperienceRange(locale, e)), Company(e.company), Place(e.location)]
      + DescriptionLines(e.description)
  }

  function EducationBlock(locale: string -> string, e: Education): (lines: seq<Line>)
    ensures multiset(lines) == EducationContent(locale, e)
  {
    [Degree(e.degree), Dates(EducationRange(locale, e)), School(e.school), Place(e.location)]
      + GpaLines(e.gpa)
  }

  /** The rendered document, with `locale` standing for toLocaleDateString. */
  function Render(locale: string -> string, p: PersonalInfo, experience: seq<Experience>,
                  education: seq<Education>, skills: string): (doc: Document)
    ensures Presents(doc, locale, p, experience, education, skills)
  {
    var tags := SkillTags(skills);
    var xs := ExperienceSections(locale, experience, e => ExperienceBlock(locale, e));
    var ys := EducationSections(locale, education, e => EducationBlock(locale, e));
    var zs := SkillsSections(tags);
    KindsConcat(xs, ys);
    KindsConcat(xs + ys, zs);
    Document(DisplayName(p), Contacts(p), xs + ys + zs)
  }
}

/** The two templates show the same data: they differ only in the order of the
    lines inside an entry block. */
module TemplatesAgree {
  import opened ResumeTypes
  import opened TemplateRules
  import ModernTemplate
  import ClassicTemplate

  lemma ModernMatchesClassic(locale: string -> string, p: PersonalInfo, experience: seq<Experience>,
                             education: seq<Education>, skills: string)
    ensures var m := ModernTemplate.Render(locale, p, experience, education, skills);
            var c := ClassicTemplate.Render(locale, p, experience, education, skills);
            && m.name == c.name && m.contacts == c.contacts
            && |m.sections| == |c.sections|
            && forall i :: 0 <= i < |m.sections| ==>
                 && m.sections[i].kind == c.sections[i].kind
                 && |m.sections[i].blocks| == |c.sections[i].blocks|
                 && forall j :: 0 <= j < |m.sections[i].blocks| ==>
                      multiset(m.sections[i].blocks[j]) == multiset(c.sections[i].blocks[j])
  {
    var m := ModernTemplate.Render(locale, p, experience, education, skills);
    var c := ClassicTemplate.Render(locale, p, experience, education, skills);
    PresentationsAgree(m, c, locale, p, experience, education, skills);
  }
}
