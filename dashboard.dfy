/** The dashboard page's draft state: the form fields the page holds, the list edits
    of the experience and education tabs, loading a fetched resume into the form,
    the payload a save sends, the skills preview and the template choice. */
module Dashboard {
  import opened ResumeTypes
  import opened Text
  import opened EntryLists
  import ResumeStore
  import TemplateRules
  import ModernTemplate
  import ClassicTemplate

  const DefaultTemplate := "modern"

  /** The keys of an Experience that an input may update. */
  datatype ExperienceField = Id | Title | Company | Location | StartDate | EndDate | Description

  /** The keys of an Education that an input may update. */
  datatype EducationField = Id | Degree | School | Location | StartDate | EndDate | Gpa

  /** The keys of the personal-information block. */
  datatype PersonalField = Name | Email | Phone | Location | Website | LinkedIn

  function ExperienceKey(e: Experience): string { e.id }

  function EducationKey(e: Education): string { e.id }

  function ExperienceValue(e: Experience, f: ExperienceField): string {
    match f
    case Id => e.id
    case Title => e.title
    case Company => e.company
    case Location => e.location
    case StartDate => e.startDate
    case EndDate => e.endDate
    case Description => e.description
  }

  function EducationValue(e: Education, f: EducationField): string {
    match f
    case Id => e.id
    case Degree => e.degree
    case School => e.school
    case Location => e.location
    case StartDate => e.startDate
    case EndDate => e.endDate
    case Gpa => e.gpa
  }

  function PersonalValue(p: PersonalInfo, f: PersonalField): string {
    match f
    case Name => p.name
    case Email => p.email
    case Phone => p.phone
    case Location => p.location
    case Website => p.website
    case LinkedIn => p.linkedin
  }

  /** `{ ...e, [f]: v }` */
  function WithExperienceValue(e: Experience, f: ExperienceField, v: string): (r: Experience)
    ensures ExperienceValue(r, f) == v
    ensures forall g :: g != f ==> ExperienceValue(r, g) == ExperienceValue(e, g)
  {
    match f
    case Id => e.(id := v)
    case Title => e.(title := v)
    case Company => e.(company := v)
    case Location => e.(location := v)
    case StartDate => e.(startDate := v)
    case EndDate => e.(endDate := v)
    case Description => e.(description := v)
  }

  /** `{ ...e, [f]: v }` */
  function WithEducationValue(e: Education, f: EducationField, v: string): (r: Education)
    ensures EducationValue(r, f) == v
    ensures forall g :: g != f ==> EducationValue(r, g) == EducationValue(e, g)
  {
    match f
    case Id => e.(id := v)
    case Degree => e.(degree := v)
    case School => e.(school := v)
    case Location => e.(location := v)
    case StartDate => e.(startDate := v)
    case EndDate => e.(endDate := v)
    case Gpa => e.(gpa := v)
  }

  /** `{ ...personalInfo, [f]: v }` */
  function WithPersonalValue(p: PersonalInfo, f: PersonalField, v: string): (r: PersonalInfo)
    ensures PersonalValue(r, f) == v
    ensures forall g :: g != f ==> PersonalValue(r, g) == PersonalValue(p, g)
  {
    match f
    case Name => p.(name := v)
    case Email => p.(email := v)
    case Phone => p.(phone := v)
    case Location => p.(location := v)
    case Website => p.(website := v)
    case LinkedIn => p.(linkedin := v)
  }

  /** The entry addExperience appends: the given id, every text field empty. */
  function BlankExperience(id: string): (e: Experience)
    ensures e.id == id
    ensures forall f :: f != ExperienceField.Id ==> ExperienceValue(e, f) == ""
  {
    Experience(id, "", "", "", "", "", "")
  }

  /** The entry addEducation appends: the given id, every text field (GPA too) empty. */
  function BlankEducation(id: string): (e: Education)
    ensures e.id == id
    ensures forall f :: f != EducationField.Id ==> EducationValue(e, f) == ""
  {
    Education(id, "", "", "", "", "", "")
  }

  /** updateExperience's map: field `f` set to `v` in every entry with that id. */
  function UpdateExperiences(s: seq<Experience>, id: string, f: ExperienceField, v: string): (r: seq<Experience>)
    ensures |r| == |s|
    ensures forall i :: 0 <= i < |s| && s[i].id == id ==>
      ExperienceValue(r[i], f) == v && forall g :: g != f ==> ExperienceValue(r[i], g) == ExperienceValue(s[i], g)
    ensures forall i :: 0 <= i < |s| && s[i].id != id ==> r[i] == s[i]
  {
    UpdateById(s, ExperienceKey, id, e => WithExperienceValue(e, f, v))
  }

  /** updateEducation's map: field `f` set to `v` in every entry with that id. */
  function UpdateEducations(s: seq<Education>, id: string, f: EducationField, v: string): (r: seq<Education>)
    ensures |r| == |s|
    ensures forall i :: 0 <= i < |s| && s[i].id == id ==>
      EducationValue(r[i], f) == v && forall g :: g != f ==> EducationValue(r[i], g) == EducationValue(s[i], g)
    ensures forall i :: 0 <= i < |s| && s[i].id != id ==> r[i] == s[i]
  {
    UpdateById(s, EducationKey, id, e => WithEducationValue(e, f, v))
  }

  /** Adding then removing an experience removes it together with every earlier entry
      that got the same id; with a fresh id it restores the list. */
  lemma RemoveAddedExperience(s: seq<Experience>, id: string)
    ensures RemoveById(s + [BlankExperience(id)], ExperienceKey, id) == RemoveById(s, ExperienceKey, id)
    ensures (forall e :: e in s ==> e.id != id) ==> RemoveById(s + [BlankExperience(id)], ExperienceKey, id) == s
  {
    RemoveAfterAppend(s, BlankExperience(id), ExperienceKey);
    if forall e :: e in s ==> e.id != id {
      RemoveAbsent(s, ExperienceKey, id);
    }
  }

  /** The same for education. */
  lemma RemoveAddedEducation(s: seq<Education>, id: string)
    ensures RemoveById(s + [BlankEducation(id)], EducationKey, id) == RemoveById(s, EducationKey, id)
    ensures (forall e :: e in s ==> e.id != id) ==> RemoveById(s + [BlankEducation(id)], EducationKey, id) == s
  {
    RemoveAfterAppend(s, BlankEducation(id), EducationKey);
    if forall e :: e in s ==> e.id != id {
      RemoveAbsent(s, EducationKey, id);
    }
  }

  /** Editing a field other than the id of an entry and then removing that id is the
      same as removing it straight away. */
  lemma RemoveEditedExperience(s: seq<Experience>, id: string, f: ExperienceField, v: string)
    requires f != ExperienceField.Id
    ensures RemoveById(UpdateExperiences(s, id, f, v), ExperienceKey, id) == RemoveById(s, ExperienceKey, id)
  {
    var g := e => WithExperienceValue(e, f, v);
    forall x ensures ExperienceKey(g(x)) == ExperienceKey(x) {
      assert ExperienceValue(g(x), ExperienceField.Id) == ExperienceValue(x, ExperienceField.Id);
    }
    RemoveAfterUpdate(s, ExperienceKey, id, g);
  }

  /** A fetched resume as the page sees it: any field may be missing (null). */
  datatype LoadedResume = LoadedResume(
    template: Option<string>,
    personalInfo: Option<PersonalInfo>,
    experience: Option<seq<Experience>>,
    education: Option<seq<Education>>,
    skills: Option<string>)

  /** The result of the load request: a failed or non-ok response, or the `resume`
      of an ok one. */
  datatype FetchOutcome = FetchFailed | Fetched(resume: Option<LoadedResume>)

  /** loadResumeData's defaults: a missing or empty template becomes "modern", missing
      lists become empty, missing skills become "", and a missing personal-information
      block keeps the current one. */
  function Merge(current: ResumeData, loaded: LoadedResume): (d: ResumeData)
    ensures d.template != ""
    ensures loaded.template.Some? && loaded.template.value != "" ==> d.template == loaded.template.value
    ensures loaded.template.None? || loaded.template.value == "" ==> d.template == DefaultTemplate
    ensures d.personalInfo == if loaded.personalInfo.Some? then loaded.personalInfo.value else current.personalInfo
    ensures d.experience == if loaded.experience.Some? then loaded.experience.value else []
    ensures d.education == if loaded.education.Some? then loaded.education.value else []
    ensures d.skills == if loaded.skills.Some? then loaded.skills.value else ""
  {
    ResumeData(
      if loaded.template.Some? && loaded.template.value != "" then loaded.template.value else DefaultTemplate,
      if loaded.personalInfo.Some? then loaded.personalInfo.value else current.personalInfo,
      if loaded.experience.Some? then loaded.experience.value else [],
      if loaded.education.Some? then loaded.education.value else [],
      if loaded.skills.Some? && loaded.skills.value != "" then loaded.skills.value else "")
  }

  /** A stored record as the page receives it: every field present. */
  function AsLoaded(d: ResumeData): LoadedResume {
    LoadedResume(Some(d.template), Some(d.personalInfo), Some(d.experience), Some(d.education), Some(d.skills))
  }

  /** How the page reads the GET response: only an ok response is looked at. */
  function FromResponse(res: ResumeStore.Response<Option<ResumeStore.Resume>>): (outcome: FetchOutcome)
    ensures outcome.FetchFailed? <==> res.Failure?
    ensures res.Ok? ==> (outcome.resume.None? <==> res.body.None?)
    ensures res.Ok? && res.body.Some? ==> outcome.resume == Some(AsLoaded(res.body.value.data))
  {
    match res
    case Failure(_, _) => FetchFailed
    case Ok(None) => Fetched(None)
    case Ok(Some(r)) => Fetched(Some(AsLoaded(r.data)))
  }

  /** Loading a complete record restores it exactly, whatever the draft was, provided
      its template is not empty. */
  lemma MergeComplete(current: ResumeData, d: ResumeData)
    requires d.template != ""
    ensures Merge(current, AsLoaded(d)) == d
  {
  }

  /** Save, then reload: the draft a user saved (with a chosen template) comes back
      from the store into the form unchanged. */
  lemma SaveThenReload(records: seq<ResumeStore.Resume>, nextId: nat, u: string, d: ResumeData, current: ResumeData)
    requires d.template != ""
    ensures var after := ResumeStore.Upserted(records, nextId, u, d);
            var outcome := FromResponse(ResumeStore.Ok(ResumeStore.Lookup(after, u)));
            outcome.Fetched? && outcome.resume.Some? && Merge(current, outcome.resume.value) == d
  {
    ResumeStore.SaveThenGet(records, nextId, u, d);
  }

  function TrimAll(segments: seq<string>): (r: seq<string>)
    ensures |r| == |segments|
    ensures forall i :: 0 <= i < |segments| ==> r[i] == Trim(segments[i])
  {
    if segments == [] then [] else [Trim(segments[0])] + TrimAll(segments[1..])
  }

  function DropEmpty(s: seq<string>): seq<string> {
    if s == [] then [] else (if s[0] == "" then [] else [s[0]]) + DropEmpty(s[1..])
  }

  /** The skills preview badges: every comma-separated segment, trimmed, empty ones
      included; nothing for an empty skills string. */
  function SkillsPreview(skills: string): (badges: seq<string>)
    ensures skills == "" ==> badges == []
    ensures skills != "" ==> |badges| == Count(skills, ',') + 1
    ensures skills != "" ==> forall i :: 0 <= i < |badges| ==> badges[i] == Trim(Split(skills)[i])
    ensures forall b :: b in badges ==> IsTrimmed(b)
  {
    if skills == "" then [] else TrimAll(Split(skills))
  }

  lemma {:induction false} NonBlankIsDropEmpty(segments: seq<string>)
    ensures TemplateRules.NonBlank(segments) == DropEmpty(TrimAll(segments))
  {
    if segments != [] {
      NonBlankIsDropEmpty(segments[1..]);
      assert TrimAll(segments)[1..] == TrimAll(segments[1..]);
    }
  }

  /** The templates' tags are the preview's badges without the empty ones. */
  lemma PreviewVersusTags(skills: string)
    ensures TemplateRules.SkillTags(skills) == DropEmpty(SkillsPreview(skills))
  {
    NonBlankIsDropEmpty(Split(skills));
    if skills == "" {
      assert Split(skills) == [""];
      assert TrimAll([""]) == [Trim("")];
      assert DropEmpty([""]) == [];
    }
  }

  /** The sample string shows five badges in the preview, two of them empty, but
      three tags in the templates. */
  lemma PreviewSample(skills: string)
    requires skills == "JavaScript, React,  Node.js ,,"
    ensures SkillsPreview(skills) == ["JavaScript", "React", "Node.js", "", ""]
    ensures |TemplateRules.SkillTags(skills)| == 3
  {
    var js, react, node := "JavaScript", " React", "  Node.js ";
    var parts := [js, react, node, "", ""];
    TemplateRules.SampleSplit(skills, parts);
    TemplateRules.SampleTrimJs(js);
    TemplateRules.SampleTrimReact(react);
    TemplateRules.SampleTrimNode(node);
    assert skills[0] == 'J';
    TrimAllOfFive(parts);
    TemplateRules.SampleTags(skills);
  }

  lemma TrimAllOfFive(parts: seq<string>)
    requires |parts| == 5 && parts[3] == "" && parts[4] == ""
    ensures TrimAll(parts) == [Trim(parts[0]), Trim(parts[1]), Trim(parts[2]), "", ""]
  {
    assert Trim(parts[3]) == "" && Trim(parts[4]) == "";
  }

  /** The preview pane: the modern template for "modern", the classic one for any
      other value. Either way it presents the draft by the shared rules. */
  function PreviewDocument(locale: string -> string, d: ResumeData): (doc: TemplateRules.Document)
    ensures TemplateRules.Presents(doc, locale, d.personalInfo, d.experience, d.education, d.skills)
  {
    if d.template == DefaultTemplate then
      ModernTemplate.Render(locale, d.personalInfo, d.experience, d.education, d.skills)
    else
      ClassicTemplate.Render(locale, d.personalInfo, d.experience, d.education, d.skills)
  }

  const InitialDraft := ResumeData(DefaultTemplate, EmptyPersonalInfo, [], [], "")

  class Editor {
    var user: Option<string>
    var loading: bool
    var template: string
    var personalInfo: PersonalInfo
    var experience: seq<Experience>
    var education: seq<Education>
    var skills: string

    /** The draft the form holds. */
    function Draft(): ResumeData
      reads this
    {
      ResumeData(template, personalInfo, experience, education, skills)
    }

    constructor ()
      ensures user == None && loading && Draft() == InitialDraft
    {
      user := None;
      loading := true;
      template, personalInfo, experience, education, skills := DefaultTemplate, EmptyPersonalInfo, [], [], "";
    }

    /** The mount effect found a signed-in user with this id. */
    method SignIn(userId: string)
      modifies this`user
      ensures user == Some(userId)
    {
      user := Some(userId);
    }

    /** loadResumeData: a present resume replaces the draft (with defaults); a failed
        request or an absent resume leaves it as it was; loading ends either way. */
    method LoadResume(outcome: FetchOutcome)
      modifies this
      ensures user == old(user) && !loading
      ensures outcome.Fetched? && outcome.resume.Some? ==> Draft() == Merge(old(Draft()), outcome.resume.value)
      ensures !(outcome.Fetched? && outcome.resume.Some?) ==> Draft() == old(Draft())
    {
      if outcome.Fetched? && outcome.resume.Some? {
        var d := Merge(Draft(), outcome.resume.value);
        template, personalInfo, experience, education, skills := d.template, d.personalInfo, d.experience, d.education, d.skills;
      }
      loading := false;
    }

    /** saveResume: nothing without a user; otherwise the request carries the user's id
        and the whole draft. */
    method SaveResume() returns (request: Option<ResumeStore.SaveRequest>)
      ensures request.None? <==> user.None?
      ensures request.Some? ==> request.value.userId == user && request.value.data == Draft()
    {
      if user.None? {
        return None;
      }
      request := Some(ResumeStore.SaveRequest(user, Draft()));
    }

    method AddExperience(newId: string)
      modifies this`experience
      ensures experience == old(experience) + [BlankExperience(newId)]
    {
      experience := experience + [BlankExperience(newId)];
    }

    method RemoveExperience(id: string)
      modifies this`experience
      ensures experience == RemoveById(old(experience), ExperienceKey, id)
    {
      experience := RemoveById(experience, ExperienceKey, id);
    }

    method UpdateExperience(id: string, field: ExperienceField, value: string)
      modifies this`experience
      ensures experience == UpdateExperiences(old(experience), id, field, value)
    {
      experience := UpdateExperiences(experience, id, field, value);
    }

    method AddEducation(newId: string)
      modifies this`education
      ensures education == old(education) + [BlankEducation(newId)]
    {
      education := education + [BlankEducation(newId)];
    }

    method RemoveEducation(id: string)
      modifies this`education
      ensures education == RemoveById(old(education), EducationKey, id)
    {
      education := RemoveById(education, EducationKey, id);
    }

    method UpdateEducation(id: string, field: EducationField, value: string)
      modifies this`education
      ensures education == UpdateEducations(old(education), id, field, value)
    {
      education := UpdateEducations(education, id, field, value);
    }

    method SetPersonalInfo(field: PersonalField, value: string)
      modifies this`personalInfo
      ensures personalInfo == WithPersonalValue(old(personalInfo), field, value)
    {
      personalInfo := WithPersonalValue(personalInfo, field, value);
    }

    method SetSkills(value: string)
      modifies this`skills
      ensures skills == value
    {
      skills := value;
    }

    method SetTemplate(value: string)
      modifies this`template
      ensures template == value
    {
      template := value;
    }
  }
}
