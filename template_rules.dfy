/** The rules both templates apply to the resume data, and the data-level view of a
    rendered document: which header, contacts, sections and entry lines appear.
    Layout and styling are not part of this view. */
module TemplateRules {
  import opened ResumeTypes
  import opened Text

  /** formatDate: "" for "", otherwise the locale formatter ("Mon YYYY"), which is
      a parameter here. */
  function FormatDate(locale: string -> string, date: string): (r: string)
    ensures date == "" ==> r == ""
  {
    if date == "" then "" else locale(date)
  }

  /** An experience's date range; an open end reads "Present". */
  function ExperienceRange(locale: string -> string, e: Experience): (r: string)
    ensures e.endDate == "" ==> r == FormatDate(locale, e.startDate) + " - Present"
    ensures e.endDate != "" ==> r == FormatDate(locale, e.startDate) + " - " + locale(e.endDate)
  {
    assert " - " + "Present" == " - Present";
    FormatDate(locale, e.startDate) + " - " + (if e.endDate != "" then FormatDate(locale, e.endDate) else "Present")
  }

  /** An education's date range; an open end stays empty. */
  function EducationRange(locale: string -> string, e: Education): (r: string)
    ensures e.endDate == "" ==> r == FormatDate(locale, e.startDate) + " - "
    ensures e.endDate != "" ==> r == FormatDate(locale, e.startDate) + " - " + locale(e.endDate)
  {
    assert FormatDate(locale, e.startDate) + " - " + "" == FormatDate(locale, e.startDate) + " - ";
    FormatDate(locale, e.startDate) + " - " + FormatDate(locale, e.endDate)
  }

  /** The asymmetry: for the same dates, the two ranges read alike exactly when the end
      date is given. */
  lemma RangesDifferOnlyWhenOpenEnded(locale: string -> string, e: Experience, ed: Education)
    requires e.startDate == ed.startDate && e.endDate == ed.endDate
    ensures ExperienceRange(locale, e) == EducationRange(locale, ed) <==> e.endDate != ""
  {
    if e.endDate == "" {
      assert |ExperienceRange(locale, e)| == |EducationRange(locale, ed)| + 7;
    }
  }

  /** The header name, "Your Name" when the name is empty. */
  function DisplayName(p: PersonalInfo): (r: string)
    ensures r != ""
    ensures p.name != "" ==> r == p.name
    ensures p.name == "" ==> r == "Your Name"
  {
    if p.name != "" then p.name else "Your Name"
  }

  datatype ContactKind = Email | Phone | Location | Website | LinkedIn
  datatype Contact = Contact(kind: ContactKind, value: string)

  function ContactValue(p: PersonalInfo, k: ContactKind): string {
    match k
    case Email => p.email
    case Phone => p.phone
    case Location => p.location
    case Website => p.website
    case LinkedIn => p.linkedin
  }

  /** The position of a contact kind in the header. */
  function Rank(k: ContactKind): nat {
    match k
    case Email => 0
    case Phone => 1
    case Location => 2
    case Website => 3
    case LinkedIn => 4
  }

  /** Contact kinds in strictly increasing header position. */
  predicate Ordered(kinds: seq<ContactKind>) {
    forall i, j :: 0 <= i < j < |kinds| ==> Rank(kinds[i]) < Rank(kinds[j])
  }

  /** The contacts of the given kinds that are non-empty, in the given order. */
  function ContactsOf(p: PersonalInfo, kinds: seq<ContactKind>): seq<Contact> {
    if kinds == [] then []
    else if ContactValue(p, kinds[0]) != "" then
      [Contact(kinds[0], ContactValue(p, kinds[0]))] + ContactsOf(p, kinds[1..])
    else
      ContactsOf(p, kinds[1..])
  }

  /** Every contact shown is a non-empty field of one of the kinds asked for. */
  lemma {:induction false} ContactsOfShowsFields(p: PersonalInfo, kinds: seq<ContactKind>)
    ensures forall c :: c in ContactsOf(p, kinds) ==>
      c.kind in kinds && c.value != "" && c.value == ContactValue(p, c.kind)
  {
    if kinds != [] {
      ContactsOfShowsFields(p, kinds[1..]);
      assert forall k :: k in kinds[1..] ==> k in kinds;
    }
  }

  /** Every non-empty field of a kind asked for is shown. */
  lemma {:induction false} ContactsOfShowsAll(p: PersonalInfo, kinds: seq<ContactKind>)
    ensures forall k :: k in kinds && ContactValue(p, k) != "" ==> Contact(k, ContactValue(p, k)) in ContactsOf(p, kinds)
  {
    if kinds != [] {
      ContactsOfShowsAll(p, kinds[1..]);
      assert forall k :: k in kinds ==> k == kinds[0] || k in kinds[1..];
    }
  }

  /** Contacts follow the order of the kinds. */
  lemma {:induction false} ContactsOfOrdered(p: PersonalInfo, kinds: seq<ContactKind>)
    requires Ordered(kinds)
    ensures forall i, j :: 0 <= i < j < |ContactsOf(p, kinds)| ==>
      Rank(ContactsOf(p, kinds)[i].kind) < Rank(ContactsOf(p, kinds)[j].kind)
  {
    if kinds != [] {
      ContactsOfOrdered(p, kinds[1..]);
      ContactsOfShowsFields(p, kinds[1..]);
      var rest := ContactsOf(p, kinds[1..]);
      forall c | c in rest ensures Rank(kinds[0]) < Rank(c.kind) {
        var j :| 0 <= j < |kinds[1..]| && kinds[1..][j] == c.kind;
        assert kinds[j + 1] == c.kind;
      }
    }
  }

  const HeaderOrder := [Email, Phone, Location, Website, LinkedIn]

  /** The header's contact items: each non-empty field, and only those, in the order
      email, phone, location, website, linkedin. */
  function Contacts(p: PersonalInfo): (cs: seq<Contact>)
    ensures forall c :: c in cs ==> c.value != "" && c.value == ContactValue(p, c.kind)
    ensures forall k :: ContactValue(p, k) != "" <==> Contact(k, ContactValue(p, k)) in cs
    ensures forall i, j :: 0 <= i < j < |cs| ==> Rank(cs[i].kind) < Rank(cs[j].kind)
  {
    forall k: ContactKind ensures k in HeaderOrder {
      assert HeaderOrder[Rank(k)] == k;
    }
    assert Ordered(HeaderOrder);
    ContactsOfShowsFields(p, HeaderOrder);
    ContactsOfShowsAll(p, HeaderOrder);
    ContactsOfOrdered(p, HeaderOrder);
    ContactsOf(p, HeaderOrder)
  }

  /** The segments whose trim is non-empty, trimmed, in order. */
  function NonBlank(segments: seq<string>): (tags: seq<string>)
    ensures |tags| <= |segments|
    ensures forall t :: t in tags ==> t != "" && IsTrimmed(t)
  {
    if segments == [] then []
    else if Trim(segments[0]) == "" then NonBlank(segments[1..])
    else [Trim(segments[0])] + NonBlank(segments[1..])
  }

  /** Each tag is non-empty and trimmed, and holds no character that no segment holds. */
  lemma {:induction false} NonBlankTags(segments: seq<string>, c: char)
    requires forall s :: s in segments ==> c !in s
    ensures |NonBlank(segments)| <= |segments|
    ensures forall t :: t in NonBlank(segments) ==> t != "" && IsTrimmed(t) && c !in t
  {
    if segments != [] {
      NonBlankTags(segments[1..], c);
      TrimKeepsChars(segments[0], c);
    }
  }

  /** skillsList, rendered trimmed: the comma-separated segments of the skills string
      whose trim is non-empty. */
  function SkillTags(skills: string): (tags: seq<string>)
    ensures |tags| <= Count(skills, ',') + 1
    ensures forall t :: t in tags ==> t != "" && IsTrimmed(t) && ',' !in t
  {
    NonBlankTags(Split(skills), ',');
    NonBlank(Split(skills))
  }

  /** The sample skills string: three tags, blanks and padding dropped. */
  lemma SkillTagsExample()
    ensures SkillTags("JavaScript, React,  Node.js ,,") == ["JavaScript", "React", "Node.js"]
  {
    SampleTags("JavaScript, React,  Node.js ,,");
  }

  lemma SampleTags(skills: string)
    requires skills == "JavaScript, React,  Node.js ,,"
    ensures SkillTags(skills) == ["JavaScript", "React", "Node.js"]
  {
    var js, react, node := "JavaScript", " React", "  Node.js ";
    SampleSplit(skills, [js, react, node, "", ""]);
    SampleTrimJs(js);
    SampleTrimReact(react);
    SampleTrimNode(node);
    NonBlankOfFive(js, react, node, "", "");
  }

  /** One step of NonBlank. */
  lemma NonBlankCons(x: string, rest: seq<string>)
    ensures NonBlank([x] + rest) == (if Trim(x) == "" then [] else [Trim(x)]) + NonBlank(rest)
  {
    assert ([x] + rest)[0] == x && ([x] + rest)[1..] == rest;
  }

  /** NonBlank over five segments, the last two blank. */
  lemma NonBlankOfFive(a: string, b: string, c: string, d: string, e: string)
    requires Trim(a) != "" && Trim(b) != "" && Trim(c) != "" && Trim(d) == "" && Trim(e) == ""
    ensures NonBlank([a, b, c, d, e]) == [Trim(a), Trim(b), Trim(c)]
  {
    var s1: seq<string> := [e];
    var s2 := [d] + s1;
    var s3 := [c] + s2;
    var s4 := [b] + s3;
    NonBlankCons(e, []);
    assert [e] + [] == s1;
    NonBlankCons(d, s1);
    NonBlankCons(c, s2);
    NonBlankCons(b, s3);
    NonBlankCons(a, s4);
    assert [a] + s4 == [a, b, c, d, e];
  }

  lemma SampleSplit(skills: string, parts: seq<string>)
    requires skills == "JavaScript, React,  Node.js ,,"
    requires parts == ["JavaScript", " React", "  Node.js ", "", ""]
    ensures Split(skills) == parts
  {
    assert Join(parts[4..]) == "";
    assert Join(parts[3..]) == ",";
    assert Join(parts[2..]) == "  Node.js ,,";
    assert Join(parts[1..]) == " React,  Node.js ,,";
    assert Join(parts) == skills;
    SplitJoin(parts);
  }

  lemma SampleTrimJs(js: string)
    requires js == "JavaScript"
    ensures Trim(js) == js
  {
    assert js[0] == 'J' && js[|js| - 1] == 't';
    TrimOfTrimmed(js);
  }

  lemma SampleTrimReact(react: string)
    requires react == " React"
    ensures Trim(react) == "React"
  {
    assert react[..1] == " " && react[6..] == "" && react[1] == 'R' && react[5] == 't';
    TrimExact(react, 1, 6);
  }

  lemma SampleTrimNode(node: string)
    requires node == "  Node.js "
    ensures Trim(node) == "Node.js"
  {
    assert node[..2] == "  " && node[9..] == " " && node[2] == 'N' && node[8] == 's';
    TrimExact(node, 2, 9);
  }

  /** One rendered line of an entry or of the skills section. */
  datatype Line =
    | Title(title: string)
    | Company(company: string)
    | Place(place: string)
    | Dates(range: string)
    | Description(text: string)
    | Degree(degree: string)
    | School(school: string)
    | Gpa(gpa: string)
    | Tag(skill: string)

  datatype SectionKind = ExperienceSection | EducationSection | SkillsSection

  /** A section: its kind and one block of lines per entry (per tag for skills). */
  /** Where a section kind sits on the page. */
  function Position(k: SectionKind): nat {
    match k
    case ExperienceSection => 0
    case EducationSection => 1
    case SkillsSection => 2
  }

  datatype Section = Section(kind: SectionKind, blocks: seq<seq<Line>>)

  datatype Document = Document(name: string, contacts: seq<Contact>, sections: seq<Section>)

  /** A description line only for a non-empty description. */
  function DescriptionLines(description: string): (lines: seq<Line>)
    ensures lines == [] <==> description == ""
    ensures forall l :: l in lines ==> l == Description(description)
  {
    if description != "" then [Description(description)] else []
  }

  /** A GPA line only for a non-empty GPA. */
  function GpaLines(gpa: string): (lines: seq<Line>)
    ensures lines == [] <==> gpa == ""
    ensures forall l :: l in lines ==> l == Gpa(gpa)
  {
    if gpa != "" then [Gpa(gpa)] else []
  }

  /** What an experience block shows, whatever the layout order. */
  function ExperienceContent(locale: string -> string, e: Experience): multiset<Line> {
    multiset{Title(e.title), Company(e.company), Place(e.location), Dates(ExperienceRange(locale, e))}
      + multiset(DescriptionLines(e.description))
  }

  /** What an education block shows, whatever the layout order. */
  function EducationContent(locale: string -> string, e: Education): multiset<Line> {
    multiset{Degree(e.degree), School(e.school), Place(e.location), Dates(EducationRange(locale, e))}
      + multiset(GpaLines(e.gpa))
  }

  /** The sections shown: each only when it has something to show, in the order
      experience, education, skills. */
  function VisibleSections(experience: seq<Experience>, education: seq<Education>, tags: seq<string>): (kinds: seq<SectionKind>)
    ensures ExperienceSection in kinds <==> |experience| > 0
    ensures EducationSection in kinds <==> |education| > 0
    ensures SkillsSection in kinds <==> |tags| > 0
    ensures forall i, j :: 0 <= i < j < |kinds| ==> Position(kinds[i]) < Position(kinds[j])
  {
    (if |experience| > 0 then [ExperienceSection] else [])
      + (if |education| > 0 then [EducationSection] else [])
      + (if |tags| > 0 then [SkillsSection] else [])
  }

  function Kinds(sections: seq<Section>): (kinds: seq<SectionKind>)
    ensures |kinds| == |sections|
    ensures forall i :: 0 <= i < |sections| ==> kinds[i] == sections[i].kind
  {
    seq(|sections|, i requires 0 <= i < |sections| => sections[i].kind)
  }

  /** A section shows one block per entry (per tag), each with that entry's content. */
  predicate SectionShows(section: Section, locale: string -> string,
                         experience: seq<Experience>, education: seq<Education>, tags: seq<string>)
  {
    match section.kind
    case ExperienceSection =>
      |section.blocks| == |experience| &&
      forall i :: 0 <= i < |experience| ==> multiset(section.blocks[i]) == ExperienceContent(locale, experience[i])
    case EducationSection =>
      |section.blocks| == |education| &&
      forall i :: 0 <= i < |education| ==> multiset(section.blocks[i]) == EducationContent(locale, education[i])
    case SkillsSection =>
      |section.blocks| == |tags| &&
      forall i :: 0 <= i < |tags| ==> section.blocks[i] == [Tag(tags[i])]
  }

  /** `doc` presents the resume by the shared rules: name fallback, contacts, section
      visibility and each entry's content. */
  predicate Presents(doc: Document, locale: string -> string, p: PersonalInfo,
                     experience: seq<Experience>, education: seq<Education>, skills: string)
  {
    && doc.name == DisplayName(p)
    && doc.contacts == Contacts(p)
    && Kinds(doc.sections) == VisibleSections(experience, education, SkillTags(skills))
    && forall s :: s in doc.sections ==> SectionShows(s, locale, experience, education, SkillTags(skills))
  }

  lemma KindsConcat(a: seq<Section>, b: seq<Section>)
    ensures Kinds(a + b) == Kinds(a) + Kinds(b)
  {
  }

  /** The experience section, shown only for a non-empty list: one block per entry,
      drawn by the template's `block`, which must show the entry's content. */
  function ExperienceSections(locale: string -> string, experience: seq<Experience>,
                              block: Experience -> seq<Line>): (r: seq<Section>)
    requires forall e :: multiset(block(e)) == ExperienceContent(locale, e)
    ensures Kinds(r) == (if |experience| > 0 then [ExperienceSection] else [])
    ensures forall s :: s in r ==> s.kind == ExperienceSection && |s.blocks| == |experience|
    ensures forall s, i :: s in r && 0 <= i < |experience| ==>
      multiset(s.blocks[i]) == ExperienceContent(locale, experience[i])
  {
    if |experience| > 0 then
      [Section(ExperienceSection, seq(|experience|, i requires 0 <= i < |experience| => block(experience[i])))]
    else []
  }

  /** The education section, shown only for a non-empty list: one block per entry,
      drawn by the template's `block`, which must show the entry's content. */
  function EducationSections(locale: string -> string, education: seq<Education>,
                             block: Education -> seq<Line>): (r: seq<Section>)
    requires forall e :: multiset(block(e)) == EducationContent(locale, e)
    ensures Kinds(r) == (if |education| > 0 then [EducationSection] else [])
    ensures forall s :: s in r ==> s.kind == EducationSection && |s.blocks| == |education|
    ensures forall s, i :: s in r && 0 <= i < |education| ==>
      multiset(s.blocks[i]) == EducationContent(locale, education[i])
  {
    if |education| > 0 then
      [Section(EducationSection, seq(|education|, i requires 0 <= i < |education| => block(education[i])))]
    else []
  }

  /** The skills section: one tag per block, shown only when there are tags. */
  function SkillsSections(tags: seq<string>): (r: seq<Section>)
    ensures Kinds(r) == (if |tags| > 0 then [SkillsSection] else [])
    ensures forall s :: s in r ==> s.kind == SkillsSection && |s.blocks| == |tags|
    ensures forall s, i :: s in r && 0 <= i < |tags| ==> s.blocks[i] == [Tag(tags[i])]
  {
    if |tags| > 0 then [Section(SkillsSection, seq(|tags|, i requires 0 <= i < |tags| => [Tag(tags[i])]))] else []
  }

  /** Any two documents that present the same resume agree at the data level: same
      header, same sections in the same order, same number of blocks, and each block
      shows the same lines. */
  lemma PresentationsAgree(d1: Document, d2: Document, locale: string -> string, p: PersonalInfo,
                           experience: seq<Experience>, education: seq<Education>, skills: string)
    requires Presents(d1, locale, p, experience, education, skills)
    requires Presents(d2, locale, p, experience, education, skills)
    ensures d1.name == d2.name && d1.contacts == d2.contacts
    ensures |d1.sections| == |d2.sections|
    ensures forall i :: 0 <= i < |d1.sections| ==>
      && d1.sections[i].kind == d2.sections[i].kind
      && |d1.sections[i].blocks| == |d2.sections[i].blocks|
      && forall j :: 0 <= j < |d1.sections[i].blocks| ==>
           multiset(d1.sections[i].blocks[j]) == multiset(d2.sections[i].blocks[j])
  {
    var tags := SkillTags(skills);
    forall i | 0 <= i < |d1.sections|
      ensures d1.sections[i].kind == d2.sections[i].kind
      ensures |d1.sections[i].blocks| == |d2.sections[i].blocks|
      ensures forall j :: 0 <= j < |d1.sections[i].blocks| ==>
                multiset(d1.sections[i].blocks[j]) == multiset(d2.sections[i].blocks[j])
    {
      assert Kinds(d1.sections)[i] == Kinds(d2.sections)[i];
      assert d1.sections[i] in d1.sections && d2.sections[i] in d2.sections;
    }
  }
}
