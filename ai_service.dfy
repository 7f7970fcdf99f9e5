/** `app/services/ai_service.py`: the structured-output schema of the chat model, the raw
    shape in which its decoded answer actually reaches the chat handler (it is returned
    unvalidated), and the fallback answers the service gives when it cannot ask the model. */
module AiService {
  import opened Base
  import opened Text

  // ---- The structured-output schema: every field optional, every list empty by default ----

  datatype PersonalInfo = PersonalInfo(
    fullName: Option<string>, email: Option<string>, phone: Option<string>,
    location: Option<string>, linkedin: Option<string>, github: Option<string>,
    portfolio: Option<string>)

  datatype ExperienceItem = ExperienceItem(
    title: Option<string>, company: Option<string>, location: Option<string>,
    startDate: Option<string>, endDate: Option<string>, isCurrent: Option<bool>,
    description: Option<string>, achievements: seq<string>)

  /** Every field of an education item is a nullable string, so the schema item and the
      decoded dictionary coincide (a missing key reads as None). */
  datatype EducationItem = EducationItem(
    degree: Option<string>, institution: Option<string>, location: Option<string>,
    graduationDate: Option<string>, gpa: Option<string>)

  datatype SkillCategory = SkillCategory(category: Option<string>, skills: seq<string>)

  datatype ProjectItem = ProjectItem(
    name: Option<string>, description: Option<string>, date: Option<string>,
    url: Option<string>, technologies: seq<string>)

  datatype ProfileData = ProfileData(
    personalInfo: Option<PersonalInfo>, summary: Option<string>,
    experience: seq<ExperienceItem>, education: seq<EducationItem>,
    skills: seq<SkillCategory>, projects: seq<ProjectItem>)

  datatype ChatAndExtractResponse = ChatAndExtractResponse(message: string, extractedData: Option<ProfileData>)

  /** The field values a model built with no arguments has. */
  const EmptyPersonalInfo := PersonalInfo(None, None, None, None, None, None, None)
  const EmptyExperienceItem := ExperienceItem(None, None, None, None, None, None, None, [])
  const EmptyEducationItem := EducationItem(None, None, None, None, None)
  const EmptySkillCategory := SkillCategory(None, [])
  const EmptyProjectItem := ProjectItem(None, None, None, None, [])
  const EmptyProfileData := ProfileData(None, None, [], [], [], [])

  // ---- The decoded answer as `json.loads` returns it ----

  /** An experience dictionary. Its keys become the record's columns. */
  datatype RawExperience = RawExperience(
    title: Option<string>, company: Option<string>, location: Option<string>,
    startDate: Option<string>, endDate: Option<string>, isCurrent: Field<bool>,
    description: Option<string>, achievements: Option<seq<string>>)

  /** A skill dictionary: `skill_data.get('skills', [])` distinguishes a missing list from null. */
  datatype RawSkills = RawSkills(category: Option<string>, skills: Field<seq<string>>)

  datatype RawProject = RawProject(
    name: Option<string>, description: Option<string>, date: Option<string>,
    url: Option<string>, technologies: Option<seq<string>>)

  /** The `extracted_data` object: each of its six keys missing, null or present. */
  datatype Fragment = Fragment(
    personalInfo: Field<PersonalInfo>, summary: Field<string>,
    experience: Field<seq<RawExperience>>, education: Field<seq<EducationItem>>,
    skills: Field<seq<RawSkills>>, projects: Field<seq<RawProject>>)
  {
    /** The object is `{}`, which Python reads as false. */
    predicate IsEmptyObject() {
      personalInfo.Absent? && summary.Absent? && experience.Absent? && education.Absent?
      && skills.Absent? && projects.Absent?
    }
  }

  /** The whole decoded answer: `{"message": ..., "extracted_data": ...}`. */
  datatype ChatReply = ChatReply(message: Field<string>, extractedData: Field<Fragment>)

  function OptionToField<T>(x: Option<T>): (r: Field<T>)
    ensures r.Get() == x && !r.Absent?
  {
    match x
    case Some(v) => Value(v)
    case None => Null
  }

  /** An experience item written out with every key: the columns are kept, the flag is
      present (possibly null) and the achievements list is never null. */
  function DumpExperience(e: ExperienceItem): (r: RawExperience)
    ensures r.title == e.title && r.company == e.company && r.location == e.location
    ensures r.startDate == e.startDate && r.endDate == e.endDate && r.description == e.description
    ensures !r.isCurrent.Absent? && r.isCurrent.Get() == e.isCurrent
    ensures r.achievements == Some(e.achievements)
  {
    RawExperience(e.title, e.company, e.location, e.startDate, e.endDate,
      OptionToField(e.isCurrent), e.description, Some(e.achievements))
  }

  function DumpSkills(s: SkillCategory): (r: RawSkills)
    ensures r.category == s.category && r.skills == Value(s.skills)
  {
    RawSkills(s.category, Value(s.skills))
  }

  function DumpProject(p: ProjectItem): (r: RawProject)
    ensures r.name == p.name && r.description == p.description && r.date == p.date && r.url == p.url
    ensures r.technologies == Some(p.technologies)
  {
    RawProject(p.name, p.description, p.date, p.url, Some(p.technologies))
  }

  /** The dictionary an answer decodes to when the model writes out every key of the
      schema: no key is missing, the four lists are present, and each item keeps its
      fields in order. The schema itself does not require the keys that have defaults, so
      this is the reading of a complete answer, not of every answer. */
  function Dump(d: ProfileData): (r: Fragment)
    ensures !r.IsEmptyObject()
    ensures r.personalInfo.Get() == d.personalInfo && r.summary.Get() == d.summary
    ensures !r.personalInfo.Absent? && !r.summary.Absent?
    ensures r.experience.Value? && |r.experience.value| == |d.experience|
    ensures forall i | 0 <= i < |d.experience| :: r.experience.value[i] == DumpExperience(d.experience[i])
    ensures r.education == Value(d.education)
    ensures r.skills.Value? && |r.skills.value| == |d.skills|
    ensures forall i | 0 <= i < |d.skills| :: r.skills.value[i] == DumpSkills(d.skills[i])
    ensures r.projects.Value? && |r.projects.value| == |d.projects|
    ensures forall i | 0 <= i < |d.projects| :: r.projects.value[i] == DumpProject(d.projects[i])
  {
    Fragment(OptionToField(d.personalInfo), OptionToField(d.summary),
      Value(seq(|d.experience|, i requires 0 <= i < |d.experience| => DumpExperience(d.experience[i]))),
      Value(d.education),
      Value(seq(|d.skills|, i requires 0 <= i < |d.skills| => DumpSkills(d.skills[i]))),
      Value(seq(|d.projects|, i requires 0 <= i < |d.projects| => DumpProject(d.projects[i]))))
  }

  /** The whole answer written out with every key of the schema. */
  function DumpReply(r: ChatAndExtractResponse): (c: ChatReply)
    ensures c.message == Value(r.message)
    ensures r.extractedData.None? <==> c.extractedData.Null?
    ensures r.extractedData.Some? ==> c.extractedData == Value(Dump(r.extractedData.value))
  {
    ChatReply(Value(r.message),
      match r.extractedData
      case Some(d) => Value(Dump(d))
      case None => Null)
  }

  // ---- Asking the model ----

  /** What the model call did: raised an exception, or answered with a text. */
  datatype ModelCall = Raised(error: string) | Answered(text: string)

  const NotConfiguredChat := "AI Service is not configured. Please check API Key."
  const NotConfigured := "AI Service is not configured."
  const ChatErrorPrefix := "Sorry, I encountered an error: "
  const ContextHeader := "\n\nCURRENT KNOWN PROFILE DATA (Do not ask for these if present):\n"

  /** The system instructions: the profile context (rendered by `json.dumps`, given as
      `rendered`) is appended only when the context dictionary is not empty. */
  function Instructions<V>(base: string, context: map<string, V>, rendered: string): (r: string)
    ensures StartsWith(r, base)
    ensures r == base <==> context == map[]
    ensures context != map[] ==> r[|base|..] == ContextHeader + rendered
  {
    if context == map[] then base else base + ContextHeader + rendered
  }

  /** `generate_chat_response`: `configured` says whether a client was built, `call` is the
      outcome of sending the message, and `parse` is `json.loads` (None for a decode error). */
  function GenerateChatResponse(configured: bool, call: ModelCall, parse: string -> Option<ChatReply>): (r: ChatReply)
    ensures !configured ==> r == ChatReply(Value(NotConfiguredChat), Null)
    ensures configured && call.Raised? ==> r == ChatReply(Value(ChatErrorPrefix + call.error), Null)
    ensures configured && call.Answered? && parse(call.text).None? ==> r == ChatReply(Value(call.text), Null)
    ensures configured && call.Answered? && parse(call.text).Some? ==> r == parse(call.text).value
  {
    if !configured then ChatReply(Value(NotConfiguredChat), Null)
    else match call
      case Raised(e) => ChatReply(Value(ChatErrorPrefix + e), Null)
      case Answered(text) =>
        match parse(text)
        case None => ChatReply(Value(text), Null)
        case Some(reply) => reply
  }

  /** `generate_resume_content`, `score_resume` and `generate_content`: the fixed message when
      no client exists, the answer text, or `errorPrefix` followed by the error. */
  function GenerateText(configured: bool, call: ModelCall, errorPrefix: string): (r: string)
    ensures !configured ==> r == NotConfigured
    ensures configured && call.Answered? ==> r == call.text
    ensures configured && call.Raised? ==> r == errorPrefix + call.error
  {
    if !configured then NotConfigured
    else match call
      case Answered(text) => text
      case Raised(e) => errorPrefix + e
  }

  const ResumeContentErrorPrefix := "Error generating content: "
  const ScoreErrorPrefix := "Error scoring resume: "
  const ContentErrorPrefix := "Error generating content: "
}
