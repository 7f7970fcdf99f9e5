/** `app/services/resume_generator.py`: the template lookup, the rendering context and the
    output file of `generate_pdf`. Rendering and PDF conversion are inputs. */
module ResumeGenerator {
  import opened Base
  import opened Text

  const TemplateDir := "resume_templates/"
  const FallbackTemplate := "resume_templates/modern_clean.html"
  const OutputDir := "app/static/generated_resumes"
  const SkillsCategory := "Technical Skills"

  /** A dictionary entry of the request (an education, experience or project item); its
      contents are passed to the template unchanged. */
  type Item = map<string, string>

  /** `ResumeData` */
  datatype ResumeData = ResumeData(
    fullName: string, email: string, phone: Option<string>, summary: Option<string>,
    education: seq<Item>, experience: seq<Item>, skills: seq<string>, projects: seq<Item>)

  /** The keys of `data.dict()` that the templates read, after the adaptation: `name` is
      added and `skills` becomes a category map. */
  datatype Context = Context(
    name: string, fullName: string, email: string, phone: Option<string>, summary: Option<string>,
    education: seq<Item>, experience: seq<Item>, skills: map<string, seq<string>>, projects: seq<Item>)

  datatype GenerateError = TemplateMissing | ConversionFailed

  /** `f"resume_templates/{os.path.basename(template_name)}.html"` */
  function TemplatePath(templateName: string): string {
    TemplateDir + Basename(templateName) + ".html"
  }

  lemma {:induction false} BasenameAfterSlash(dir: string, name: string)
    requires '/' !in name
    ensures Basename(dir + "/" + name) == name
    decreases |name|
  {
    var path := dir + "/" + name;
    if name == [] {
      assert path[|path| - 1] == '/';
    } else {
      var init := name[..|name| - 1];
      assert path[..|path| - 1] == dir + "/" + init;
      assert '/' !in init by {
        forall k | 0 <= k < |init| ensures init[k] != '/' {
          assert init[k] == name[k];
        }
      }
      BasenameAfterSlash(dir, init);
      assert init + [name[|name| - 1]] == name;
    }
  }

  lemma {:induction false} BasenamePlain(name: string)
    requires '/' !in name
    ensures Basename(name) == name
    decreases |name|
  {
    if name != [] {
      var init := name[..|name| - 1];
      assert '/' !in init by {
        forall k | 0 <= k < |init| ensures init[k] != '/' {
          assert init[k] == name[k];
        }
      }
      BasenamePlain(init);
      assert init + [name[|name| - 1]] == name;
    }
  }

  /** Directory parts of the name are dropped, so the path stays in the template folder;
      a plain name is used as given. */
  lemma TemplatePathConfined(dir: string, name: string)
    requires '/' !in name
    ensures TemplatePath(dir + "/" + name) == TemplatePath(name) == TemplateDir + name + ".html"
  {
    BasenameAfterSlash(dir, name);
    BasenamePlain(name);
  }

  /** The template that is rendered, given which template files load: the requested one,
      else `modern_clean`, else the lookup raises. */
  function ChosenTemplate(templateName: string, loads: string -> bool): (r: Result<string, GenerateError>)
    ensures loads(TemplatePath(templateName)) ==> r == Ok(TemplatePath(templateName))
    ensures !loads(TemplatePath(templateName)) ==> r == (if loads(FallbackTemplate) then Ok(FallbackTemplate) else Err(TemplateMissing))
  {
    var path := TemplatePath(templateName);
    if loads(path) then Ok(path)
    else if loads(FallbackTemplate) then Ok(FallbackTemplate)
    else Err(TemplateMissing)
  }

  /** `data.dict()` before the adaptation: `name` is not yet a key and `skills` is the list. */
  function Dict(data: ResumeData): Context {
    Context("", data.fullName, data.email, data.phone, data.summary, data.education, data.experience, map[], data.projects)
  }

  /** The flat skill list as the templates' category map, `{}` when empty. */
  function SkillCategories(skills: seq<string>): (r: map<string, seq<string>>)
    ensures r.Keys == if skills == [] then {} else {SkillsCategory}
    ensures skills != [] ==> r[SkillsCategory] == skills
  {
    if skills == [] then map[] else map[SkillsCategory := skills]
  }

  /** The skill list a category map stands for. */
  function FlatSkills(m: map<string, seq<string>>): seq<string> {
    if SkillsCategory in m then m[SkillsCategory] else []
  }

  /** The context the template is rendered with. */
  function RenderContext(data: ResumeData): Context {
    Dict(data).(name := data.fullName, skills := SkillCategories(data.skills))
  }

  /** The adaptation keeps the request: `name` is `full_name`, the skills can be read back
      from the category map, and every other key is the request's own. */
  lemma RenderContextKeepsData(data: ResumeData)
    ensures var c := RenderContext(data);
      && c.name == c.fullName == data.fullName
      && FlatSkills(c.skills) == data.skills
      && |c.skills| <= 1
      && c.(name := "", skills := map[]) == Dict(data)
  {
  }

  /** `os.path.join(output_dir, f"resume_{full_name.replace(' ', '_')}.pdf")` */
  function OutputPath(fullName: string): string {
    OutputDir + "/" + "resume_" + ReplaceChar(fullName, ' ', '_') + ".pdf"
  }

  /** The file name holds no space, so two names that differ only in spaces and
      underscores write the same file. */
  lemma OutputPathShape(fullName: string)
    ensures var p := OutputPath(fullName);
      && |p| == |OutputDir| + |"/resume_"| + |fullName| + |".pdf"|
      && ' ' !in p[|OutputDir| + |"/resume_"|..|p| - |".pdf"|]
    ensures OutputPath(ReplaceChar(fullName, ' ', '_')) == OutputPath(fullName)
  {
    var p := OutputPath(fullName);
    var file := ReplaceChar(fullName, ' ', '_');
    assert p[|OutputDir| + |"/resume_"|..|p| - |".pdf"|] == file;
    assert ReplaceChar(file, ' ', '_') == file;
  }

  /** The whole call: the output path, or the error raised. `converts(template, context)`
      says whether `pisa.CreatePDF` reported no error. */
  function Generated(data: ResumeData, templateName: string, loads: string -> bool,
                     converts: (string, Context) -> bool): (r: Result<string, GenerateError>)
    ensures r.Ok? <==> ChosenTemplate(templateName, loads).Ok? && converts(ChosenTemplate(templateName, loads).value, RenderContext(data))
    ensures r.Ok? ==> r.value == OutputPath(data.fullName)
    ensures r.Err? && ChosenTemplate(templateName, loads).Ok? ==> r.error == ConversionFailed
  {
    var template :- ChosenTemplate(templateName, loads);
    if converts(template, RenderContext(data)) then Ok(OutputPath(data.fullName)) else Err(ConversionFailed)
  }

  /** `generate_pdf`, step by step: the path, the template, the context dictionary updated
      in place, the output file, the conversion. */
  method GeneratePdf(data: ResumeData, templateName: string, loads: string -> bool,
                     converts: (string, Context) -> bool) returns (r: Result<string, GenerateError>)
    ensures r == Generated(data, templateName, loads, converts)
  {
    var safeName := Basename(templateName);
    var templatePath := TemplateDir + safeName + ".html";
    var template := templatePath;
    if !loads(templatePath) {
      if !loads(FallbackTemplate) {
        return Err(TemplateMissing);
      }
      template := FallbackTemplate;
    }
    var context := Dict(data);
    context := context.(name := context.fullName);
    var rawSkills := data.skills;
    context := context.(skills := if rawSkills != [] then map[SkillsCategory := rawSkills] else map[]);
    var outputPath := OutputDir + "/" + "resume_" + ReplaceChar(data.fullName, ' ', '_') + ".pdf";
    if !converts(template, context) {
      return Err(ConversionFailed);
    }
    r := Ok(outputPath);
  }
}
