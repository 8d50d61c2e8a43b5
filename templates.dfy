/** The template store's addressing and the fixed names the installer works with. */
module Templates {
  import opened Trees

  /** The language of the generated project. */
  datatype Mode = TS | JS

  /** The directory name of a mode inside a template family. */
  function ModeName(m: Mode): string {
    if m == TS then "ts" else "js"
  }

  /** The top-level directories that move under `src` when a source directory is requested. */
  const SRC_DIR_NAMES: seq<string> := ["app", "pages", "styles"]

  /** The directory a (family, mode) template is copied from. */
  function TemplatePath(dir: Path, template: string, mode: Mode): Path {
    dir + [template, ModeName(mode)]
  }

  /** `getTemplateFile`: a file of a template, which lies directly inside that template's directory. */
  function TemplateFile(dir: Path, template: string, mode: Mode, file: string): (r: Path)
    ensures r == TemplatePath(dir, template, mode) + [file]
    ensures |r| == |dir| + 3 && r[..|dir|] == dir && r[|dir| + 1] in {"ts", "js"}
  {
    dir + [template, ModeName(mode), file]
  }

  /** `template.startsWith('app')`: the family uses the app router. */
  predicate IsAppTemplate(template: string) {
    |template| >= 3 && template[..3] == "app"
  }
}
