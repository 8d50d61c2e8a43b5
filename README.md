# create-processcube-app: the template installer

This project models `installTemplate` in Dafny. `installTemplate` is the step of
`create-processcube-app` that turns a chosen Next.js template into a new
project directory. It does seven things:

- copies the template (TypeScript or JavaScript flavour) into the project root, skipping disabled configs and renaming the dotfiles;
- rewrites the import alias in `tsconfig.json` / `jsconfig.json`;
- for a custom alias, rewrites the `@/` import prefix in every other file;
- with a source directory, moves `app`, `pages` and `styles` under `src` and patches the home page and the Tailwind content globs;
- layers the optional ProcessCube authority (sign-in) and engine (workflow backend) bundles on the project;
- writes `package.json`;
- hands the ordered dependency list to the package manager.

The project directory is a map from paths (sequences of segments, relative to
the root) to entries. An entry is a text file, a JSON document or a directory.

Modules:

- `Text` models the JavaScript string calls: replace with a string pattern (first occurrence only), `split`/`join` on `'\n'`, and star removal.
- `Trees` models paths, entries, recursive `mkdir` and `appendFile`.
- `Templates` holds `getTemplateFile`, the template modes and `SRC_DIR_NAMES`.
- `Copier` holds the copy pattern list, the negated-pattern filter, the `rename` callback and the copied entries.
- `Alias` holds the config rewrite and the import scan.
- `Layout` holds the relocation into `src`, the home-page patch and the Tailwind glob rewrite. The glob rewrite is a left-to-right scan equivalent to the global regular-expression replace.
- `Integrations` holds the auth-route path and the authority and engine merges: compose file, `.env`, JSON configs.
- `Manifest` holds `package.json` and the dependency list.
- `Installer` holds two things:
  - `Install`, the whole pipeline as a function, with lemmas about the finished project;
  - the class `Project`, whose `tree` field the stage methods change in place. The method `InstallTemplate` runs those stages and is proved equal to `Install`.

Two places where the model follows the code rather than its description:

- The import scan replaces only the first `@/` of each file, because the code calls `replace` with a string pattern.
- The engine bundle's compose fragment is appended inside an un-awaited callback. The model performs that append in order. The result is the same because no later step touches the compose file. A read failure there is only logged in the source.

## Model

| member | source | states |
|---|---|---|
| Text.IndexOf | create-processcube-app/templates/index.ts:80-81 | the index found is the first occurrence of the pattern; none is found exactly when the text has no occurrence |
| Text.ReplaceFirstSpec | create-processcube-app/templates/index.ts:80-81 | a text without the pattern is returned unchanged; otherwise only the first occurrence is replaced and the text around it is kept |
| Text.ReplaceFirstSelf | create-processcube-app/templates/index.ts:80 | replacing the pattern by itself (the mapping without a source directory) changes nothing |
| Text.ReplaceFirstAt | create-processcube-app/templates/index.ts:97 | when the pattern does not start inside `pre`, the occurrence after `pre` is the one replaced |
| Text.StripStars | create-processcube-app/templates/index.ts:97 | the alias prefix has no `*` left, and every other character of the alias is kept with its multiplicity |
| Text.StripStarsAppend | create-processcube-app/templates/index.ts:97 | the removal works piecewise, left to right: stripping `a + b` gives stripped `a` followed by stripped `b`, so the kept characters keep their order |
| Text.StripStarsChar | create-processcube-app/templates/index.ts:97 | a single character is removed exactly when it is `*`; with the piecewise lemma this fixes the result for every alias |
| Text.StripStarsNoStar | create-processcube-app/templates/index.ts:97 | an alias without stars is used as it is |
| Text.Split | create-processcube-app/templates/index.ts:234 | splitting gives at least one piece, and no piece contains the separator |
| Text.JoinSplit | create-processcube-app/templates/index.ts:234-235 | joining the split pieces with the separator gives the text back |
| Text.SplitLine | create-processcube-app/templates/index.ts:234 | a separator-free first line is split off as the first piece |
| Trees.MakeDirs | create-processcube-app/templates/index.ts:108 | recursive `mkdir` adds exactly the path and its ancestors that are missing, as directories, and keeps every existing entry |
| Trees.MakeDirsNew | create-processcube-app/templates/index.ts:159 | every entry `mkdir` adds is a prefix of the requested path |
| Templates.TemplateFile | create-processcube-app/templates/index.ts:20-22 | a template file lies directly inside `<dir>/<template>/<ts or js>` |
| Copier.CopySource | create-processcube-app/templates/index.ts:51-53 | the pushed pattern list is `**` followed by the negations the disabled features call for |
| Copier.ExcludedIff | create-processcube-app/templates/index.ts:51-55 | the copy drops `eslintrc.json` exactly without ESLint and `tailwind.config.js` and `postcss.config.js` exactly without Tailwind, and drops nothing else |
| Copier.Rename | create-processcube-app/templates/index.ts:58-73 | `gitignore` and `eslintrc.json` gain a leading dot, `README-template.md` becomes `README.md`, and a name changes exactly when it is one of those three |
| Copier.RenameCollision | create-processcube-app/templates/index.ts:58-73 | two different names are renamed alike only when one is the other's dotted or final form |
| Copier.Copied | create-processcube-app/templates/index.ts:55-74 | every kept template entry appears with its content at its path, the file name renamed for every file (text or JSON), and nothing else appears |
| Alias.ConfigFile | create-processcube-app/templates/index.ts:76 | the config rewritten is `jsconfig.json` exactly in JavaScript mode and `tsconfig.json` exactly in TypeScript mode |
| Alias.RewriteConfigIdentity | create-processcube-app/templates/index.ts:77-82 | without a source directory and with the default alias the config is left unchanged |
| Alias.RewriteConfigMapping | create-processcube-app/templates/index.ts:77-82 | the default mapping becomes the requested alias pointing at `./src` with a source directory and at `.` without, and the rest of the config is kept |
| Alias.Scanned | create-processcube-app/templates/index.ts:85-103 | the scan keeps every path; with the default alias it changes nothing |
| Alias.ScanRewritesFirstImport | create-processcube-app/templates/index.ts:91-99 | in a file other than the configs, the first `@/` (any text without `@/` before it, other `@` included) becomes the alias without stars and the rest, later `@/` included, is kept |
| Alias.ScanKeeps | create-processcube-app/templates/index.ts:90-99 | the configs, directories, JSON documents and files without `@/` are not changed by the scan |
| Alias.TildeAlias | create-processcube-app/templates/index.ts:97 | with the alias `~/*` the first `@/` import prefix becomes `~/`, whatever precedes it without `@/` |
| Layout.MovedEntries | create-processcube-app/templates/index.ts:111 | one rename moves the whole subtree under `src` and keeps every other entry |
| Layout.MovedOthers | create-processcube-app/templates/index.ts:110-116 | after one rename its name is gone, and every other name is present or blocked as before |
| Layout.RelocateAllEntries | create-processcube-app/templates/index.ts:109-117 | after the renames every entry under a moved name sits under `src` with its path kept, other entries stay, nothing is left under the names, and nothing else appears |
| Layout.RelocateAllFails | create-processcube-app/templates/index.ts:110-116 | the renames fail exactly when a present name's destination `src/<name>` is already taken |
| Layout.RelocateAllError | create-processcube-app/templates/index.ts:111-115 | a failure reports the rename of one of the names into `src` |
| Layout.RelocationSpec | create-processcube-app/templates/index.ts:107-117 | without a source directory the project is unchanged; with one it fails exactly on a blocked rename and otherwise moves `app`, `pages` and `styles` under `src`, keeps everything else, and `src` exists |
| Layout.AbsentSkipped | create-processcube-app/templates/index.ts:111-115 | an absent directory is skipped without error or change |
| Layout.HomePagePath | create-processcube-app/templates/index.ts:105-124 | the home page is `src/app/page` for app-router templates and `src/pages/index` otherwise, with extension `tsx` in TypeScript and `js` in JavaScript |
| Layout.PatchHomePageSpec | create-processcube-app/templates/index.ts:126-131 | the first self-reference gains the `src/` prefix and the rest of the page is kept |
| Layout.PatchHomePageNoReference | create-processcube-app/templates/index.ts:126-131 | a page without a self-reference is unchanged |
| Layout.WordRun | create-processcube-app/templates/index.ts:139 | the greedy word group covers word characters only and stops before a non-word character |
| Layout.GlobMatch | create-processcube-app/templates/index.ts:139 | a match is either absent or lies within the text and is `./`, a non-empty run of word characters, then the suffix |
| Layout.GlobScanIdentity | create-processcube-app/templates/index.ts:139 | with nothing inserted the rewrite gives its input back, so only the matched globs change |
| Layout.GlobScanPlain | create-processcube-app/templates/index.ts:139 | text in which no `./` starts is copied through unchanged |
| Layout.GlobMatchGlob | create-processcube-app/templates/index.ts:139 | the match at a content glob covers exactly that glob |
| Layout.WordRunOf | create-processcube-app/templates/index.ts:139 | the word group of a glob is its whole directory name |
| Layout.GlobScanGlob | create-processcube-app/templates/index.ts:139 | a glob `./<word>/` plus the suffix gets the insertion after `./` and the scan continues after it |
| Layout.GlobScanLine | create-processcube-app/templates/index.ts:139 | the text before a glob, if no `./` starts in it, is kept and the glob gets the insertion |
| Layout.NestGlobsLine | create-processcube-app/templates/index.ts:133-141 | every content glob `./<word>/**` becomes `./src/<word>/**`, and the text around it is kept; the text before the glob may be any text in which no `./` starts |
| Layout.ModuleExportsPlain | create-processcube-app/templates/index.ts:133-141 | the usual opening of a Tailwind config, `module.exports = {` followed by `content: [`, holds no `./`, so the line lemma applies to the config's first glob |
| Integrations.AuthRouteDir | create-processcube-app/templates/index.ts:148-157 | the route directory is the root, then `src` exactly with a source directory, then `app` exactly for app-router templates, then `api/auth/[...nextauth]` |
| Integrations.DropTwoLinesOf | create-processcube-app/templates/index.ts:234-235 | the engine fragment loses exactly its two header lines and keeps the remainder verbatim |
| Integrations.DropTwoLinesShort | create-processcube-app/templates/index.ts:234-235 | a fragment of at most two lines contributes nothing |
| Integrations.SplitNoSeparator | create-processcube-app/templates/index.ts:234 | a line without a separator splits into itself |
| Integrations.NotCreated | create-processcube-app/templates/index.ts:159 | `mkdir` neither creates nor changes a path that is not a prefix of the one requested |
| Integrations.FixedPathsDistinct | create-processcube-app/templates/index.ts:158-225 | the fixed files and directories the bundles write are pairwise different |
| Integrations.AuthorityFilesEffect | create-processcube-app/templates/index.ts:158-178 | the compose file and the middleware become the authority fragments, `.env` gains the authority fragment, the route file is written, and the engine config is untouched |
| Integrations.AuthorityConfigDirEffect | create-processcube-app/templates/index.ts:179-204 | the authority config is written without `engines` exactly when the engine is off, the users file is written, and the shared files, middleware and route are untouched |
| Integrations.AuthorityStage | create-processcube-app/templates/index.ts:144-205 | the authority stage writes the compose file and the middleware, appends to `.env`, writes the route file inside the route directory, the config and the users file, and leaves the engine config alone |
| Integrations.EngineStage | create-processcube-app/templates/index.ts:207-260 | with authority the engine appends its headerless fragment to the compose file, otherwise it writes its fragment; `.env` gains its fragment; its config loses `iam` exactly without authority; the authority config is untouched |
| Integrations.MergedKeeps | create-processcube-app/templates/index.ts:144-260 | every entry at any depth other than the files the bundles write (compose file, `.env`, middleware, route file, authority config and users, engine config) comes through both bundles unchanged |
| Integrations.MergedGrows | create-processcube-app/templates/index.ts:144-260 | the bundles only add entries |
| Integrations.AddsOnlyTrans | create-processcube-app/templates/index.ts:144-260 | entries added by two successive stages are added by their composition |
| Integrations.AuthorityFilesKeys | create-processcube-app/templates/index.ts:157-178 | the first authority writes add entries only below the route directory's first segment or at the shared files |
| Integrations.AuthorityConfigDirKeys | create-processcube-app/templates/index.ts:179-204 | the authority config directory adds entries only below `.processcube` |
| Integrations.EngineMergedKeys | create-processcube-app/templates/index.ts:220-259 | the engine stage adds entries only below `.processcube` or at the shared files |
| Integrations.ProcesscubeKeys | create-processcube-app/templates/index.ts:179-182 | creating `.processcube/<dir>` adds entries only below `.processcube` |
| Integrations.AuthorityStageKeys | create-processcube-app/templates/index.ts:144-205 | the authority stage only adds entries, below the route's first segment, below `.processcube`, or at the shared files |
| Integrations.MergedNewKeys | create-processcube-app/templates/index.ts:144-260 | every entry the bundles add lies below the route's first segment or `.processcube`, or is the compose file, `.env` or the middleware |
| Integrations.MergedSharedFiles | create-processcube-app/templates/index.ts:158-259 | for every combination of the two bundles: the compose file, `.env` as the old text followed by the enabled fragments in order, each config losing the other bundle's key exactly when that bundle is off, and no change without bundles |
| Integrations.MergedComposeBoth | create-processcube-app/templates/index.ts:228-237 | with both bundles the compose file is the authority fragment followed by the engine fragment minus its two header lines |
| Manifest.Scripts | create-processcube-app/templates/index.ts:268-273 | the scripts are dev, build, start and lint, each running `next <name>` |
| Manifest.PackageManifestShape | create-processcube-app/templates/index.ts:264-274 | `package.json` has exactly name, version 0.1.0, private and the four scripts |
| Manifest.PackageManifestInjective | create-processcube-app/templates/index.ts:264-274 | two projects get the same `package.json` exactly when their names agree, so the name is the only input it depends on |
| Manifest.NextSpecifier | create-processcube-app/templates/index.ts:293 | `next` is pinned to the test version exactly when a non-empty one is set |
| Manifest.BuildDependencies | create-processcube-app/templates/index.ts:290-320 | the pushes build exactly the ordered dependency list |
| Manifest.DependencyListShape | create-processcube-app/templates/index.ts:290-324 | the list starts with react, react-dom, next and the SDK pin, has 4 + 4·ts + 3·tailwind + authority + 2·eslint entries (so the install call is always reached), and the TypeScript, Tailwind, next-auth and ESLint groups each sit in their slot, in that order |
| Manifest.MinimalDependencies | create-processcube-app/templates/index.ts:290-295 | without TypeScript, Tailwind, authority and ESLint the list is exactly the four defaults |
| Manifest.DependencyMarkers | create-processcube-app/templates/index.ts:300-320 | typescript, tailwindcss, next-auth and eslint are listed exactly when their feature is on |
| Installer.ReadText | create-processcube-app/templates/index.ts:79 | reading succeeds exactly on a regular text file, and fails naming the path otherwise |
| Installer.Project.CopyTemplate | create-processcube-app/templates/index.ts:51-74 | the project gains the copied template entries over its existing ones |
| Installer.Project.RewriteAliasConfig | create-processcube-app/templates/index.ts:76-82 | the config is rewritten as the stage function says, or the unreadable config is reported |
| Installer.Project.RewriteImports | create-processcube-app/templates/index.ts:85-103 | the loop over every entry leaves the project as the scan function says |
| Installer.Project.Relocate | create-processcube-app/templates/index.ts:107-117 | the loop over the three names leaves the project as the relocation function says, or reports its failure |
| Installer.Project.PatchHomePage | create-processcube-app/templates/index.ts:119-131 | the home page is patched as the stage function says, or the unreadable page is reported |
| Installer.Project.PatchTailwindConfig | create-processcube-app/templates/index.ts:133-141 | the Tailwind config is patched as the stage function says, or the unreadable config is reported |
| Installer.Project.MergeAuthority | create-processcube-app/templates/index.ts:144-205 | the step-by-step writes leave the project as the authority merge says |
| Installer.Project.MergeEngine | create-processcube-app/templates/index.ts:207-260 | the step-by-step writes leave the project as the engine merge says |
| Installer.Project.WritePackageJson | create-processcube-app/templates/index.ts:264-279 | `package.json` is the manifest and nothing else changes |
| Installer.Prepare | create-processcube-app/templates/index.ts:43-142 | the stages run on a fresh project agree with the pipeline up to the Tailwind patch, stopping at the first failure |
| Installer.InstallTemplate | create-processcube-app/templates/index.ts:29-334 | the installer returns exactly what the pipeline function gives |
| Installer.AdaptedConfigFile | create-processcube-app/templates/index.ts:76-141 | after the stages that follow the copy, the config is the copied config with only its alias mapping rewritten |
| Installer.AdaptedSrcLayout | create-processcube-app/templates/index.ts:107-141 | with a source directory, `src` exists and nothing is left under `app`, `pages` or `styles` |
| Installer.AdaptedFailures | create-processcube-app/templates/index.ts:76-141 | a failure is an unreadable config, or, with a source directory, a blocked rename, an unreadable home page or an unreadable Tailwind config; without a source directory only an unreadable config fails |
| Installer.FinishKeeps | create-processcube-app/templates/index.ts:144-279 | the closing stages keep every entry at any depth other than the files the bundles write and `package.json` |
| Installer.FinishSrcLayout | create-processcube-app/templates/index.ts:144-279 | with a source directory the bundles and `package.json` add nothing under `app`, `pages` or `styles` |
| Installer.ManifestBesideSrc | create-processcube-app/templates/index.ts:279 | writing `package.json` next to stages that only add below `src`, `.processcube` or at the shared files keeps `app`, `pages` and `styles` empty |
| Installer.FinishSharedFiles | create-processcube-app/templates/index.ts:144-279 | after the closing stages the shared files and configs are as the merge says, and without bundles only `package.json` is added |
| Installer.ManifestBesideSharedFiles | create-processcube-app/templates/index.ts:158-279 | writing `package.json` keeps the merged compose file, `.env` and configs |
| Installer.InstallConfigFile | create-processcube-app/templates/index.ts:76-103 | in the finished project the config is the copied one with its alias mapping rewritten; the import scan never rewrites it again |
| Installer.InstallSrcLayout | create-processcube-app/templates/index.ts:107-260 | with a source directory the finished project has `src` and nothing under `app`, `pages` or `styles`, the auth route included |
| Installer.InstallSharedFiles | create-processcube-app/templates/index.ts:144-260 | the finished compose file, `.env` and JSON configs for every combination of the two bundles |
| Installer.InstallOutcome | create-processcube-app/templates/index.ts:264-333 | installation succeeds exactly when the stages before the merge do; then `package.json` is the manifest, the dependency list has at least four entries and the flags are passed through; a failure is one of the stages' failures |

## Left out

- File-system I/O, logging and the package-manager call are not modelled as effects. The project is an in-memory tree. The install call is represented by its arguments, which `Install` returns.
- A `mkdir` or write that fails (a file in the way, permissions) is not modelled. The only failures modelled are:
  - an unreadable config, home page or Tailwind config;
  - a rename into an occupied `src/<name>`.
- The bundle files (`authority/*`, `engine/*`) are given as values. A missing bundle file is not modelled.
- `authority/route.ts` is copied verbatim and is not part of this model.
- JSON text is not modelled. A config is a key-to-value map, and `JSON.parse` / `JSON.stringify` layout, including the trailing newline of `package.json`, is abstracted away.
- The home page is read and written at `src/...` relative to the working directory, not the root. The model assumes the installer runs in the project root.
- The bounded concurrency of the import scan and the concurrent renames are modelled sequentially:
  - the scan rewrites each file independently, so any order gives the same tree;
  - the relocation stops at the first failing rename.
- The import scan's file list comes from a glob with dotfiles included. The copy's `**` pattern is assumed to include dotfiles too.
- Copier.Copied: requires that no two kept template entries are renamed to the same path (for example both `README-template.md` and `README.md`). The source would let the later copy win.
- Alias.ScanKeeps: file contents are modelled as text, so a file without `@/` is unchanged. The source reads every scanned file as UTF-8 and always writes the decoded string back. A binary template file, such as an icon, an image or a font, therefore has its invalid byte sequences replaced by U+FFFD whenever a custom alias is chosen. The model does not capture that change.
- Layout.RelocationSpec: any entry at or below `src/<name>` makes the rename of `<name>` fail. POSIX `rename` replaces an empty destination directory, or a file by a file, and other platforms differ. That platform-dependent success is not modelled.
- Copier.Copied: directory entries of the template are copied as entries. `cpy` copies files only, so an empty template directory appears in the model's project but not on disk. Directories that hold copied files exist in both.
- `$` patterns in replacement strings are not interpreted. Every replacement is taken literally.
- JSON documents in the template are treated as opaque by the import scan. Template JSON files the installer edits (`tsconfig.json`, `jsconfig.json`) are modelled as text files.
- The environment variable `NEXT_PRIVATE_TEST_VERSION` is an optional parameter. An empty value counts as unset.
