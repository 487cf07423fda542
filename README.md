# Scaffold templates of monorepo-nestjs-cli, in Dafny

The scaffolder of monorepo-nestjs-cli writes a new NestJS application into
the monorepo from one entity name. Two files hold its templates:

- `src/scaffold/app/src.js` writes the application's sources:
  - `getMain` writes `main.ts`;
  - `getSourceModule` writes the root module;
  - `health` and `healthTests` write the health-check module and its tests;
  - `app` writes the CRUD feature module: adapter, controller, module, repository and swagger.
- `src/scaffold/app/root.js` writes the project files: `package.json`, the tsconfigs, the Dockerfile, `.env`, the ESLint configuration and ignore file, the Jest configuration, the Docker ignore file, and the editor configuration (`vsCode`).

Every template is a JavaScript template literal. It interpolates the name in one of three forms:

- the raw name, `${name}`;
- the upper-cased name, `name.toUpperCase()`;
- the class-name stem `Fname`, `name.charAt(0).toUpperCase() + name.slice(1).toLowerCase()`.

The model is pure, like the source:

- `CaseMap` holds ASCII `toUpperCase`/`toLowerCase`, the stem `TitleCase`, and the unused helper `CapitalizeFirstLetter`.
- `Template` holds `Concat`, the occurrence predicate `Contains` (JavaScript's `includes`), and the lemmas that place a part of a file inside the file.
- `SourceTemplates` and `RootTemplates` give every generator as a function from the name to the file text:
  - `GetMain`, `GetSourceModule`, `Health`, `HealthTests` and `App` in `SourceTemplates`;
  - `GetTsconfig`, `GetPackage`, `GetDockerFile`, `GetEnv`, `VsCode`, and the name-free `GetJestConfig`, `GetTsconfigBuild`, `GetEslintIgonre`, `GetEslint` and `GetDockerignore` in `RootTemplates`.
- A file is the concatenation of its numbered parts:
  - runs of lines that do not mention the name are verbatim literals;
  - each line that mentions the name is a string expression over the name's forms.
- `App` computes the stem once and passes it to the five file texts (`AdapterText`, `ControllerText`, …), as line 338 does with its one-shot `Fname` binding.
- `CrudProperties`, `SourceProperties` and `RootProperties` state what each file writes.
- `Wiring` states that the identifiers and paths one file writes are the ones its sibling files depend on.

The source also has quirks, and the model keeps them:

- The controller imports its use-case types from `../../core/use-cases/<name><op>`, with no hyphen.
- The controller types its constructor parameters `<Fname><Op>Adapter`, without the leading `I`.
- The module builds `<Fname>GetByIdUsecase`.
- The repository factory's variable is spelled `repossitory`.

## Model

| member | source | states |
|---|---|---|
| CaseMap.UpperChar | src/scaffold/app/src.js:57 | one character of `toUpperCase`: a lower-case ASCII letter moves 32 code points down to its capital, any other character is kept, and no lower-case letter is left |
| CaseMap.LowerChar | src/scaffold/app/src.js:338 | one character of `toLowerCase`: a capital ASCII letter moves 32 code points up to its lower-case letter, any other character is kept, and no capital is left |
| CaseMap.UpperCase | src/scaffold/app/src.js:57 | `toUpperCase` keeps the length, maps every character on its own, and leaves no lower-case ASCII letter |
| CaseMap.LowerCase | src/scaffold/app/src.js:338 | `toLowerCase` keeps the length, maps every character on its own, and leaves no upper-case ASCII letter |
| CaseMap.CapitalizeFirstLetter | src/scaffold/app/src.js:1-3 | the empty string stays empty; otherwise the length is kept, the first character is upper-cased and the tail is unchanged |
| CaseMap.TitleCase | src/scaffold/app/src.js:338 | `Fname` keeps the length, is empty exactly for the empty name, upper-cases the first character and lower-cases the tail |
| CaseMap.UpperCaseIdempotent | src/scaffold/app/src.js:57 | upper-casing twice is upper-casing once |
| CaseMap.LowerCaseIdempotent | src/scaffold/app/src.js:338 | lower-casing twice is lower-casing once |
| CaseMap.LowerCaseIgnoresCase | src/scaffold/app/src.js:338 | lower-casing forgets an earlier upper-casing, capitalisation or `Fname` |
| CaseMap.UpperCaseIgnoresCase | src/scaffold/app/src.js:57 | upper-casing forgets an earlier lower-casing or `Fname` |
| CaseMap.TitleCaseIgnoresCase | src/scaffold/app/src.js:338 | the stem depends on the name only up to case, and is a fixed point of itself |
| CaseMap.LowerCaseFixedIff | src/scaffold/app/src.js:338 | lower-casing leaves a text alone if and only if it has no upper-case ASCII letter |
| CaseMap.TitleCaseIsCapitalizeIff | src/scaffold/app/src.js:1-3 | `Fname` and `capitalizeFirstLetter` agree on a name if and only if its tail has no upper-case ASCII letter |
| CaseMap.ExampleTeste | src/scaffold/templates/teste/src/modules/module.ts:8 | the stem of `teste` is `Teste` |
| CaseMap.ExampleDog | src/scaffold/app/root.js:133 | the upper-cased `dog` is `DOG` |
| CaseMap.ExampleInnerCapital | src/scaffold/app/src.js:1-3 | on `dogHouse` the stem is `Doghouse` and the capitalised name `DogHouse` |
| SourceTemplates.GetMain | src/scaffold/app/src.js:5-122 | the text of `main.ts`; no contract of its own, its properties are `SourceProperties.MainUsesName`, `Wiring.ManifestShared` and `Wiring.SecretsKeyShared` |
| SourceTemplates.GetSourceModule | src/scaffold/app/src.js:125-147 | the root module's text; no contract of its own, its properties are `SourceProperties.SourceModuleImportsApp`, `SourceProperties.SourceModuleTeste`, `Wiring.FeatureModuleShared` and `Wiring.HealthModuleShared` |
| SourceTemplates.Health | src/scaffold/app/src.js:149-229 | the five health-check files; no contract of its own, their properties are `SourceProperties.HealthNameFree`, `HealthReadsPackage`, `HealthClasses`, `HealthModuleImports`, `HealthModuleWiring` and `HealthModuleBinds` |
| SourceTemplates.HealthTests | src/scaffold/app/src.js:231-335 | the three health-check test files; no contract of its own, their properties are `SourceProperties.HealthNameFree` and `SourceProperties.HealthTestsReadPackage` |
| SourceTemplates.App | src/scaffold/app/src.js:337-662 | the five CRUD files over the one stem `TitleCase(name)`; no contract of its own, the `Wiring` lemmas state its cross-file properties |
| SourceTemplates.AdapterText | src/scaffold/app/src.js:340-368 | the adapter's text; no contract of its own, its properties are `CrudProperties.AdapterDeclaresPorts` and `Wiring.PortsShared` |
| SourceTemplates.ControllerText | src/scaffold/app/src.js:369-458 | the controller's text; no contract of its own, its properties are the `CrudProperties.Controller…` lemmas, `Wiring.ClassesShared` and `Wiring.TesteController` |
| SourceTemplates.ModuleText | src/scaffold/app/src.js:459-532 | the feature module's text; no contract of its own, its properties are the `CrudProperties.Module…` lemmas and `Wiring.PortsShared`, `ClassesShared`, `FeatureModuleShared` |
| SourceTemplates.RepositoryText | src/scaffold/app/src.js:533-576 | the repository's text; no contract of its own, its properties are `CrudProperties.RepositoryDeclaresClass` and `Wiring.ClassesShared` |
| SourceTemplates.SwaggerText | src/scaffold/app/src.js:577-660 | the swagger file's text; no contract of its own, its property is `CrudProperties.SwaggerNotFoundRoutes` |
| RootTemplates.GetTsconfig | src/scaffold/app/root.js:36-47 | the tsconfig's text; no contract of its own, its properties are `RootProperties.TsconfigOutDir` and `Wiring.BuildDirShared` |
| RootTemplates.GetPackage | src/scaffold/app/root.js:49-71 | the `package.json` text; no contract of its own, its properties are `RootProperties.PackageDeclaresName` and `Wiring.PackageNameShared` |
| RootTemplates.GetDockerFile | src/scaffold/app/root.js:73-104 | the Dockerfile's text; no contract of its own, its properties are `RootProperties.DockerFileBuildsPackage`, `DockerFileCopiesManifests` and `Wiring.BuildDirShared`, `ManifestShared`, `PackageNameShared`, `PortShared` |
| RootTemplates.GetEnv | src/scaffold/app/root.js:130-149 | the `.env` text; no contract of its own, its properties are `RootProperties.EnvSetsPort`, `RootProperties.EnvDog`, `Wiring.SecretsKeyShared` and `Wiring.PortShared` |
| RootTemplates.VsCode | src/scaffold/app/root.js:151-228 | the three editor files; no contract of its own, their properties are `RootProperties.LaunchNamesPackage`, `RootProperties.VsCodeNameFree` and `Wiring.PackageNameShared` |
| RootTemplates.GetJestConfig | src/scaffold/app/root.js:1-26 | the Jest configuration, a fixed text: it takes no argument, so it is the same for every application; no further contract |
| RootTemplates.GetTsconfigBuild | src/scaffold/app/root.js:28-34 | the build tsconfig, a fixed text (no argument); no further contract |
| RootTemplates.GetEslintIgonre | src/scaffold/app/root.js:106-114 | the ESLint ignore file, a fixed text (no argument); no further contract |
| RootTemplates.GetEslint | src/scaffold/app/root.js:116-120 | the ESLint configuration, a fixed text (no argument); no further contract |
| RootTemplates.GetDockerignore | src/scaffold/app/root.js:122-128 | the Docker ignore file, a fixed text (no argument); no further contract |
| CrudProperties.AdapterDeclaresPorts | src/scaffold/app/src.js:340-368 | for every use case the adapter declares the port `I<Fname><Op>Adapter`; it also imports the input and output types from the hyphenated use-case path, and declares an `execute` from input to output that takes the trace exactly for create, update and delete |
| CrudProperties.ModuleImportsPorts | src/scaffold/app/src.js:476-482 | the module imports the same five ports, in one statement, from `./adapter` |
| CrudProperties.ModuleProvidesPorts | src/scaffold/app/src.js:471-521 | for every use case the module imports the use-case class from the hyphenated path; it also binds the port to a factory that builds that class over the repository port, and only update also gets the logger |
| CrudProperties.ModuleRegistersClasses | src/scaffold/app/src.js:483-528 | the module imports the controller and repository classes from their files; it registers the controller, applies the logged-in middleware to it, and binds the repository port to a factory that builds the repository |
| CrudProperties.ModuleDeclaresClass | src/scaffold/app/src.js:526 | the module declares `<Fname>Module implements NestModule` |
| CrudProperties.ControllerImportsPorts | src/scaffold/app/src.js:382-388 | the controller imports the same five ports from `./adapter` |
| CrudProperties.ControllerImportsUseCases | src/scaffold/app/src.js:377-381 | the controller imports every use case's types from the use-case path without its hyphen |
| CrudProperties.ControllerParams | src/scaffold/app/src.js:397-401 | the controller's constructor has the field `<name><Op>` typed `<Fname><Op>Adapter` for every use case; only the last has no comma |
| CrudProperties.ControllerPathDiffers | src/scaffold/app/src.js:342-381 | for every name the controller's path is one character shorter than the others' path, so it never equals it |
| CrudProperties.ParamTypeIsPortWithoutI | src/scaffold/app/src.js:348-401 | the controller's parameter type is the port with its `I` removed, so it is never the port |
| CrudProperties.ControllerDeclaresClass | src/scaffold/app/src.js:392-395 | the controller is tagged `@ApiTags('<name>')` and declares `<Fname>Controller` |
| CrudProperties.ControllerHandlersVersioned | src/scaffold/app/src.js:407-453 | every handler's opening line directly follows a `@Version('1')` line; each handler returns its use case's output type |
| CrudProperties.RepositoryDeclaresClass | src/scaffold/app/src.js:545-567 | the repository declares `<Fname>Repository` implementing `I<Fname>Repository`; it pages with the list use case's types, imported from the hyphenated path |
| CrudProperties.SwaggerNotFoundRoutes | src/scaffold/app/src.js:590-626 | each of update, get by id and delete has a not-found response right after its own success response (anchored on its `json: <Fname>Response.<op>` line): update on `api/<name>`, get by id and delete on `api/<name>/:id`, each with the message `<name> Not Found` |
| SourceProperties.MainUsesName | src/scaffold/app/src.js:11-83 | `main.ts` imports `apps/<name>/package.json` and destructures the secrets under the key `name.toUpperCase()`; it also sets the global prefix to the name |
| SourceProperties.SourceModuleImportsApp | src/scaffold/app/src.js:132-142 | the root module imports `<Fname>Module` from `./<name>/module` and lists that class first in its imports; it also imports the health module from `./health/module` |
| SourceProperties.TesteModuleNames | src/scaffold/templates/teste/src/modules/module.ts:8 | for `teste` the feature class is `TesteModule` and its path `./teste/module` |
| SourceProperties.SourceModuleTeste | src/scaffold/templates/teste/src/modules/module.ts:8-17 | the root module for `teste` imports `TesteModule` from `./teste/module` and lists it in its imports |
| SourceProperties.HealthNameFree | src/scaffold/app/src.js:151-302 | the health adapter, controller and module, and the health module test, are the same text for every name |
| SourceProperties.HealthReadsPackage | src/scaffold/app/src.js:194-211 | the health service and swagger import the name (and the service also the version) from `apps/<name>/package.json` |
| SourceProperties.HealthTestsReadPackage | src/scaffold/app/src.js:239-306 | the health controller and service tests import from `apps/<name>/package.json` |
| SourceProperties.HealthClasses | src/scaffold/app/src.js:151-200 | the adapter declares `IHealthService`; the controller and the service import it from `./adapter`; the controller is built over it and the service implements it |
| SourceProperties.HealthModuleImports | src/scaffold/app/src.js:177-179 | the health module imports the port, the controller and the service from their files |
| SourceProperties.HealthModuleWiring | src/scaffold/app/src.js:183-191 | the health module registers `HealthController` and declares `HealthModule` |
| SourceProperties.HealthModuleBinds | src/scaffold/app/src.js:186-187 | the health module binds `IHealthService` to `HealthService` on two consecutive lines |
| RootProperties.PackageDeclaresName | src/scaffold/app/root.js:51-53 | `package.json` names the package `@app/<name>` and describes it with the raw name |
| RootProperties.DockerFileBuildsPackage | src/scaffold/app/root.js:82-102 | the Dockerfile builds `@app/<name>`, exposes 4000 and starts with `start:<name>:prd` |
| RootProperties.DockerFileCopiesManifests | src/scaffold/app/root.js:84-90 | the Dockerfile copies `package.json` and both tsconfigs from `apps/<name>` into `dist/apps/<name>/`; it installs in `dist/apps/<name>` |
| RootProperties.TsconfigOutDir | src/scaffold/app/root.js:41 | the tsconfig compiles into `../../dist/apps/<name>` |
| RootProperties.EnvSetsPort | src/scaffold/app/root.js:133 | `.env` sets `<NAME>_PORT=4000`, with the upper-cased name |
| RootProperties.EnvDog | src/scaffold/app/root.js:133 | for `dog` the line is `DOG_PORT=4000` |
| RootProperties.LaunchNamesPackage | src/scaffold/app/root.js:162-179 | the launch file has `App: @app/<name>`, running `start:<name>:dev`, and `Test: @app/<name>` |
| RootProperties.VsCodeNameFree | src/scaffold/app/root.js:153-226 | the editor's extensions and settings are the same text for every name |
| Wiring.PortsShared | src/scaffold/app/src.js:348-521 | every port the adapter declares is imported by the module and the controller, and bound by the module |
| Wiring.ClassesShared | src/scaffold/app/src.js:395-550 | the classes the controller and repository declare are the ones the module imports and registers or builds; the repository implements the port the module binds |
| Wiring.FeatureModuleShared | src/scaffold/app/src.js:133-526 | the root module imports, from `./<name>/module`, the class that `app(name).module` declares |
| Wiring.HealthModuleShared | src/scaffold/app/src.js:132-191 | the root module imports the class the health module declares |
| Wiring.PackageNameShared | src/scaffold/app/root.js:51-179 | `package.json`, the Dockerfile and both launch configurations use the one package name `@app/<name>` |
| Wiring.BuildDirShared | src/scaffold/app/root.js:41-90 | the tsconfig's output directory is the directory the Dockerfile copies into and installs in |
| Wiring.ManifestShared | src/scaffold/app/src.js:11-194 | `main.ts` and the health service import the manifest the Dockerfile copies, `apps/<name>/package.json` |
| Wiring.SecretsKeyShared | src/scaffold/app/src.js:57 | the secrets key of `main.ts` is the prefix of the port variable in `.env` |
| Wiring.PortShared | src/scaffold/app/root.js:88-133 | the port `.env` sets is the port the Dockerfile exposes |
| Wiring.TesteController | src/scaffold/templates/teste/src/modules/teste/controller.ts:9-29 | for `teste` the controller imports `TesteCreateInput` and `TesteCreateOutput` from `../../core/use-cases/testecreate`, and takes `testeCreate: TesteCreateAdapter` |

## Left out

- File writing, the command-line caller, and the mapping from the keys of the returned objects to file paths are not part of this model. The functions return texts.
- The run-time behaviour of the generated code is out of scope: the NestJS bootstrap in `main.ts`, whether the code compiles, and how the secrets adapter reads `.env`. Only the texts are modelled.
- Case mapping covers ASCII letters only. JavaScript's `toUpperCase`/`toLowerCase` also map non-ASCII letters, and some of them change the length.
- The `##{...}` markers and doubled `''` quotes are kept as literal characters. Whatever rewrites them later is not part of this model. A `\'` in a template literal is a `'` in the text.
- The name is not validated, because the source does not validate it. An empty name gives the empty stem.
- `app` assigns `Fname` without declaring it (src/scaffold/app/src.js:338), so in a non-strict CommonJS module the stem is left behind in a global after `app(name)` returns. The model binds the stem to a local variable and keeps no such global, since no generated text depends on it.
- `capitalizeFirstLetter` (src/scaffold/app/src.js:1-3) is modelled, but no template calls it. The class-name stem is `Fname` (src/scaffold/app/src.js:338), which also lower-cases the tail; `TitleCaseIsCapitalizeIff` shows where the two rules part. Paths use the raw name, and the secrets key and the `.env` prefix are plain `toUpperCase` (src/scaffold/app/src.js:57, src/scaffold/app/root.js:133), with no conversion to snake case.
- CrudProperties.AdapterDeclaresPorts: states that each of the five ports is declared. It does not state that the adapter declares no other class, because `Contains` speaks of occurrence, not of counts, and an unvalidated name can itself spell out a further declaration.
- CrudProperties.ModuleProvidesPorts: states the `provide` and `useFactory` lines of each binding. The `inject` lines that follow are not stated.
- The files are not compared whole against the `teste` outputs, because an equality of literals that long is beyond the verifier's budget. The name-specific lemmas cover five lines: the root module's import of `TesteModule` and its `imports` list (`SourceModuleTeste`), the controller's create-types import and create parameter (`TesteController`), and the `.env` line for `dog` (`EnvDog`).
- The line-placement helpers (`AdapterImportLines`, `ModuleLines`, `ControllerVersionLines`, `SwaggerUpdateLines`, …), the string identities `RootProperties.OutDirIsDistDir` and `Wiring.PortLiterals`, the unfolding `Wiring.AppTexts` (which lifts the `(fname, name)` lemmas to `App(name)`), and the `Template` lemmas are proof infrastructure about the model's encoding, so they have no row of their own.
