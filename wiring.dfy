/**
 * The identifiers and paths one generated file writes and a sibling file
 * relies on, stated for a whole generated application: the files of
 * `app(name)` with the class-name stem `TitleCase(name)`, the root module,
 * the health-check module and the project files of `root.js`.
 */
module Wiring {
  import opened CaseMap
  import opened Template
  import opened SourceTemplates
  import opened RootTemplates
  import opened CrudProperties
  import opened SourceProperties
  import opened RootProperties

  /** The files of `app(name)` are the file texts over the stem `TitleCase(name)`. */
  lemma AppTexts(name: string)
    ensures App(name).adapter == AdapterText(TitleCase(name), name)
    ensures App(name).controller == ControllerText(TitleCase(name), name)
    ensures App(name).module_ == ModuleText(TitleCase(name), name)
    ensures App(name).repository == RepositoryText(TitleCase(name), name)
    ensures App(name).swagger == SwaggerText(TitleCase(name), name)
  {
  }

  /**
   * Every port the adapter declares is imported by the module and by the
   * controller from `./adapter`, and bound by the module to a factory.
   */
  lemma PortsShared(name: string, op: UseCase)
    ensures Contains(App(name).adapter, "export abstract class " + Port(TitleCase(name), op) + " {\n")
    ensures Contains(App(name).module_, PortsImport("", TitleCase(name)))
    ensures Contains(App(name).controller, PortsImport("  ", TitleCase(name)))
    ensures Contains(App(name).module_,
      "      " + ("provide: " + Port(TitleCase(name), op) + ",\n") + ("      " + Factory(TitleCase(name), op)))
  {
    var fname := TitleCase(name);
    AppTexts(name);
    AdapterDeclaresPorts(fname, name, op);
    ModuleImportsPorts(fname, name);
    ControllerImportsPorts(fname, name);
    ModuleProvidesPorts(fname, name, op);
  }

  /**
   * The class the controller file declares is the one the module imports
   * from `./controller` and registers; the class the repository file
   * declares is the one the module imports from `./repository` and builds,
   * and it implements the repository port the module binds.
   */
  lemma ClassesShared(name: string)
    ensures Contains(App(name).controller, "export class " + ControllerClass(TitleCase(name)) + " {\n")
    ensures Contains(App(name).module_, "import { " + ControllerClass(TitleCase(name)) + " } from './controller';\n")
    ensures Contains(App(name).repository, "export class " + RepositoryClass(TitleCase(name))
      + " extends SequelizeRepository<Model> implements " + RepositoryPort(TitleCase(name)) + " {\n")
    ensures Contains(App(name).module_, "import { " + RepositoryClass(TitleCase(name)) + " } from './repository';\n")
    ensures Contains(App(name).module_, "provide: " + RepositoryPort(TitleCase(name)) + ",\n")
  {
    var fname := TitleCase(name);
    AppTexts(name);
    ControllerDeclaresClass(fname, name);
    RepositoryDeclaresClass(fname, name);
    ModuleRegistersClasses(fname, name);
  }

  /** The root module imports, from `./<name>/module`, the class `app(name).module` declares. */
  lemma FeatureModuleShared(name: string)
    ensures Contains(GetSourceModule(name),
      "import { " + ModuleClass(TitleCase(name)) + " } from '" + AppModulePath(name) + "';\n")
    ensures Contains(App(name).module_, "export class " + ModuleClass(TitleCase(name)) + " implements NestModule {\n")
  {
    AppTexts(name);
    SourceModuleImportsApp(name);
    ModuleDeclaresClass(TitleCase(name), name);
  }

  /** The root module imports, from `./health/module`, the class the health-check module declares. */
  lemma HealthModuleShared(name: string)
    ensures Contains(GetSourceModule(name), "import { HealthModule } from './health/module';\n")
    ensures Contains(Health(name).module_, "export class HealthModule {}\n")
  {
    SourceModuleImportsApp(name);
    HealthModuleWiring(name);
  }

  /**
   * The package `@app/<name>` that `package.json` declares is the one the
   * Dockerfile builds and the one the debugger configurations name.
   */
  lemma PackageNameShared(name: string)
    ensures Contains(GetPackage(name), "\"name\": \"" + PackageName(name) + "\",\n")
    ensures Contains(GetDockerFile(name), "RUN yarn && yarn build " + PackageName(name) + "\n")
    ensures Contains(VsCode(name).launch, "\"name\": \"App: " + PackageName(name) + "\",\n")
    ensures Contains(VsCode(name).launch, "\"name\": \"Test: " + PackageName(name) + "\",\n")
  {
    PackageDeclaresName(name);
    DockerFileBuildsPackage(name);
    LaunchNamesPackage(name);
  }

  /**
   * The directory the tsconfig compiles into, seen from the repository root,
   * is the one the Dockerfile copies the manifests into and installs in.
   */
  lemma BuildDirShared(name: string)
    ensures Contains(GetTsconfig(name), "\"outDir\": \"" + ("../../" + DistDir(name)) + "\"\n")
    ensures Contains(GetDockerFile(name), "COPY " + AppFile(name, "/package.json") + " " + (DistDir(name) + "/") + "\n")
    ensures Contains(GetDockerFile(name), "RUN yarn --cwd " + DistDir(name) + "\n")
  {
    TsconfigOutDir(name);
    OutDirIsDistDir(name);
    DockerFileCopiesManifests(name);
  }

  /**
   * The manifest the sources import is the one the Dockerfile copies: both
   * are `apps/<name>/package.json`.
   */
  lemma ManifestShared(name: string)
    ensures Contains(GetMain(name), PackageImport("import { description, name, version } from '", name))
    ensures Contains(Health(name).service, PackageImport("import { name, version } from '", name))
    ensures Contains(GetDockerFile(name), "COPY " + PackageJson(name) + " " + (DistDir(name) + "/") + "\n")
  {
    MainUsesName(name);
    HealthReadsPackage(name);
    DockerFileCopiesManifests(name);
    assert AppFile(name, "/package.json") == PackageJson(name);
  }

  /**
   * The upper-cased name is the key `main.ts` destructures the secrets
   * under and the prefix of the port variable the `.env` file sets.
   */
  lemma SecretsKeyShared(name: string)
    ensures Contains(GetMain(name), UpperCase(name) + ": { PORT, HOST },\n")
    ensures Contains(GetEnv(name), (UpperCase(name) + "_PORT=4000") + "\n")
  {
    MainUsesName(name);
    EnvSetsPort(name);
  }

  /** The port the `.env` file sets is the one the Dockerfile exposes. */
  lemma PortShared(name: string)
    ensures Contains(GetEnv(name), UpperCase(name) + "_PORT=" + "4000" + "\n")
    ensures Contains(GetDockerFile(name), "EXPOSE " + "4000" + "\n")
  {
    EnvSetsPort(name);
    DockerFileBuildsPackage(name);
    PortLiterals(UpperCase(name));
  }

  /** The port, cut out of the two lines that write it. */
  lemma PortLiterals(key: string)
    ensures (key + "_PORT=4000") + "\n" == key + "_PORT=" + "4000" + "\n"
    ensures "EXPOSE 4000\n" == "EXPOSE " + "4000" + "\n"
  {
    assert "_PORT=4000" == "_PORT=" + "4000";
    assert key + "_PORT=4000" == key + ("_PORT=" + "4000");
  }

  /**
   * For the name `teste` the controller imports the create use case's types
   * from `../../core/use-cases/testecreate` and takes the port as a
   * `TesteCreateAdapter`.
   */
  lemma TesteController()
    ensures Contains(App("teste").controller, "import { " + ("Teste" + "CreateInput") + ", " + ("Teste" + "CreateOutput")
      + " } from '" + ("../../core/use-cases/" + "teste" + "create") + "';\n")
    ensures Contains(App("teste").controller, "private readonly " + ("teste" + "Create") + ": " + ("Teste" + "CreateAdapter") + ",\n")
  {
    AppTexts("teste");
    ExampleTeste();
    ControllerImportsUseCases(TitleCase("teste"), "teste", Create);
    ControllerParams(TitleCase("teste"), "teste", Create);
  }
}
