/**
 * Properties of the application-level generators of
 * `src/scaffold/app/src.js`: `getMain`, `getSourceModule`, `health` and
 * `healthTests`. Each lemma states that a file writes a given line built
 * from the name, or that a file does not depend on the name at all.
 */
module SourceProperties {
  import opened CaseMap
  import opened Template
  import opened SourceTemplates
  import opened CrudProperties

  /** The manifest of the generated application, which its sources import. */
  function PackageJson(name: string): string { "apps/" + name + "/package.json" }

  /** Where the root module imports the feature module from. */
  function AppModulePath(name: string): string { "./" + name + "/module" }

  /**
   * An import from the manifest: `head` is the text up to the opening quote,
   * such as `import { name, version } from '`.
   */
  function PackageImport(head: string, name: string): string {
    head + PackageJson(name) + "';\n"
  }

  // ------------------------------------------------------------------ main

  /** Where `getMain` imports the manifest. */
  lemma MainPackageLine(name: string)
    ensures MainPart(name, 1) == PackageImport("import { description, name, version } from '", name)
  {
  }

  /** Where `getMain` destructures the secrets of the application. */
  lemma MainSecretsLine(name: string)
    ensures MainPart(name, 3) == "    " + (UpperCase(name) + ": { PORT, HOST },\n")
  {
  }

  /** Where `getMain` sets the global prefix of the routes. */
  lemma MainPrefixLine(name: string)
    ensures MainPart(name, 5) == "  " + ("app.setGlobalPrefix('" + name + "');\n")
  {
  }

  /**
   * `getMain(name)` reads the description, name and version from the
   * application's own manifest, destructures the secrets under the key
   * `name.toUpperCase()`, and serves every route under the prefix `name`.
   */
  lemma MainUsesName(name: string)
    ensures Contains(GetMain(name), PackageImport("import { description, name, version } from '", name))
    ensures Contains(GetMain(name), UpperCase(name) + ": { PORT, HOST },\n")
    ensures Contains(GetMain(name), "app.setGlobalPrefix('" + name + "');\n")
  {
    var parts := MainParts(name);
    var pkg := PackageImport("import { description, name, version } from '", name);
    var key := UpperCase(name) + ": { PORT, HOST },\n";
    var prefix := "app.setGlobalPrefix('" + name + "');\n";
    MainPackageLine(name);
    MainSecretsLine(name);
    MainPrefixLine(name);
    assert parts[1] == pkg;
    assert parts[3] == "    " + key;
    assert parts[5] == "  " + prefix;
    PartOccurs(parts, 1, pkg);
    LineOccurs(parts, 3, "    ", key);
    LineOccurs(parts, 5, "  ", prefix);
  }

  // ----------------------------------------------------------- root module

  /** Where `getSourceModule` imports and lists the feature module and the health module. */
  lemma SourceModuleLines(name: string)
    ensures SourceModulePart(name, 1) == "import { HealthModule } from './health/module';\n"
    ensures SourceModulePart(name, 2)
            == "import { " + ModuleClass(TitleCase(name)) + " } from '" + AppModulePath(name) + "';\n"
    ensures SourceModulePart(name, 4)
            == "  " + ("imports: [" + ModuleClass(TitleCase(name)) + ", HealthModule, InfraModule, TokenModule]\n")
  {
  }

  /**
   * The root module imports the feature module's class from
   * `./<name>/module` and lists that same class first among its imports,
   * ahead of the health module it imports from `./health/module`.
   */
  lemma SourceModuleImportsApp(name: string)
    ensures Contains(GetSourceModule(name),
      "import { " + ModuleClass(TitleCase(name)) + " } from '" + AppModulePath(name) + "';\n")
    ensures Contains(GetSourceModule(name),
      "imports: [" + ModuleClass(TitleCase(name)) + ", HealthModule, InfraModule, TokenModule]\n")
    ensures Contains(GetSourceModule(name), "import { HealthModule } from './health/module';\n")
  {
    var parts := SourceModuleParts(name);
    var cls := ModuleClass(TitleCase(name));
    var imp := "import { " + cls + " } from '" + AppModulePath(name) + "';\n";
    var list := "imports: [" + cls + ", HealthModule, InfraModule, TokenModule]\n";
    var health := "import { HealthModule } from './health/module';\n";
    SourceModuleLines(name);
    assert parts[1] == health;
    assert parts[2] == imp;
    assert parts[4] == "  " + list;
    PartOccurs(parts, 1, health);
    PartOccurs(parts, 2, imp);
    LineOccurs(parts, 4, "  ", list);
  }

  /** The feature module's class and path for the name `teste`. */
  lemma TesteModuleNames()
    ensures ModuleClass(TitleCase("teste")) == "TesteModule"
    ensures AppModulePath("teste") == "./teste/module"
  {
    ExampleTeste();
  }

  /** For the name `teste` the root module imports `TesteModule` from `./teste/module` and lists it. */
  lemma SourceModuleTeste()
    ensures Contains(GetSourceModule("teste"), "import { " + "TesteModule" + " } from '" + "./teste/module" + "';\n")
    ensures Contains(GetSourceModule("teste"), "imports: [" + "TesteModule" + ", HealthModule, InfraModule, TokenModule]\n")
  {
    SourceModuleImportsApp("teste");
    TesteModuleNames();
  }

  // ---------------------------------------------------------------- health

  /** Of the health-check files, the adapter, the controller and the module do not depend on the name. */
  lemma HealthNameFree(a: string, b: string)
    ensures Health(a).adapter == Health(b).adapter
    ensures Health(a).controller == Health(b).controller
    ensures Health(a).module_ == Health(b).module_
    ensures HealthTests(a).module_ == HealthTests(b).module_
  {
  }

  /**
   * The health-check service and its swagger description read the
   * application's name (the service also its version) from its own manifest.
   */
  lemma HealthReadsPackage(name: string)
    ensures Contains(Health(name).service, PackageImport("import { name, version } from '", name))
    ensures Contains(Health(name).swagger, PackageImport("import { name } from '", name))
  {
    var versioned, named := PackageImport("import { name, version } from '", name), PackageImport("import { name } from '", name);
    assert HealthServiceParts(name)[1] == versioned;
    assert HealthSwaggerParts(name)[0] == named;
    PartOccurs(HealthServiceParts(name), 1, versioned);
    PartOccurs(HealthSwaggerParts(name), 0, named);
  }

  /** The tests of the health-check controller and service import the manifest too. */
  lemma HealthTestsReadPackage(name: string)
    ensures Contains(HealthTests(name).controller, PackageImport("import { name, version } from '", name))
    ensures Contains(HealthTests(name).service, PackageImport("import { name, version } from '", name))
  {
    var versioned := PackageImport("import { name, version } from '", name);
    assert HealthTestsControllerParts(name)[1] == versioned;
    assert HealthTestsServiceParts(name)[1] == versioned;
    PartOccurs(HealthTestsControllerParts(name), 1, versioned);
    PartOccurs(HealthTestsServiceParts(name), 1, versioned);
  }

  /**
   * The health-check classes: the adapter declares the port the controller
   * is built over and the service implements, each importing it from
   * `./adapter`.
   */
  lemma HealthClasses(name: string)
    ensures Contains(Health(name).adapter, "export abstract class IHealthService {\n")
    ensures Contains(Health(name).controller, "import { IHealthService } from './adapter';\n")
    ensures Contains(Health(name).controller, "export class HealthController {\n")
    ensures Contains(Health(name).controller, "constructor(private readonly healthService: IHealthService) {}\n")
    ensures Contains(Health(name).service, "import { IHealthService } from './adapter';\n")
    ensures Contains(Health(name).service, "export class HealthService implements IHealthService {\n")
  {
    var adapter, controller, service := HealthAdapterParts(), HealthControllerParts(), HealthServiceParts(name);
    var port := "import { IHealthService } from './adapter';\n";
    var ctor := "constructor(private readonly healthService: IHealthService) {}\n";
    assert adapter[0] == "export abstract class IHealthService {\n";
    assert controller[1] == port;
    assert controller[3] == "export class HealthController {\n";
    assert controller[4] == "  " + ctor;
    assert service[3] == port;
    assert service[5] == "export class HealthService implements IHealthService {\n";
    PartOccurs(adapter, 0, "export abstract class IHealthService {\n");
    PartOccurs(controller, 1, port);
    PartOccurs(controller, 3, "export class HealthController {\n");
    LineOccurs(controller, 4, "  ", ctor);
    PartOccurs(service, 3, port);
    PartOccurs(service, 5, "export class HealthService implements IHealthService {\n");
  }

  /** The health-check module imports the port, the controller and the service from their files. */
  lemma HealthModuleImports(name: string)
    ensures Contains(Health(name).module_, "import { IHealthService } from './adapter';\n")
    ensures Contains(Health(name).module_, "import { HealthController } from './controller';\n")
    ensures Contains(Health(name).module_, "import { HealthService } from './service';\n")
  {
    var parts := HealthModuleParts();
    assert parts[1] == "import { IHealthService } from './adapter';\n";
    assert parts[2] == "import { HealthController } from './controller';\n";
    assert parts[3] == "import { HealthService } from './service';\n";
    PartOccurs(parts, 1, "import { IHealthService } from './adapter';\n");
    PartOccurs(parts, 2, "import { HealthController } from './controller';\n");
    PartOccurs(parts, 3, "import { HealthService } from './service';\n");
  }

  /** The health-check module registers the controller and declares the class the root module imports. */
  lemma HealthModuleWiring(name: string)
    ensures Contains(Health(name).module_, "controllers: [HealthController],\n")
    ensures Contains(Health(name).module_, "export class HealthModule {}\n")
  {
    var parts := HealthModuleParts();
    assert parts[5] == "  " + "controllers: [HealthController],\n";
    assert parts[10] == "export class HealthModule {}\n";
    LineOccurs(parts, 5, "  ", "controllers: [HealthController],\n");
    PartOccurs(parts, 10, "export class HealthModule {}\n");
  }

  /** The health-check module binds the port to the service, on two consecutive lines. */
  lemma HealthModuleBinds(name: string)
    ensures Contains(Health(name).module_,
      "      " + "provide: IHealthService,\n" + ("      " + "useClass: HealthService,\n"))
  {
    var parts := HealthModuleParts();
    var bind := "      " + "provide: IHealthService,\n" + ("      " + "useClass: HealthService,\n");
    assert parts[7] == "      " + "provide: IHealthService,\n";
    assert parts[8] == "      " + "useClass: HealthService,\n";
    PartsOccur(parts, 7, bind);
  }
}
