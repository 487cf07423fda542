/**
 * Properties of `app(name)`, the generator of a CRUD feature module
 * (`src/scaffold/app/src.js`, lines 337-662). The identifiers and module
 * paths the five files share are named once here (`Port`, `UseCasePath`,
 * `ControllerClass`, ...), and each lemma states that a file writes one of
 * them in a given line: the ports the adapter declares are the ones the
 * module and the controller import and the module binds, the classes the
 * controller and repository files declare are the ones the module
 * registers, and the controller and swagger files carry the routes and
 * decorators the source writes, quirks included.
 */
module CrudProperties {
  import opened CaseMap
  import opened Template
  import opened SourceTemplates

  /** The five use cases every feature module is generated with. */
  datatype UseCase = Create | Update | GetByID | List | Delete

  /** The port of a use case: the abstract class the adapter declares and the module binds. */
  function Port(fname: string, op: UseCase): string {
    match op
    case Create => "I" + fname + "CreateAdapter"
    case Update => "I" + fname + "UpdateAdapter"
    case GetByID => "I" + fname + "GetByIDAdapter"
    case List => "I" + fname + "ListAdapter"
    case Delete => "I" + fname + "DeleteAdapter"
  }

  /** The type the controller gives its parameter for use case `op`: the port without its `I`. */
  function ParamType(fname: string, op: UseCase): string {
    match op
    case Create => fname + "CreateAdapter"
    case Update => fname + "UpdateAdapter"
    case GetByID => fname + "GetByIDAdapter"
    case List => fname + "ListAdapter"
    case Delete => fname + "DeleteAdapter"
  }

  /** The controller's field holding the port of use case `op`. */
  function Field(name: string, op: UseCase): string {
    match op
    case Create => name + "Create"
    case Update => name + "Update"
    case GetByID => name + "GetByID"
    case List => name + "List"
    case Delete => name + "Delete"
  }

  /** The input type of use case `op`. */
  function InputType(fname: string, op: UseCase): string {
    match op
    case Create => fname + "CreateInput"
    case Update => fname + "UpdateInput"
    case GetByID => fname + "GetByIDInput"
    case List => fname + "ListInput"
    case Delete => fname + "DeleteInput"
  }

  /** The output type of use case `op`. */
  function OutputType(fname: string, op: UseCase): string {
    match op
    case Create => fname + "CreateOutput"
    case Update => fname + "UpdateOutput"
    case GetByID => fname + "GetByIDOutput"
    case List => fname + "ListOutput"
    case Delete => fname + "DeleteOutput"
  }

  /** The class implementing use case `op`, as the module names it (`GetById`, not `GetByID`). */
  function UseCaseClass(fname: string, op: UseCase): string {
    match op
    case Create => fname + "CreateUsecase"
    case Update => fname + "UpdateUsecase"
    case GetByID => fname + "GetByIdUsecase"
    case List => fname + "ListUsecase"
    case Delete => fname + "DeleteUsecase"
  }

  /** The module of use case `op`, as the adapter, the module and the repository import it. */
  function UseCasePath(name: string, op: UseCase): string {
    match op
    case Create => "../../core/use-cases/" + name + "-create"
    case Update => "../../core/use-cases/" + name + "-update"
    case GetByID => "../../core/use-cases/" + name + "-getByID"
    case List => "../../core/use-cases/" + name + "-list"
    case Delete => "../../core/use-cases/" + name + "-delete"
  }

  /** The module of use case `op` as the controller imports it: the same path without its hyphen. */
  function ControllerUseCasePath(name: string, op: UseCase): string {
    match op
    case Create => "../../core/use-cases/" + name + "create"
    case Update => "../../core/use-cases/" + name + "update"
    case GetByID => "../../core/use-cases/" + name + "getByID"
    case List => "../../core/use-cases/" + name + "list"
    case Delete => "../../core/use-cases/" + name + "delete"
  }

  /** The controller method that handles use case `op`. */
  function Handler(op: UseCase): string {
    match op
    case Create => "create"
    case Update => "update"
    case GetByID => "getById"
    case List => "list"
    case Delete => "delete"
  }

  function ControllerClass(fname: string): string { fname + "Controller" }

  function RepositoryClass(fname: string): string { fname + "Repository" }

  /** The class of the feature module: `app(name).module` declares it and the root module imports it. */
  function ModuleClass(fname: string): string { fname + "Module" }

  /** The repository port: the abstract class the repository implements and the module binds. */
  function RepositoryPort(fname: string): string { "I" + fname + "Repository" }

  /** `import { <type>Input, <type>Output } from '<path>';` as the adapter, controller and repository write it. */
  function TypesImport(fname: string, op: UseCase, path: string): string {
    "import { " + InputType(fname, op) + ", " + OutputType(fname, op) + " } from '" + path + "';\n"
  }

  /**
   * The import of the five ports from `./adapter`, one per line, that the
   * module (`indent` empty) and the controller (`indent` two spaces) write.
   */
  function PortsImport(indent: string, fname: string): string {
    (indent + "import {\n")
    + (indent + "  " + (Port(fname, Create) + ",\n"))
    + (indent + "  " + (Port(fname, Delete) + ",\n"))
    + (indent + "  " + (Port(fname, GetByID) + ",\n"))
    + (indent + "  " + (Port(fname, List) + ",\n"))
    + (indent + "  " + (Port(fname, Update) + "\n"))
    + (indent + "} from './adapter';\n")
  }

  /** The declaration of `execute` in port `op`: the commands (create, update, delete) also take the trace. */
  function Execute(fname: string, op: UseCase): string {
    "abstract execute(input: " + InputType(fname, op)
    + (if op != GetByID && op != List then ", trace: ApiTrancingInput): Promise<" else "): Promise<")
    + OutputType(fname, op) + ">;\n"
  }

  /** How the module's provider of port `op` builds it: the use-case class over the repository port. */
  function Factory(fname: string, op: UseCase): string {
    if op == Update then
      "useFactory: (logger: ILoggerAdapter, repository: " + RepositoryPort(fname) + ") => new "
      + UseCaseClass(fname, op) + "(repository, logger),\n"
    else
      "useFactory: (repository: " + RepositoryPort(fname) + ") => new "
      + UseCaseClass(fname, op) + "(repository),\n"
  }

  /** The controller's constructor parameter for use case `op`; the last one has no comma. */
  function Param(fname: string, name: string, op: UseCase): string {
    "private readonly " + Field(name, op) + ": " + ParamType(fname, op) + (if op == Delete then "\n" else ",\n")
  }

  /** The first line of the controller's handler of use case `op`, which returns the use case's output. */
  function HandlerOpen(fname: string, op: UseCase): string {
    match op
    case Create => "async create(@Req() { body, user, tracing }: ApiRequest): Promise<" + OutputType(fname, op) + "> {\n"
    case Update => "async update(@Req() { body, user, tracing }: ApiRequest): Promise<" + OutputType(fname, op) + "> {\n"
    case GetByID => "async getById(@Req() { params }: ApiRequest): Promise<" + OutputType(fname, op) + "> {\n"
    case List => "async list(@Req() { query }: ApiRequest): Promise<" + OutputType(fname, op) + "> {\n"
    case Delete => "async delete(@Req() { params, user, tracing }: ApiRequest): Promise<" + OutputType(fname, op) + "> {\n"
  }

  /** A documented not-found response: its route and, on the next line, its message. */
  function NotFound(route: string, name: string): string {
    "      " + ("route: '" + route + "',\n") + ("      " + ("message: '" + name + " Not Found',\n"))
  }

  /** The position of use case `op` where the files list the five in declaration order. */
  function Rank(op: UseCase): nat {
    match op
    case Create => 0
    case Update => 1
    case GetByID => 2
    case List => 3
    case Delete => 4
  }

  /** The position of use case `op` where the files list the five in alphabetical order (the imports). */
  function AlphaRank(op: UseCase): nat {
    match op
    case Create => 0
    case Delete => 1
    case GetByID => 2
    case List => 3
    case Update => 4
  }

  // ---------------------------------------------------------------- adapter

  /** Where the adapter imports the types of use case `op`. */
  lemma AdapterImportLines(fname: string, name: string, op: UseCase)
    ensures AdapterPart(fname, name, 1 + AlphaRank(op)) == "  " + TypesImport(fname, op, UseCasePath(name, op))
  {
    match op
    case Create =>
    case Update =>
    case GetByID =>
    case List =>
    case Delete =>
  }

  /** Where the adapter declares the port of use case `op` and its `execute`. */
  lemma AdapterClassLines(fname: string, name: string, op: UseCase)
    ensures 7 + 3 * Rank(op) + 1 < 22
    ensures AdapterPart(fname, name, 7 + 3 * Rank(op)) == "  " + ("export abstract class " + Port(fname, op) + " {\n")
    ensures AdapterPart(fname, name, 7 + 3 * Rank(op) + 1) == "    " + Execute(fname, op)
  {
    match op
    case Create =>
    case Update =>
    case GetByID =>
    case List =>
    case Delete =>
  }

  /**
   * `app(name).adapter` declares the port of every use case, imports the use
   * case's input and output types from the hyphenated use-case path, and
   * gives the port an `execute` from the input type to the output type.
   */
  lemma AdapterDeclaresPorts(fname: string, name: string, op: UseCase)
    ensures && Contains(AdapterText(fname, name), "export abstract class " + Port(fname, op) + " {\n")
      && Contains(AdapterText(fname, name), TypesImport(fname, op, UseCasePath(name, op)))
      && Contains(AdapterText(fname, name), Execute(fname, op))
  {
    var parts := AdapterParts(fname, name);
    var cls := "export abstract class " + Port(fname, op) + " {\n";
    var imp := TypesImport(fname, op, UseCasePath(name, op));
    var exe := Execute(fname, op);
    var k := 7 + 3 * Rank(op);
    AdapterImportLines(fname, name, op);
    AdapterClassLines(fname, name, op);
    assert parts[1 + AlphaRank(op)] == "  " + imp;
    assert parts[k] == "  " + cls;
    assert parts[k + 1] == "    " + exe;
    LineOccurs(parts, 1 + AlphaRank(op), "  ", imp);
    LineOccurs(parts, k, "  ", cls);
    LineOccurs(parts, k + 1, "    ", exe);
  }

  // ----------------------------------------------------------------- module

  /** Where the module writes its lines about use case `op`. */
  lemma ModuleLines(fname: string, name: string, op: UseCase)
    ensures ModulePart(fname, name, 5 + AlphaRank(op))
            == "import { " + UseCaseClass(fname, op) + " } from '" + UseCasePath(name, op) + "';\n"
    ensures ModulePart(fname, name, 21 + 4 * Rank(op)) + ModulePart(fname, name, 21 + 4 * Rank(op) + 1)
            == "      " + ("provide: " + Port(fname, op) + ",\n") + ("      " + Factory(fname, op))
  {
    match op
    case Create =>
    case Update =>
    case GetByID =>
    case List =>
    case Delete =>
  }

  /** The module's import of the ports is the shared import list with no indentation. */
  lemma ModulePortsLines(fname: string, name: string)
    ensures ModulePart(fname, name, 10) == PortsImport("", fname)
  {
    assert "" + "import {\n" == "import {\n";
    assert "" + "  " == "  ";
    assert "" + "} from './adapter';\n" == "} from './adapter';\n";
  }

  /** Where the module imports its controller and repository classes. */
  lemma ModuleClassImportLines(fname: string, name: string)
    ensures ModulePart(fname, name, 11) == "import { " + ControllerClass(fname) + " } from './controller';\n"
    ensures ModulePart(fname, name, 12) == "import { " + RepositoryClass(fname) + " } from './repository';\n"
  {
  }

  /** Where the module registers the controller and provides the repository. */
  lemma ModuleClassProviderLines(fname: string, name: string)
    ensures ModulePart(fname, name, 14) == "  " + ("controllers: [" + ControllerClass(fname) + "],\n")
    ensures ModulePart(fname, name, 16) == "      " + ("provide: " + RepositoryPort(fname) + ",\n")
  {
  }

  /** Where the module builds the repository and guards the controller's routes. */
  lemma ModuleClassUseLines(fname: string, name: string)
    ensures ModulePart(fname, name, 19) == "        " + ("return new " + RepositoryClass(fname)
              + "(repossitory as ModelCtor<" + (fname + "Schema") + "> & " + (fname + "Entity") + ");\n")
    ensures ModulePart(fname, name, 43)
            == "    " + ("consumer.apply(IsLoggedMiddleware).forRoutes(" + ControllerClass(fname) + ");\n")
  {
  }

  /** Where the module declares its own class. */
  lemma ModuleDeclLines(fname: string, name: string)
    ensures ModulePart(fname, name, 41) == "export class " + ModuleClass(fname) + " implements NestModule {\n"
  {
  }

  /** `app(name).module` declares the feature module's class, which applies middleware. */
  lemma ModuleDeclaresClass(fname: string, name: string)
    ensures Contains(ModuleText(fname, name), "export class " + ModuleClass(fname) + " implements NestModule {\n")
  {
    var parts := ModuleParts(fname, name);
    var cls := "export class " + ModuleClass(fname) + " implements NestModule {\n";
    ModuleDeclLines(fname, name);
    assert parts[41] == cls;
    PartOccurs(parts, 41, cls);
  }

  /** `app(name).module` imports the five ports, in one statement, from `./adapter`. */
  lemma ModuleImportsPorts(fname: string, name: string)
    ensures Contains(ModuleText(fname, name), PortsImport("", fname))
  {
    var parts := ModuleParts(fname, name);
    ModulePortsLines(fname, name);
    assert parts[10] == PortsImport("", fname);
    PartOccurs(parts, 10, PortsImport("", fname));
  }

  /**
   * The module imports every use-case class it builds from the hyphenated
   * use-case path, and binds every port to a factory that builds the
   * use-case class over the repository port; only the update use case also
   * gets the logger.
   */
  lemma ModuleProvidesPorts(fname: string, name: string, op: UseCase)
    ensures && Contains(ModuleText(fname, name), "import { " + UseCaseClass(fname, op) + " } from '" + UseCasePath(name, op) + "';\n")
      && Contains(ModuleText(fname, name), "      " + ("provide: " + Port(fname, op) + ",\n") + ("      " + Factory(fname, op)))
  {
    var parts := ModuleParts(fname, name);
    var imp := "import { " + UseCaseClass(fname, op) + " } from '" + UseCasePath(name, op) + "';\n";
    var prv := "      " + ("provide: " + Port(fname, op) + ",\n") + ("      " + Factory(fname, op));
    var k := 21 + 4 * Rank(op);
    ModuleLines(fname, name, op);
    assert parts[5 + AlphaRank(op)] == imp;
    assert parts[k] + parts[k + 1] == prv;
    PartOccurs(parts, 5 + AlphaRank(op), imp);
    PartsOccur(parts, k, prv);
  }

  /**
   * The module imports the controller and repository classes from their
   * files, registers the controller, routes the logged-in middleware to it,
   * and binds the repository port to a factory that builds the repository.
   */
  lemma ModuleRegistersClasses(fname: string, name: string)
    ensures && Contains(ModuleText(fname, name), "import { " + ControllerClass(fname) + " } from './controller';\n")
      && Contains(ModuleText(fname, name), "import { " + RepositoryClass(fname) + " } from './repository';\n")
      && Contains(ModuleText(fname, name), "controllers: [" + ControllerClass(fname) + "],\n")
      && Contains(ModuleText(fname, name), "consumer.apply(IsLoggedMiddleware).forRoutes(" + ControllerClass(fname) + ");\n")
      && Contains(ModuleText(fname, name), "provide: " + RepositoryPort(fname) + ",\n")
      && Contains(ModuleText(fname, name), "return new " + RepositoryClass(fname) + "(repossitory as ModelCtor<"
                                     + (fname + "Schema") + "> & " + (fname + "Entity") + ");\n")
  {
    var parts := ModuleParts(fname, name);
    var impC := "import { " + ControllerClass(fname) + " } from './controller';\n";
    var impR := "import { " + RepositoryClass(fname) + " } from './repository';\n";
    var ctl := "controllers: [" + ControllerClass(fname) + "],\n";
    var mid := "consumer.apply(IsLoggedMiddleware).forRoutes(" + ControllerClass(fname) + ");\n";
    var prv := "provide: " + RepositoryPort(fname) + ",\n";
    var ret := "return new " + RepositoryClass(fname) + "(repossitory as ModelCtor<"
               + (fname + "Schema") + "> & " + (fname + "Entity") + ");\n";
    ModuleClassImportLines(fname, name);
    ModuleClassProviderLines(fname, name);
    ModuleClassUseLines(fname, name);
    assert parts[11] == impC;
    assert parts[12] == impR;
    assert parts[14] == "  " + ctl;
    assert parts[43] == "    " + mid;
    assert parts[16] == "      " + prv;
    assert parts[19] == "        " + ret;
    PartOccurs(parts, 11, impC);
    PartOccurs(parts, 12, impR);
    LineOccurs(parts, 14, "  ", ctl);
    LineOccurs(parts, 43, "    ", mid);
    LineOccurs(parts, 16, "      ", prv);
    LineOccurs(parts, 19, "        ", ret);
  }

  // ------------------------------------------------------------- controller

  /** The line of the controller that carries `@Version('1')` for the handler of use case `op`. */
  function VersionIndex(op: UseCase): nat {
    match op
    case Create => 18
    case Update => 22
    case GetByID => 26
    case List => 30
    case Delete => 36
  }

  /** Where the controller imports the types of use case `op`. */
  lemma ControllerImportLines(fname: string, name: string, op: UseCase)
    ensures ControllerPart(fname, name, 1 + AlphaRank(op))
            == "  " + TypesImport(fname, op, ControllerUseCasePath(name, op))
  {
    match op
    case Create =>
    case Update =>
    case GetByID =>
    case List =>
    case Delete =>
  }

  /** Where the controller declares its constructor parameter for use case `op`. */
  lemma ControllerParamLines(fname: string, name: string, op: UseCase)
    ensures ControllerPart(fname, name, 12 + Rank(op)) == "      " + Param(fname, name, op)
  {
    match op
    case Create =>
    case Update =>
    case GetByID =>
    case List =>
    case Delete =>
  }

  /** Where the controller versions and opens the handler of use case `op`. */
  lemma ControllerVersionLines(fname: string, name: string, op: UseCase)
    ensures VersionIndex(op) + 1 < 40
    ensures ControllerPart(fname, name, VersionIndex(op)) == "    " + "@Version('1')\n"
  {
    match op
    case Create =>
    case Update =>
    case GetByID =>
    case List =>
    case Delete =>
  }

  /** Where the controller opens the handler of use case `op`, right after its version. */
  lemma ControllerHandlerLines(fname: string, name: string, op: UseCase)
    ensures VersionIndex(op) + 1 < 40
    ensures ControllerPart(fname, name, VersionIndex(op) + 1) == "    " + HandlerOpen(fname, op)
  {
    match op
    case Create =>
    case Update =>
    case GetByID =>
    case List =>
    case Delete =>
  }

  /** Where the controller writes the lines that name the ports and its own class. */
  lemma ControllerClassLines(fname: string, name: string)
    ensures ControllerPart(fname, name, 6) == PortsImport("  ", fname)
    ensures ControllerPart(fname, name, 8) == "  " + ("@ApiTags('" + name + "')\n")
    ensures ControllerPart(fname, name, 10) == "  " + ("export class " + ControllerClass(fname) + " {\n")
  {
    assert "  " + "  " == "    ";
  }

  /** `app(name).controller` imports the same five ports as the module, from `./adapter`. */
  lemma ControllerImportsPorts(fname: string, name: string)
    ensures Contains(ControllerText(fname, name), PortsImport("  ", fname))
  {
    var parts := ControllerParts(fname, name);
    ControllerClassLines(fname, name);
    assert parts[6] == PortsImport("  ", fname);
    PartOccurs(parts, 6, PortsImport("  ", fname));
  }

  /** The controller imports the use case's types from the use-case path without its hyphen. */
  lemma ControllerImportsUseCases(fname: string, name: string, op: UseCase)
    ensures Contains(ControllerText(fname, name), TypesImport(fname, op, ControllerUseCasePath(name, op)))
  {
    var parts := ControllerParts(fname, name);
    var imp := TypesImport(fname, op, ControllerUseCasePath(name, op));
    ControllerImportLines(fname, name, op);
    assert parts[1 + AlphaRank(op)] == "  " + imp;
    LineOccurs(parts, 1 + AlphaRank(op), "  ", imp);
  }

  /**
   * The controller's constructor takes one field per use case, typed with
   * the port's name without the leading `I`.
   */
  lemma ControllerParams(fname: string, name: string, op: UseCase)
    ensures Contains(ControllerText(fname, name), Param(fname, name, op))
  {
    var parts := ControllerParts(fname, name);
    ControllerParamLines(fname, name, op);
    assert parts[12 + Rank(op)] == "      " + Param(fname, name, op);
    LineOccurs(parts, 12 + Rank(op), "      ", Param(fname, name, op));
  }

  /** The two spellings of a use-case path differ for every name: the controller's is one character shorter. */
  lemma ControllerPathDiffers(name: string, op: UseCase)
    ensures |ControllerUseCasePath(name, op)| + 1 == |UseCasePath(name, op)|
    ensures ControllerUseCasePath(name, op) != UseCasePath(name, op)
  {
  }

  /** The controller's parameter type is the port with its leading `I` removed, so never the port itself. */
  lemma ParamTypeIsPortWithoutI(fname: string, op: UseCase)
    ensures Port(fname, op) == "I" + ParamType(fname, op)
    ensures ParamType(fname, op) != Port(fname, op)
  {
    var suffix := match op
      case Create => "CreateAdapter"
      case Update => "UpdateAdapter"
      case GetByID => "GetByIDAdapter"
      case List => "ListAdapter"
      case Delete => "DeleteAdapter";
    assert ParamType(fname, op) == fname + suffix;
    assert Port(fname, op) == "I" + fname + suffix;
    assert "I" + fname + suffix == "I" + (fname + suffix);
  }

  /** The controller is tagged with the raw name and declares the class the module registers. */
  lemma ControllerDeclaresClass(fname: string, name: string)
    ensures Contains(ControllerText(fname, name), "@ApiTags('" + name + "')\n")
    ensures Contains(ControllerText(fname, name), "export class " + ControllerClass(fname) + " {\n")
  {
    var parts := ControllerParts(fname, name);
    var tag := "@ApiTags('" + name + "')\n";
    var cls := "export class " + ControllerClass(fname) + " {\n";
    ControllerClassLines(fname, name);
    assert parts[8] == "  " + tag;
    assert parts[10] == "  " + cls;
    LineOccurs(parts, 8, "  ", tag);
    LineOccurs(parts, 10, "  ", cls);
  }

  /**
   * Every handler is versioned: `@Version('1')` is the line right before the
   * line that opens the handler.
   */
  lemma ControllerHandlersVersioned(fname: string, name: string, op: UseCase)
    ensures Contains(ControllerText(fname, name),
      "    " + "@Version('1')\n" + ("    " + HandlerOpen(fname, op)))
  {
    var parts := ControllerParts(fname, name);
    var s := "    " + "@Version('1')\n" + ("    " + HandlerOpen(fname, op));
    ControllerVersionLines(fname, name, op);
    ControllerHandlerLines(fname, name, op);
    assert parts[VersionIndex(op)] == "    " + "@Version('1')\n";
    assert parts[VersionIndex(op) + 1] == "    " + HandlerOpen(fname, op);
    PartsOccur(parts, VersionIndex(op), s);
  }

  // ------------------------------------------------------------- repository

  /** Where the repository writes the lines that name its class and the list use case. */
  lemma RepositoryLines(fname: string, name: string)
    ensures RepositoryPart(fname, name, 5) == TypesImport(fname, List, UseCasePath(name, List))
    ensures RepositoryPart(fname, name, 9) == "export class " + RepositoryClass(fname)
              + " extends SequelizeRepository<Model> implements " + RepositoryPort(fname) + " {\n"
    ensures RepositoryPart(fname, name, 14) == "  " + ("async paginate(input: " + InputType(fname, List)
              + ", options: DatabaseOptionsType): Promise<" + OutputType(fname, List) + "> {\n")
  {
  }

  /**
   * `app(name).repository` declares the repository class the module builds
   * as an implementation of the repository port the module binds, and pages
   * with the list use case's types, imported from the hyphenated path.
   */
  lemma RepositoryDeclaresClass(fname: string, name: string)
    ensures && Contains(RepositoryText(fname, name), "export class " + RepositoryClass(fname)
           + " extends SequelizeRepository<Model> implements " + RepositoryPort(fname) + " {\n")
      && Contains(RepositoryText(fname, name), TypesImport(fname, List, UseCasePath(name, List)))
      && Contains(RepositoryText(fname, name), "async paginate(input: " + InputType(fname, List)
           + ", options: DatabaseOptionsType): Promise<" + OutputType(fname, List) + "> {\n")
  {
    var parts := RepositoryParts(fname, name);
    var cls := "export class " + RepositoryClass(fname)
               + " extends SequelizeRepository<Model> implements " + RepositoryPort(fname) + " {\n";
    var imp := TypesImport(fname, List, UseCasePath(name, List));
    var pag := "async paginate(input: " + InputType(fname, List)
               + ", options: DatabaseOptionsType): Promise<" + OutputType(fname, List) + "> {\n";
    RepositoryLines(fname, name);
    assert parts[9] == cls;
    assert parts[5] == imp;
    assert parts[14] == "  " + pag;
    PartOccurs(parts, 9, cls);
    PartOccurs(parts, 5, imp);
    LineOccurs(parts, 14, "  ", pag);
  }

  // ---------------------------------------------------------------- swagger

  /**
   * The two lines that tell the swagger file's success responses apart: the
   * response example of use case `op` and its description.
   */
  function OkResponse(fname: string, name: string, op: UseCase): string {
    match op
    case Create => "      " + ("json: " + (fname + "Response.create") + ",\n") + ("      " + ("description: '" + name + " created.'\n"))
    case Update => "      " + ("json: " + (fname + "Response.update") + ",\n") + ("      " + ("description: '" + name + " updated.'\n"))
    case GetByID => "      " + ("json: " + (fname + "Response.getByID") + ",\n") + ("      " + ("description: '" + name + " found.'\n"))
    case List => "      " + ("json: " + (fname + "Response.list") + ",\n") + ("      " + ("description: '" + name + " created.'\n"))
    case Delete => "      " + ("json: " + (fname + "Response.delete") + ",\n") + ("      " + ("description: '" + name + " found.'\n"))
  }

  /** The lines between a success response's description and its not-found response's route. */
  function NotFoundOpen(): string {
    "    }),\n    404: Swagger.defaultResponseError({\n      status: 404,\n"
  }

  /** Where the swagger file writes the update use case's responses. */
  lemma SwaggerUpdateLines(fname: string, name: string)
    ensures SwaggerPart(fname, name, 7) + SwaggerPart(fname, name, 8) == OkResponse(fname, name, Update)
    ensures SwaggerPart(fname, name, 9) == NotFoundOpen()
    ensures SwaggerPart(fname, name, 10) + SwaggerPart(fname, name, 11) == NotFound("api/" + name, name)
  {
  }

  /** Where the swagger file writes the get-by-id use case's responses. */
  lemma SwaggerGetByIdLines(fname: string, name: string)
    ensures SwaggerPart(fname, name, 14) + SwaggerPart(fname, name, 15) == OkResponse(fname, name, GetByID)
    ensures SwaggerPart(fname, name, 16) == NotFoundOpen()
    ensures SwaggerPart(fname, name, 17) + SwaggerPart(fname, name, 18) == NotFound("api/" + name + "/:id", name)
  {
  }

  /** Where the swagger file writes the delete use case's responses. */
  lemma SwaggerDeleteLines(fname: string, name: string)
    ensures SwaggerPart(fname, name, 21) + SwaggerPart(fname, name, 22) == OkResponse(fname, name, Delete)
    ensures SwaggerPart(fname, name, 23) == NotFoundOpen()
    ensures SwaggerPart(fname, name, 24) + SwaggerPart(fname, name, 25) == NotFound("api/" + name + "/:id", name)
  {
  }

  /**
   * The swagger file documents a not-found response for update on
   * `api/<name>`, and for get by id and delete on `api/<name>/:id`, each
   * with the message `<name> Not Found`; each comes right after the success
   * response of its own use case.
   */
  lemma SwaggerNotFoundRoutes(fname: string, name: string)
    ensures Contains(SwaggerText(fname, name),
      OkResponse(fname, name, Update) + NotFoundOpen() + NotFound("api/" + name, name))
    ensures Contains(SwaggerText(fname, name),
      OkResponse(fname, name, GetByID) + NotFoundOpen() + NotFound("api/" + name + "/:id", name))
    ensures Contains(SwaggerText(fname, name),
      OkResponse(fname, name, Delete) + NotFoundOpen() + NotFound("api/" + name + "/:id", name))
  {
    SwaggerUpdateLines(fname, name);
    SwaggerGetByIdLines(fname, name);
    SwaggerDeleteLines(fname, name);
    var parts := SwaggerParts(fname, name);
    var upd := OkResponse(fname, name, Update) + NotFoundOpen() + NotFound("api/" + name, name);
    var byId := OkResponse(fname, name, GetByID) + NotFoundOpen() + NotFound("api/" + name + "/:id", name);
    var del := OkResponse(fname, name, Delete) + NotFoundOpen() + NotFound("api/" + name + "/:id", name);
    assert (parts[7] + parts[8]) + parts[9] + (parts[10] + parts[11]) == upd;
    assert (parts[14] + parts[15]) + parts[16] + (parts[17] + parts[18]) == byId;
    assert (parts[21] + parts[22]) + parts[23] + (parts[24] + parts[25]) == del;
    FiveOccur(parts, 7, upd);
    FiveOccur(parts, 14, byId);
    FiveOccur(parts, 21, del);
  }
}
