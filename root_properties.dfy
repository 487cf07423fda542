/**
 * Properties of the project-level generators of `src/scaffold/app/root.js`:
 * each lemma states that a file writes a given line built from the name,
 * or that a file does not depend on the name.
 */
module RootProperties {
  import opened CaseMap
  import opened Template
  import opened RootTemplates

  /** The package name of the generated application in the monorepo. */
  function PackageName(name: string): string { "@app/" + name }

  /** The directory the application is built into, relative to the repository root. */
  function DistDir(name: string): string { "dist/apps/" + name }

  /** A file of the application's sources, relative to the repository root: `file` starts with `/`. */
  function AppFile(name: string, file: string): string { "apps/" + name + file }

  // --------------------------------------------------------- package.json

  /** Where `getPackage` writes its name and description. */
  lemma PackageLines(name: string)
    ensures PackagePart(name, 1) == "  " + ("\"name\": \"" + PackageName(name) + "\",\n")
    ensures PackagePart(name, 3) == "  " + ("\"description\": \"" + name + "\",\n")
  {
  }

  /** `getPackage(name)` names the package `@app/<name>` and describes it with the raw name. */
  lemma PackageDeclaresName(name: string)
    ensures Contains(GetPackage(name), "\"name\": \"" + PackageName(name) + "\",\n")
    ensures Contains(GetPackage(name), "\"description\": \"" + name + "\",\n")
  {
    var parts := PackageParts(name);
    var pkg := "\"name\": \"" + PackageName(name) + "\",\n";
    var desc := "\"description\": \"" + name + "\",\n";
    PackageLines(name);
    assert parts[1] == "  " + pkg;
    assert parts[3] == "  " + desc;
    LineOccurs(parts, 1, "  ", pkg);
    LineOccurs(parts, 3, "  ", desc);
  }

  // ----------------------------------------------------------- Dockerfile

  /** Where `getDockerFile` builds the package, exposes the port and starts the application. */
  lemma DockerFileRunLines(name: string)
    ensures DockerFilePart(name, 1) == "RUN yarn && yarn build " + PackageName(name) + "\n"
    ensures DockerFilePart(name, 7) == "EXPOSE 4000\n"
    ensures DockerFilePart(name, 13) == "CMD yarn --cwd apps " + ("start:" + name + ":prd") + "\n"
  {
  }

  /** Where `getDockerFile` copies the manifests into the build directory and installs there. */
  lemma DockerFileCopyLines(name: string)
    ensures DockerFilePart(name, 3) == "COPY " + AppFile(name, "/package.json") + " " + (DistDir(name) + "/") + "\n"
    ensures DockerFilePart(name, 4) == "COPY " + AppFile(name, "/tsconfig.build.json") + " " + (DistDir(name) + "/") + "\n"
    ensures DockerFilePart(name, 5) == "COPY " + AppFile(name, "/tsconfig.json") + " " + (DistDir(name) + "/") + "\n"
    ensures DockerFilePart(name, 9) == "RUN yarn --cwd " + DistDir(name) + "\n"
  {
  }

  /**
   * The Dockerfile builds the package `@app/<name>`, exposes port 4000 and
   * starts the application with the script `start:<name>:prd`.
   */
  lemma DockerFileBuildsPackage(name: string)
    ensures Contains(GetDockerFile(name), "RUN yarn && yarn build " + PackageName(name) + "\n")
    ensures Contains(GetDockerFile(name), "EXPOSE 4000\n")
    ensures Contains(GetDockerFile(name), "CMD yarn --cwd apps " + ("start:" + name + ":prd") + "\n")
  {
    var parts := DockerFileParts(name);
    var build := "RUN yarn && yarn build " + PackageName(name) + "\n";
    var cmd := "CMD yarn --cwd apps " + ("start:" + name + ":prd") + "\n";
    DockerFileRunLines(name);
    assert parts[1] == build;
    assert parts[7] == "EXPOSE 4000\n";
    assert parts[13] == cmd;
    PartOccurs(parts, 1, build);
    PartOccurs(parts, 7, "EXPOSE 4000\n");
    PartOccurs(parts, 13, cmd);
  }

  /**
   * The Dockerfile copies the application's `package.json` and both
   * tsconfig files into `dist/apps/<name>/` and installs its dependencies
   * in `dist/apps/<name>`.
   */
  lemma DockerFileCopiesManifests(name: string)
    ensures Contains(GetDockerFile(name), "COPY " + AppFile(name, "/package.json") + " " + (DistDir(name) + "/") + "\n")
    ensures Contains(GetDockerFile(name), "COPY " + AppFile(name, "/tsconfig.build.json") + " " + (DistDir(name) + "/") + "\n")
    ensures Contains(GetDockerFile(name), "COPY " + AppFile(name, "/tsconfig.json") + " " + (DistDir(name) + "/") + "\n")
    ensures Contains(GetDockerFile(name), "RUN yarn --cwd " + DistDir(name) + "\n")
  {
    var parts := DockerFileParts(name);
    var pkg := "COPY " + AppFile(name, "/package.json") + " " + (DistDir(name) + "/") + "\n";
    var build := "COPY " + AppFile(name, "/tsconfig.build.json") + " " + (DistDir(name) + "/") + "\n";
    var ts := "COPY " + AppFile(name, "/tsconfig.json") + " " + (DistDir(name) + "/") + "\n";
    var install := "RUN yarn --cwd " + DistDir(name) + "\n";
    DockerFileCopyLines(name);
    assert parts[3] == pkg;
    assert parts[4] == build;
    assert parts[5] == ts;
    assert parts[9] == install;
    PartOccurs(parts, 3, pkg);
    PartOccurs(parts, 4, build);
    PartOccurs(parts, 5, ts);
    PartOccurs(parts, 9, install);
  }

  // -------------------------------------------------------- tsconfig.json

  /** `getTsconfig(name)` compiles into `../../dist/apps/<name>`. */
  lemma TsconfigOutDir(name: string)
    ensures Contains(GetTsconfig(name), "\"outDir\": \"" + ("../../dist/apps/" + name) + "\"\n")
  {
    var parts := TsconfigParts(name);
    var out := "\"outDir\": \"" + ("../../dist/apps/" + name) + "\"\n";
    assert parts[1] == "    " + out;
    LineOccurs(parts, 1, "    ", out);
  }

  /**
   * Seen from `apps/<name>`, where the tsconfig lives, the output directory
   * is the build directory the Dockerfile copies into.
   */
  lemma OutDirIsDistDir(name: string)
    ensures "../../dist/apps/" + name == "../../" + DistDir(name)
  {
    assert "../../dist/apps/" == "../../" + "dist/apps/";
    assert "../../" + "dist/apps/" + name == "../../" + ("dist/apps/" + name);
  }

  // ----------------------------------------------------------------- .env

  /** `getEnv(name)` sets the application's port, `<NAME>_PORT`, to 4000. */
  lemma EnvSetsPort(name: string)
    ensures Contains(GetEnv(name), (UpperCase(name) + "_PORT=4000") + "\n")
  {
    var parts := EnvParts(name);
    var line := (UpperCase(name) + "_PORT=4000") + "\n";
    assert parts[1] == "  " + line;
    LineOccurs(parts, 1, "  ", line);
  }

  /** For the name `dog` the variable is `DOG_PORT`. */
  lemma EnvDog()
    ensures Contains(GetEnv("dog"), ("DOG" + "_PORT=4000") + "\n")
  {
    EnvSetsPort("dog");
    ExampleDog();
  }

  // --------------------------------------------------------------- vsCode

  /** Where the launch configurations name the application and its start script. */
  lemma LaunchLines(name: string)
    ensures LaunchPart(name, 1) == "      " + ("\"name\": \"App: " + PackageName(name) + "\",\n")
    ensures LaunchPart(name, 3) == "        " + ("\"" + ("start:" + name + ":dev") + "\"\n")
    ensures LaunchPart(name, 5) == "      " + ("\"name\": \"Test: " + PackageName(name) + "\",\n")
  {
  }

  /**
   * `vsCode(name).launch` has a configuration `App: @app/<name>` that runs
   * the script `start:<name>:dev` and a configuration `Test: @app/<name>`.
   */
  lemma LaunchNamesPackage(name: string)
    ensures Contains(VsCode(name).launch, "\"name\": \"App: " + PackageName(name) + "\",\n")
    ensures Contains(VsCode(name).launch, "\"" + ("start:" + name + ":dev") + "\"\n")
    ensures Contains(VsCode(name).launch, "\"name\": \"Test: " + PackageName(name) + "\",\n")
  {
    var parts := LaunchParts(name);
    var app := "\"name\": \"App: " + PackageName(name) + "\",\n";
    var start := "\"" + ("start:" + name + ":dev") + "\"\n";
    var test := "\"name\": \"Test: " + PackageName(name) + "\",\n";
    LaunchLines(name);
    assert parts[1] == "      " + app;
    assert parts[3] == "        " + start;
    assert parts[5] == "      " + test;
    LineOccurs(parts, 1, "      ", app);
    LineOccurs(parts, 3, "        ", start);
    LineOccurs(parts, 5, "      ", test);
  }

  /** The editor's extensions and settings do not depend on the name. */
  lemma VsCodeNameFree(a: string, b: string)
    ensures VsCode(a).extensions == VsCode(b).extensions
    ensures VsCode(a).settings == VsCode(b).settings
  {
  }
}
