/**
 * The generator of `src/scaffold/app/root.js`: the project-level files of a
 * new application. Five of them take no name and are constant texts; the
 * others are numbered lists of parts, as in `SourceTemplates`.
 */
module RootTemplates {
  import opened CaseMap
  import opened Template

  /** `getTsconfig(name)`: `tsconfig.json` (lines 36-47). */
  function GetTsconfig(name: string): string {
    Concat(TsconfigParts(name))
  }

  /** `getPackage(name)`: `package.json` (lines 49-71). */
  function GetPackage(name: string): string {
    Concat(PackageParts(name))
  }

  /** `getDockerFile(name)`: the `Dockerfile` (lines 73-104). */
  function GetDockerFile(name: string): string {
    Concat(DockerFileParts(name))
  }

  /** `getEnv(name)`: the `.env` file (lines 130-149). */
  function GetEnv(name: string): string {
    Concat(EnvParts(name))
  }

  /** The object `vsCode(name)` returns: the editor configuration files. */
  datatype VsCodeFiles = VsCodeFiles(extensions: string, launch: string, settings: string)

  /** `vsCode(name)` (lines 151-228). */
  function VsCode(name: string): VsCodeFiles {
    VsCodeFiles(
      extensions := Concat(ExtensionsParts()),
      launch := Concat(LaunchParts(name)),
      settings := Concat(SettingsParts()))
  }

  /** `getJestConfig()`: `jest.config.js` (lines 1-26); it takes no name. */
  function GetJestConfig(): string {
@"const {
  name
} = require('./package.json');

const {
  pathsToModuleNameMapper
} = require('ts-jest');

const {
  compilerOptions
} = require('../../tsconfig.json');

module.exports = {
  rootDir: 'src',
  displayName: name,
  name,
  preset: 'ts-jest',
  coveragePathIgnorePatterns: ['main.ts', 'swagger.ts', 'node_modules', 'module.ts', 'interface.ts'],
  setupFilesAfterEnv: ['../../../tests/common-initialization.js', '../tests/initialization.js'],
  moduleNameMapper: pathsToModuleNameMapper(compilerOptions.paths, {
    prefix: '<rootDir>/../../../',
  }),
};
"
  }


  /** `getTsconfigBuild()`: `tsconfig.build.json` (lines 28-34); it takes no name. */
  function GetTsconfigBuild(): string {
@"{
  ""extends"": ""../../tsconfig.json"",
  ""exclude"": [""node_modules"", ""dist"", ""**/*spec.ts""]
}
"
  }


  /** Part `k` of `getTsconfig(name)` (lines 37-46). */
  function TsconfigPart(name: string, k: int): string {
    match k
    case 0 => // 37-40
@"{
  ""extends"": ""../../tsconfig.json"",
  ""compilerOptions"": {
    ""declaration"": false,
"
    case 1 => "    " + ("\"outDir\": \"" + ("../../dist/apps/" + name) + "\"\n") // 41
    case 2 => // 42-45
@"},
  ""include"": [""src/**/*""],
  ""exclude"": [""node_modules"", ""dist""]
}
"
    case _ => ""
  }

  function TsconfigParts(name: string): seq<string> {
    seq(3, k => TsconfigPart(name, k))
  }

  /** Part `k` of `getPackage(name)` (lines 50-70). `\'` in the source renders as `'`. */
  function PackagePart(name: string, k: int): string {
    match k
    case 0 => // 50
@"{
"
    case 1 => "  " + ("\"name\": \"" + ("@app/" + name) + "\",\n") // 51
    case 2 => // 52
@"  ""version"": ""v0.0.1"",
"
    case 3 => "  " + ("\"description\": \"" + name + "\",\n") // 53
    case 4 => // 54-69
@"  ""author"": {
    ""name"": ""Marcio Sales"",
    ""email"": ""marcionsales@hotmail.com""
  },
  ""scripts"": {
    ""format"": ""../../tools/eslint/node_modules/.bin/prettier --write ''**/*.{ts, js, json}''"",
    ""test"": ""../../node_modules/jest/bin/jest.js --maxWorkers=50%"",
    ""lint"": ""yarn format && ../../tools/eslint/node_modules/.bin/eslint ''src/**/*.{ts, js, json}'' --fix""
  },
  ""engines"": {
    ""node"": "">=18 <=20""
  },
  ""license"": ""MIT"",
  ""dependencies"": {},
  ""devDependencies"": {}
}
"
    case _ => ""
  }

  function PackageParts(name: string): seq<string> {
    seq(5, k => PackagePart(name, k))
  }

  /** Part `k` of `getDockerFile(name)` (lines 74-103). */
  function DockerFilePart(name: string, k: int): string {
    match k
    case 0 => // 74-81
@"FROM node:20

ADD . /app

WORKDIR /app

RUN ls /app -al

"
    case 1 => "RUN yarn && yarn build " + ("@app/" + name) + "\n" // 82
    case 2 => // 83
@"
"
    case 3 => "COPY " + ("apps/" + name + "/package.json") + " " + ("dist/apps/" + name + "/") + "\n" // 84
    case 4 => "COPY " + ("apps/" + name + "/tsconfig.build.json") + " " + ("dist/apps/" + name + "/") + "\n" // 85
    case 5 => "COPY " + ("apps/" + name + "/tsconfig.json") + " " + ("dist/apps/" + name + "/") + "\n" // 86
    case 6 => // 87
@"
"
    case 7 => "EXPOSE 4000\n" // 88
    case 8 => // 89
@"
"
    case 9 => "RUN yarn --cwd " + ("dist/apps/" + name) + "\n" // 90
    case 10 => // 91-95
@"RUN yarn --cwd dist/apps/libs/auth
RUN yarn --cwd dist/apps/libs/core
RUN yarn --cwd dist/apps/libs/infra
RUN yarn --cwd dist/apps/libs/utils

"
    case 11 => "RUN ls " + ("dist/apps/" + name) + " -al\n" // 96
    case 12 => // 97-101
@"
RUN ls /app -al

RUN yarn

"
    case 13 => "CMD yarn --cwd apps " + ("start:" + name + ":prd") + "\n" // 102
    case _ => ""
  }

  function DockerFileParts(name: string): seq<string> {
    seq(14, k => DockerFilePart(name, k))
  }

  /** `getEslintIgonre()` (the source's spelling): `.eslintignore` (lines 106-114); it takes no name. */
  function GetEslintIgonre(): string {
@"# dependencies
node_modules

# git, vs config
.vscode
.gitignore
"
  }


  /** `getEslint()`: the ESLint configuration (lines 116-120); it takes no name. */
  function GetEslint(): string {
@"const config = require('@tools/eslint.config');

  module.exports = config;"
  }


  /** `getDockerignore()`: `.dockerignore` (lines 122-128); it takes no name. */
  function GetDockerignore(): string {
@"../*
  jest.config.js
  node_modules/
  tests/
"
  }


  /** Part `k` of `getEnv(name)` (lines 131-148). */
  function EnvPart(name: string, k: int): string {
    match k
    case 0 => // 131-132
@"
  HOST=http://localhost
"
    case 1 => "  " + ((UpperCase(name) + "_PORT=4000") + "\n") // 133
    case 2 => // 134-147
@"  ENV='DEV'

  # POSTGRES
  POSTGRES_HOST=localhost
  POSTGRES_PORT=5432
  POSTGRES_USER=admin
  POSTGRES_PASSWORD=admin
  #POSTGRES_DATABASE=nestjs-microservice
  POSTGRES_DATABASE=db

  # PGADMIN
  PGADMIN_URL=http://localhost:16543
  PGADMIN_DEFAULT_EMAIL=""pgadmin@gmail.com""
  PGADMIN_DEFAULT_PASSWORD=""admin""
"
    case _ => ""
  }

  function EnvParts(name: string): seq<string> {
    seq(3, k => EnvPart(name, k))
  }

  /** Part `k` of `vsCode(name).extensions` (lines 153-157), which does not use the name. */
  function ExtensionsPart(k: int): string {
    match k
    case 0 => // 153-157
@"{
  ""recommendations"": [
    ""firsttris.vscode-jest-runner""
  ]
}"
    case _ => ""
  }

  function ExtensionsParts(): seq<string> {
    seq(1, k => ExtensionsPart(k))
  }

  /** Part `k` of `vsCode(name).launch` (lines 158-195): the debugger configurations. */
  function LaunchPart(name: string, k: int): string {
    match k
    case 0 => // 158-161
@"{
  ""version"": ""0.2.0"",
  ""configurations"": [
    {
"
    case 1 => "      " + ("\"name\": \"App: " + ("@app/" + name) + "\",\n") // 162
    case 2 => // 163-167
@"      ""type"": ""node"",
      ""request"": ""launch"",
      ""localRoot"": ""##{workspaceFolder}/../../"",
      ""runtimeExecutable"": ""yarn"",
      ""runtimeArgs"": [
"
    case 3 => "        " + ("\"" + ("start:" + name + ":dev") + "\"\n") // 168
    case 4 => // 169-178
@"      ],
      ""console"": ""integratedTerminal"",
      ""smartStep"": true,
      ""sourceMaps"": true,
      ""remoteRoot"": ""##{workspaceFolder}/src"",
      ""skipFiles"": [
        ""<node_internals>/**""
      ]
    },
    {
"
    case 5 => "      " + ("\"name\": \"Test: " + ("@app/" + name) + "\",\n") // 179
    case 6 => // 180-195
@"      ""type"": ""node"",
      ""args"": [
        ""--runInBand"",
        ""--config=##{workspaceFolder}/jest.config.js""
      ],
      ""request"": ""launch"",
      ""console"": ""integratedTerminal"",
      ""runtimeExecutable"": ""yarn"",
      ""cwd"": ""##{workspaceFolder}"",
      ""runtimeArgs"": [
        ""test""
      ],
      ""sourceMaps"": true
    }
  ]
}"
    case _ => ""
  }

  function LaunchParts(name: string): seq<string> {
    seq(7, k => LaunchPart(name, k))
  }

  /** Part `k` of `vsCode(name).settings` (lines 196-226), which does not use the name. */
  function SettingsPart(k: int): string {
    match k
    case 0 => // 196-225
@"{
  ""editor.tabSize"": 2,
  ""editor.codeActionsOnSave"": {
    ""source.fixAll"": true
  },
  ""[typescript]"": {
    ""editor.codeActionsOnSave"": {
      ""source.fixAll"": true
    },
    ""editor.formatOnSave"": true
  },
  ""[javascript]"": {
    ""editor.codeActionsOnSave"": {
      ""source.fixAll"": true
    },
    ""editor.formatOnSave"": true
  },
  ""editor.formatOnSave"": true,
  ""eslint.validate"": [""javascript""],
  ""files.exclude"": {
    ""**/node_modules"": true,
    ""**/*dist*"": true,
    ""**/*coverage*"": true,
    ""**/*node_modules"": true,
    ""**/*package-lock.json*"": true,
    ""**/*yarn.lock*"": true
  },
  ""javascript.format.insertSpaceAfterOpeningAndBeforeClosingEmptyBraces"": false,
  ""typescript.format.insertSpaceAfterOpeningAndBeforeClosingEmptyBraces"": false
}
"
    case _ => ""
  }

  function SettingsParts(): seq<string> {
    seq(1, k => SettingsPart(k))
  }
}
