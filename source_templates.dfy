/**
 * The generator of `src/scaffold/app/src.js`: for an entity name, the text of
 * every source file of a new NestJS application.
 *
 * Each file is a JavaScript template literal. It is modelled as a numbered
 * list of parts whose concatenation is the file: runs of lines that do not
 * mention the name are verbatim parts, and every line that interpolates the
 * name is a part of its own, written as a string expression over
 * `name`, `UpperCase(name)` (`name.toUpperCase()`) or the class-name stem
 * `TitleCase(name)` (`Fname`).
 *
 * `CapitalizeFirstLetter` (lines 1-3) is defined by the source but called by
 * none of these functions.
 */
module SourceTemplates {
  import opened CaseMap
  import opened Template

  /** `getMain(name)`: `main.ts`, the entry point of the generated application (lines 5-122). */
  function GetMain(name: string): string {
    Concat(MainParts(name))
  }

  /** `getSourceModule(name)`: the root module `modules/module.ts` (lines 125-147). */
  function GetSourceModule(name: string): string {
    Concat(SourceModuleParts(name))
  }

  /** The object `health(name)` returns: the files of the health-check module. */
  datatype HealthFiles = HealthFiles(
    adapter: string, controller: string, module_: string, service: string, swagger: string)

  /** `health(name)` (lines 149-229). */
  function Health(name: string): HealthFiles {
    HealthFiles(
      adapter := Concat(HealthAdapterParts()),
      controller := Concat(HealthControllerParts()),
      module_ := Concat(HealthModuleParts()),
      service := Concat(HealthServiceParts(name)),
      swagger := Concat(HealthSwaggerParts(name)))
  }

  /** The object `healthTests(name)` returns: the tests of the health-check module. */
  datatype HealthTestFiles = HealthTestFiles(controller: string, module_: string, service: string)

  /** `healthTests(name)` (lines 231-335). */
  function HealthTests(name: string): HealthTestFiles {
    HealthTestFiles(
      controller := Concat(HealthTestsControllerParts(name)),
      module_ := Concat(HealthTestsModuleParts()),
      service := Concat(HealthTestsServiceParts(name)))
  }

  /** The object `app(name)` returns: the files of the CRUD feature module. */
  datatype CrudFiles = CrudFiles(
    adapter: string, controller: string, module_: string, repository: string, swagger: string)

  /**
   * `app(name)` (lines 337-662). The class-name stem `Fname` is computed once
   * (line 338) and shared by all five files, each a function of the stem and
   * the raw name.
   */
  function App(name: string): CrudFiles {
    var fname := TitleCase(name);
    CrudFiles(
      adapter := AdapterText(fname, name),
      controller := ControllerText(fname, name),
      module_ := ModuleText(fname, name),
      repository := RepositoryText(fname, name),
      swagger := SwaggerText(fname, name))
  }

  /** `app(name).adapter` for the stem `fname` (lines 340-368). */
  function AdapterText(fname: string, name: string): string {
    Concat(AdapterParts(fname, name))
  }

  /** `app(name).controller` for the stem `fname` (lines 369-458). */
  function ControllerText(fname: string, name: string): string {
    Concat(ControllerParts(fname, name))
  }

  /** `app(name).module` for the stem `fname` (lines 459-532). */
  function ModuleText(fname: string, name: string): string {
    Concat(ModuleParts(fname, name))
  }

  /** `app(name).repository` for the stem `fname` (lines 533-576). */
  function RepositoryText(fname: string, name: string): string {
    Concat(RepositoryParts(fname, name))
  }

  /** `app(name).swagger` for the stem `fname` (lines 577-659). */
  function SwaggerText(fname: string, name: string): string {
    Concat(SwaggerParts(fname, name))
  }

  /** Part `k` of `getMain(name)` (lines 6-121): name-free runs of lines verbatim, name-dependent lines as expressions. */
  function MainPart(name: string, k: int): string {
    match k
    case 0 => // 6-10
@"import 'libs/utils/tracing';

import { HttpStatus, ValidationPipe, VersioningType } from '@nestjs/common';
import { NestFactory } from '@nestjs/core';
import { DocumentBuilder, SwaggerModule } from '@nestjs/swagger';
"
    case 1 => "import { description, name, version } from '" + ("apps/" + name + "/package.json") + "';\n" // 11
    case 2 => // 12-56
@"import bodyParser from 'body-parser';
import { bold } from 'colorette';
import { rateLimit } from 'express-rate-limit';
import helmet from 'helmet';
import { ILoggerAdapter } from 'libs/infra/logger/adapter';
import { ISecretsAdapter } from 'libs/infra/secrets';
import { ApiInternalServerException } from 'libs/utils/exception';
import { AppExceptionFilter } from 'libs/utils/filters/http-exception.filter';
import { ExceptionInterceptor } from 'libs/utils/interceptors/http-exception.interceptor';
import { HttpLoggerInterceptor } from 'libs/utils/interceptors/http-logger.interceptor';
import { MetricsInterceptor } from 'libs/utils/interceptors/metrics.interceptor';
import { TracingInterceptor } from 'libs/utils/interceptors/tracing.interceptor';

import { MainModule } from './modules/module';

async function bootstrap() {
  const app = await NestFactory.create(MainModule, {
    bufferLogs: true,
    cors: true,
  });

  app.useGlobalPipes(
    new ValidationPipe({
      errorHttpStatusCode: HttpStatus.PRECONDITION_FAILED,
    }),
  );

  const loggerService = app.get(ILoggerAdapter);

  loggerService.setApplication(name);

  app.useLogger(loggerService);

  app.useGlobalFilters(new AppExceptionFilter(loggerService));

  app.useGlobalInterceptors(
    new ExceptionInterceptor(loggerService),
    new HttpLoggerInterceptor(loggerService),
    new TracingInterceptor(loggerService),
    new MetricsInterceptor()
  );

  app.use(helmet());

  const {
"
    case 3 => "    " + (UpperCase(name) + ": { PORT, HOST },\n") // 57
    case 4 => // 58-82
@"    ENV,
    MONGO_URL,
    POSTGRES_URL,
    ZIPKIN_URL,
    PROMETHUES_URL,
    RATE_LIMIT_BY_USER,
    PGADMIN_URL,
    MONGO_EXPRESS_URL,
    RABBITMQ_URL
  } = app.get(ISecretsAdapter);

  const MINUTES = 15 * 60 * 1000;
  const limiter = rateLimit({
    windowMs: MINUTES,
    limit: RATE_LIMIT_BY_USER,
    standardHeaders: 'draft-7',
    legacyHeaders: false
  });

  app.use(limiter);

  app.use(bodyParser.urlencoded({ extended: true }));

  app.enableVersioning({ type: VersioningType.URI });

"
    case 5 => "  " + ("app.setGlobalPrefix('" + name + "');\n") // 83
    case 6 => // 84-120
@"
  process.on('uncaughtException', (error) => {
    loggerService.error(new ApiInternalServerException(error.message));
  });

  process.on('unhandledRejection', (error) => {
    loggerService.error(new ApiInternalServerException(error['message'] ?? (error as string)));
  });

  const config = new DocumentBuilder()
    .setTitle(name)
    .setDescription(description)
    .addBearerAuth()
    .setVersion(version)
    .addServer(HOST)
    .addTag('Swagger Documentation')
    .build();

  const document = SwaggerModule.createDocument(app, config);
  SwaggerModule.setup('docs', app, document);

  await app.listen(PORT, () => {
    loggerService.log(''Application Successfully Started'');
    loggerService.log(''🟢 ##{name} listening at ##{bold(PORT)} on ##{bold(ENV?.toUpperCase())} 🟢'');
    loggerService.log(''🟢 Swagger listening at {bold('##{HOST}/docs')} 🟢'');
  });

  loggerService.log(''🔵 Postgres listening at ##{bold(POSTGRES_URL)}'');
  loggerService.log(''🔶 PgAdmin listening at ##{bold(PGADMIN_URL)}'');
  loggerService.log(''🔵 Mongo listening at ##{bold(MONGO_URL)}'');
  loggerService.log(''🔶 Mongo express listening at ##{bold(MONGO_EXPRESS_URL)}'');
  loggerService.log(''⚪ Zipkin[##{bold('Tracing')}] listening at ##{bold(ZIPKIN_URL)}'');
  loggerService.log(''⚪ Promethues[##{bold('Metrics')}] listening at ##{bold(PROMETHUES_URL)}'');
  loggerService.log(''🔵 RabbitMQ listening at ##{bold(RABBITMQ_URL)}'');

}
bootstrap();
"
    case _ => ""
  }

  function MainParts(name: string): seq<string> {
    seq(7, k => MainPart(name, k))
  }

  /** Part `k` of `getSourceModule(name)` (lines 126-146), which computes the class-name stem inline. */
  function SourceModulePart(name: string, k: int): string {
    match k
    case 0 => // 126-131
@"import { Module } from '@nestjs/common';
import { APP_GUARD } from '@nestjs/core';
import { TokenModule } from 'libs/auth';
import { InfraModule } from 'libs/infra/module';
import { RolesGuardInterceptor } from 'libs/utils/interceptors/auth-guard.interceptor';

"
    case 1 => "import { HealthModule } from './health/module';\n" // 132
    case 2 => "import { " + (TitleCase(name) + "Module") + " } from '" + ("./" + name + "/module") + "';\n" // 133
    case 3 => // 134-141
@"
@Module({
  providers: [
    {
      provide: APP_GUARD,
      useClass: RolesGuardInterceptor
    }
  ],
"
    case 4 => "  " + ("imports: [" + (TitleCase(name) + "Module") + ", HealthModule, InfraModule, TokenModule]\n") // 142
    case 5 => // 143-146
@"})
export class MainModule {}

  "
    case _ => ""
  }

  function SourceModuleParts(name: string): seq<string> {
    seq(6, k => SourceModulePart(name, k))
  }

  /** Part `k` of `health(name).adapter` (lines 151-154), which does not use the name. */
  function HealthAdapterPart(k: int): string {
    match k
    case 0 => "export abstract class IHealthService {\n" // 151
    case 1 => // 152-153
@"  abstract getText(): Promise<string>;
}
"
    case _ => ""
  }

  function HealthAdapterParts(): seq<string> {
    seq(2, k => HealthAdapterPart(k))
  }

  /** Part `k` of `health(name).controller` (lines 155-173), which does not use the name. */
  function HealthControllerPart(k: int): string {
    match k
    case 0 => // 155-157
@"import { Controller, Get } from '@nestjs/common';
import { ApiResponse, ApiTags } from '@nestjs/swagger';

"
    case 1 => "import { IHealthService } from './adapter';\n" // 158
    case 2 => // 159-162
@"import { SwagggerResponse } from './swagger';

@Controller()
@ApiTags('health')
"
    case 3 => "export class HealthController {\n" // 163
    case 4 => "  " + "constructor(private readonly healthService: IHealthService) {}\n" // 164
    case 5 => // 165-172
@"
  @Get('/health')
  @ApiResponse(SwagggerResponse.getHealth[200])
  @ApiResponse(SwagggerResponse.getHealth[500])
  async getHealth(): Promise<string> {
    return this.healthService.getText();
  }
}
"
    case _ => ""
  }

  function HealthControllerParts(): seq<string> {
    seq(6, k => HealthControllerPart(k))
  }

  /** Part `k` of `health(name).module` (lines 174-192), which does not use the name. */
  function HealthModulePart(k: int): string {
    match k
    case 0 => // 174-176
@"import { Module } from '@nestjs/common';
import { LoggerModule } from 'libs/infra/logger/module';

"
    case 1 => "import { IHealthService } from './adapter';\n" // 177
    case 2 => "import { HealthController } from './controller';\n" // 178
    case 3 => "import { HealthService } from './service';\n" // 179
    case 4 => // 180-182
@"
@Module({
  imports: [LoggerModule],
"
    case 5 => "  " + "controllers: [HealthController],\n" // 183
    case 6 => // 184-185
@"  providers: [
    {
"
    case 7 => "      " + "provide: IHealthService,\n" // 186
    case 8 => "      " + "useClass: HealthService,\n" // 187
    case 9 => // 188-190
@"    },
  ],
})
"
    case 10 => "export class HealthModule {}\n" // 191
    case _ => ""
  }

  function HealthModuleParts(): seq<string> {
    seq(11, k => HealthModulePart(k))
  }

  /** Part `k` of `health(name).service` (lines 193-210). */
  function HealthServicePart(name: string, k: int): string {
    match k
    case 0 => // 193
@"import { Injectable } from '@nestjs/common';
"
    case 1 => "import { name, version } from '" + ("apps/" + name + "/package.json") + "';\n" // 194
    case 2 => // 195-196
@"import { ILoggerAdapter } from 'libs/infra/logger/adapter';

"
    case 3 => "import { IHealthService } from './adapter';\n" // 197
    case 4 => // 198-199
@"
@Injectable()
"
    case 5 => "export class HealthService implements IHealthService {\n" // 200
    case 6 => // 201-209
@"  constructor(private readonly loggerService: ILoggerAdapter) {}

  async getText(): Promise<string> {
    const appName = ''##{name}-##{version} UP!!'';
    this.loggerService.info({ message: appName, context: ''HealthService/getText'' });

    return appName;
  }
}
"
    case _ => ""
  }

  function HealthServiceParts(name: string): seq<string> {
    seq(7, k => HealthServicePart(name, k))
  }

  /** Part `k` of `health(name).swagger` (lines 211-227). */
  function HealthSwaggerPart(name: string, k: int): string {
    match k
    case 0 => "import { name } from '" + ("apps/" + name + "/package.json") + "';\n" // 211
    case 1 => // 212-226
@"import { Swagger } from 'libs/utils/documentation/swagger';

export const SwagggerResponse = {
  getHealth: {
    200: Swagger.defaultResponseText({ status: 200, text: ''##{name} UP!!'' }),
    500: Swagger.defaultResponseError({
      status: 500,
      route: '/health',
    }),
  },
};

export const SwagggerRequest = {
  /** If requesters has a body.  */
};
"
    case _ => ""
  }

  function HealthSwaggerParts(name: string): seq<string> {
    seq(2, k => HealthSwaggerPart(name, k))
  }

  /** Part `k` of `healthTests(name).controller` (lines 233-282). */
  function HealthTestsControllerPart(name: string, k: int): string {
    match k
    case 0 => // 233-238
@"import { INestApplication } from '@nestjs/common';
import { Test, TestingModule } from '@nestjs/testing';
import { ILoggerAdapter } from 'libs/infra/logger/adapter';
import { ApiInternalServerException } from 'libs/utils/exception';
import request from 'supertest';

"
    case 1 => "import { name, version } from '" + ("apps/" + name + "/package.json") + "';\n" // 239
    case 2 => // 240-281
@"import { IHealthService } from '../adapter';
import { HealthController } from '../controller';
import { HealthService } from '../service';

describe('HealthController (e2e)', () => {
  let app: INestApplication;
  let service: IHealthService;

  beforeEach(async () => {
    const module: TestingModule = await Test.createTestingModule({
      controllers: [HealthController],
      providers: [
        {
          provide: IHealthService,
          useFactory: () => new HealthService({ info: jest.fn() } as unknown as ILoggerAdapter),
        },
      ],
      imports: [],
    }).compile();

    app = module.createNestApplication();
    service = module.get(IHealthService);
    await app.init();
  });

  describe('/health (GET)', () => {
    const text = ''##{name}-##{version} UP!!'';

    it(''should return ##{text}'', async () => {
      return request(app.getHttpServer()).get('/health').expect(text);
    });

    it(''should getHealth with throw statusCode 500'', async () => {
      service.getText = jest.fn().mockRejectedValue(new ApiException('Error'));
      return request(app.getHttpServer()).get('/health').expect({ statusCode: 500, message: 'Error' });
    });
  });

  afterAll(async () => {
    await app.close();
  });
});
"
    case _ => ""
  }

  function HealthTestsControllerParts(name: string): seq<string> {
    seq(3, k => HealthTestsControllerPart(name, k))
  }

  /** Part `k` of `healthTests(name).module` (lines 283-302), which does not use the name. */
  function HealthTestsModulePart(k: int): string {
    match k
    case 0 => // 283-301
@"import { Test, TestingModule } from '@nestjs/testing';

import { HealthModule } from '../module';

describe('HealthModule', () => {
  let healthModule: HealthModule;

  beforeEach(async () => {
    const app: TestingModule = await Test.createTestingModule({
      providers: [HealthModule]
    }).compile();

    healthModule = app.get<HealthModule>(HealthModule);
  });

  it('should be defined', () => {
    expect(healthModule).toBeInstanceOf(HealthModule);
  });
});
"
    case _ => ""
  }

  function HealthTestsModuleParts(): seq<string> {
    seq(1, k => HealthTestsModulePart(k))
  }

  /** Part `k` of `healthTests(name).service` (lines 303-333). */
  function HealthTestsServicePart(name: string, k: int): string {
    match k
    case 0 => // 303-305
@"import { Test } from '@nestjs/testing';
import { ILoggerAdapter } from 'libs/infra/logger/adapter';

"
    case 1 => "import { name, version } from '" + ("apps/" + name + "/package.json") + "';\n" // 306
    case 2 => // 307-332
@"import { IHealthService } from '../adapter';
import { HealthService } from '../service';

describe('HealthService', () => {
  let healthService: IHealthService;

  beforeEach(async () => {
    const app = await Test.createTestingModule({
      imports: [],
      providers: [
        {
          provide: IHealthService,
          useFactory: () => new HealthService({ info: jest.fn() } as unknown as ILoggerAdapter),
        },
      ],
    }).compile();

    healthService = app.get(IHealthService);
  });

  describe('getText', () => {
    test('should getText successfully', async () => {
      await expect(healthService.getText()).resolves.toEqual(''##{name}-##{version} UP!!'');
    });
  });
});
"
    case _ => ""
  }

  function HealthTestsServiceParts(name: string): seq<string> {
    seq(3, k => HealthTestsServicePart(name, k))
  }

  /** Part `k` of `app(name).adapter` (lines 340-368): the five use-case ports. */
  function AdapterPart(fname: string, name: string, k: int): string {
    match k
    case 0 => // 340-341
@"import { ApiTrancingInput } from 'libs/utils/request';

"
    case 1 => "  " + ("import { " + (fname + "CreateInput") + ", " + (fname + "CreateOutput") + " } from '" + ("../../core/use-cases/" + name + "-create") + "';\n") // 342
    case 2 => "  " + ("import { " + (fname + "DeleteInput") + ", " + (fname + "DeleteOutput") + " } from '" + ("../../core/use-cases/" + name + "-delete") + "';\n") // 343
    case 3 => "  " + ("import { " + (fname + "GetByIDInput") + ", " + (fname + "GetByIDOutput") + " } from '" + ("../../core/use-cases/" + name + "-getByID") + "';\n") // 344
    case 4 => "  " + ("import { " + (fname + "ListInput") + ", " + (fname + "ListOutput") + " } from '" + ("../../core/use-cases/" + name + "-list") + "';\n") // 345
    case 5 => "  " + ("import { " + (fname + "UpdateInput") + ", " + (fname + "UpdateOutput") + " } from '" + ("../../core/use-cases/" + name + "-update") + "';\n") // 346
    case 6 => // 347
@"  
"
    case 7 => "  " + ("export abstract class " + ("I" + fname + "CreateAdapter") + " {\n") // 348
    case 8 => "    " + ("abstract execute(input: " + (fname + "CreateInput") + ", trace: ApiTrancingInput): Promise<" + (fname + "CreateOutput") + ">;\n") // 349
    case 9 => // 350-351
@"  }
  
"
    case 10 => "  " + ("export abstract class " + ("I" + fname + "UpdateAdapter") + " {\n") // 352
    case 11 => "    " + ("abstract execute(input: " + (fname + "UpdateInput") + ", trace: ApiTrancingInput): Promise<" + (fname + "UpdateOutput") + ">;\n") // 353
    case 12 => // 354-355
@"  }
  
"
    case 13 => "  " + ("export abstract class " + ("I" + fname + "GetByIDAdapter") + " {\n") // 356
    case 14 => "    " + ("abstract execute(input: " + (fname + "GetByIDInput") + "): Promise<" + (fname + "GetByIDOutput") + ">;\n") // 357
    case 15 => // 358-359
@"  }
  
"
    case 16 => "  " + ("export abstract class " + ("I" + fname + "ListAdapter") + " {\n") // 360
    case 17 => "    " + ("abstract execute(input: " + (fname + "ListInput") + "): Promise<" + (fname + "ListOutput") + ">;\n") // 361
    case 18 => // 362-363
@"  }
  
"
    case 19 => "  " + ("export abstract class " + ("I" + fname + "DeleteAdapter") + " {\n") // 364
    case 20 => "    " + ("abstract execute(input: " + (fname + "DeleteInput") + ", trace: ApiTrancingInput): Promise<" + (fname + "DeleteOutput") + ">;\n") // 365
    case 21 => // 366-367
@"  }
    
"
    case _ => ""
  }

  function AdapterParts(fname: string, name: string): seq<string> {
    seq(22, k => AdapterPart(fname, name, k))
  }

  /** Part `k` of `app(name).controller` (lines 369-458): the HTTP controller. */
  function ControllerPart(fname: string, name: string, k: int): string {
    match k
    case 0 => // 369-376
@"import { Controller, Delete, Get, Post, Put, Req, Version } from '@nestjs/common';
  import { ApiBearerAuth, ApiBody, ApiParam, ApiQuery, ApiResponse, ApiTags } from '@nestjs/swagger';
  import { UserRole } from 'libs/core/user/entity/user';
  import { Roles } from 'libs/utils/decorators/role.decorator';
  import { ApiRequest } from 'libs/utils/request';
  import { SearchHttpSchema } from 'libs/utils/search';
  import { SortHttpSchema } from 'libs/utils/sort';
  
"
    case 1 => "  " + ("import { " + (fname + "CreateInput") + ", " + (fname + "CreateOutput") + " } from '" + ("../../core/use-cases/" + name + "create") + "';\n") // 377
    case 2 => "  " + ("import { " + (fname + "DeleteInput") + ", " + (fname + "DeleteOutput") + " } from '" + ("../../core/use-cases/" + name + "delete") + "';\n") // 378
    case 3 => "  " + ("import { " + (fname + "GetByIDInput") + ", " + (fname + "GetByIDOutput") + " } from '" + ("../../core/use-cases/" + name + "getByID") + "';\n") // 379
    case 4 => "  " + ("import { " + (fname + "ListInput") + ", " + (fname + "ListOutput") + " } from '" + ("../../core/use-cases/" + name + "list") + "';\n") // 380
    case 5 => "  " + ("import { " + (fname + "UpdateInput") + ", " + (fname + "UpdateOutput") + " } from '" + ("../../core/use-cases/" + name + "update") + "';\n") // 381
    case 6 => // 382-388
      ("  " + "import {\n")
      + ("    " + (("I" + fname + "CreateAdapter") + ",\n"))
      + ("    " + (("I" + fname + "DeleteAdapter") + ",\n"))
      + ("    " + (("I" + fname + "GetByIDAdapter") + ",\n"))
      + ("    " + (("I" + fname + "ListAdapter") + ",\n"))
      + ("    " + (("I" + fname + "UpdateAdapter") + "\n"))
      + ("  " + "} from './adapter';\n")
    case 7 => // 389-391
@"  import { SwagggerRequest, SwagggerResponse } from './swagger';
  
  @Controller()
"
    case 8 => "  " + ("@ApiTags('" + name + "')\n") // 392
    case 9 => // 393-394
@"  @ApiBearerAuth()
  @Roles(UserRole.USER)
"
    case 10 => "  " + ("export class " + (fname + "Controller") + " {\n") // 395
    case 11 => // 396
@"    constructor(
"
    case 12 => "      " + ("private readonly " + (name + "Create") + ": " + (fname + "CreateAdapter") + ",\n") // 397
    case 13 => "      " + ("private readonly " + (name + "Update") + ": " + (fname + "UpdateAdapter") + ",\n") // 398
    case 14 => "      " + ("private readonly " + (name + "GetByID") + ": " + (fname + "GetByIDAdapter") + ",\n") // 399
    case 15 => "      " + ("private readonly " + (name + "List") + ": " + (fname + "ListAdapter") + ",\n") // 400
    case 16 => "      " + ("private readonly " + (name + "Delete") + ": " + (fname + "DeleteAdapter") + "\n") // 401
    case 17 => // 402-406
@"    ) {}
  
    @Post()
    @ApiResponse(SwagggerResponse.create[200])
    @ApiBody(SwagggerRequest.createBody)
"
    case 18 => "    " + "@Version('1')\n" // 407
    case 19 => "    " + ("async create(@Req() { body, user, tracing }: ApiRequest): Promise<" + (fname + "CreateOutput") + "> {\n") // 408
    case 20 => "      " + ("return await " + ("this." + name + "Create.execute") + "(body as " + (fname + "CreateInput") + ", { user, tracing });\n") // 409
    case 21 => // 410-415
@"    }
  
    @Put()
    @ApiResponse(SwagggerResponse.update[200])
    @ApiResponse(SwagggerResponse.update[404])
    @ApiBody(SwagggerRequest.updateBody)
"
    case 22 => "    " + "@Version('1')\n" // 416
    case 23 => "    " + ("async update(@Req() { body, user, tracing }: ApiRequest): Promise<" + (fname + "UpdateOutput") + "> {\n") // 417
    case 24 => "      " + ("return await " + ("this." + name + "Update.execute") + "(body as " + (fname + "UpdateInput") + ", { user, tracing });\n") // 418
    case 25 => // 419-424
@"    }
  
    @Get('/:id')
    @ApiParam({ name: 'id', required: true })
    @ApiResponse(SwagggerResponse.getByID[200])
    @ApiResponse(SwagggerResponse.getByID[404])
"
    case 26 => "    " + "@Version('1')\n" // 425
    case 27 => "    " + ("async getById(@Req() { params }: ApiRequest): Promise<" + (fname + "GetByIDOutput") + "> {\n") // 426
    case 28 => "      " + ("return await " + ("this." + name + "GetByID.execute") + "(params as " + (fname + "GetByIDInput") + ");\n") // 427
    case 29 => // 428-435
@"    }
  
    @Get()
    @ApiQuery(SwagggerRequest.listQuery.pagination.limit)
    @ApiQuery(SwagggerRequest.listQuery.pagination.page)
    @ApiQuery(SwagggerRequest.listQuery.sort)
    @ApiQuery(SwagggerRequest.listQuery.search)
    @ApiResponse(SwagggerResponse.list[200])
"
    case 30 => "    " + "@Version('1')\n" // 436
    case 31 => "    " + ("async list(@Req() { query }: ApiRequest): Promise<" + (fname + "ListOutput") + "> {\n") // 437
    case 32 => "      " + ("const input: " + (fname + "ListInput") + " = {\n") // 438
    case 33 => // 439-444
@"        sort: SortHttpSchema.parse(query.sort),
        search: SearchHttpSchema.parse(query.search),
        limit: Number(query.limit),
        page: Number(query.page)
      };
  
"
    case 34 => "      " + ("return await " + ("this." + name + "List.execute") + "(input);\n") // 445
    case 35 => // 446-451
@"    }
  
    @Delete('/:id')
    @ApiParam({ name: 'id', required: true })
    @ApiResponse(SwagggerResponse.delete[200])
    @ApiResponse(SwagggerResponse.delete[404])
"
    case 36 => "    " + "@Version('1')\n" // 452
    case 37 => "    " + ("async delete(@Req() { params, user, tracing }: ApiRequest): Promise<" + (fname + "DeleteOutput") + "> {\n") // 453
    case 38 => "      " + ("return await " + ("this." + name + "Delete.execute") + "(params as " + (fname + "DeleteInput") + ", { user, tracing });\n") // 454
    case 39 => // 455-457
@"    }
  }
    
"
    case _ => ""
  }

  function ControllerParts(fname: string, name: string): seq<string> {
    seq(40, k => ControllerPart(fname, name, k))
  }

  /** Part `k` of `app(name).module` (lines 459-532): the dependency-injection wiring. */
  function ModulePart(fname: string, name: string, k: int): string {
    match k
    case 0 => // 459-463
@"import { MiddlewareConsumer, Module, NestModule } from '@nestjs/common';
import { TokenModule } from 'libs/auth';
import { RedisCacheModule } from 'libs/infra/cache/redis';
import { IDataBaseAdapter } from 'libs/infra/database';
import { PostgresDatabaseModule } from 'libs/infra/database/postgres/module';
"
    case 1 => "import { " + (fname + "Schema") + " } from '" + ("libs/infra/database/postgres/schemas/" + name) + "';\n" // 464
    case 2 => // 465-468
@"import { ILoggerAdapter, LoggerModule } from 'libs/infra/logger';
import { IsLoggedMiddleware } from 'libs/utils/middlewares/is-logged.middleware';
import { ModelCtor, Sequelize } from 'sequelize-typescript';

"
    case 3 => "import { " + (fname + "Entity") + " } from '" + ("../../core/entity/" + name) + "';\n" // 469
    case 4 => "import { " + ("I" + fname + "Repository") + " } from '" + ("../../core/repository/" + name) + "';\n" // 470
    case 5 => "import { " + (fname + "CreateUsecase") + " } from '" + ("../../core/use-cases/" + name + "-create") + "';\n" // 471
    case 6 => "import { " + (fname + "DeleteUsecase") + " } from '" + ("../../core/use-cases/" + name + "-delete") + "';\n" // 472
    case 7 => "import { " + (fname + "GetByIdUsecase") + " } from '" + ("../../core/use-cases/" + name + "-getByID") + "';\n" // 473
    case 8 => "import { " + (fname + "ListUsecase") + " } from '" + ("../../core/use-cases/" + name + "-list") + "';\n" // 474
    case 9 => "import { " + (fname + "UpdateUsecase") + " } from '" + ("../../core/use-cases/" + name + "-update") + "';\n" // 475
    case 10 => // 476-482
      "import {\n"
      + ("  " + (("I" + fname + "CreateAdapter") + ",\n"))
      + ("  " + (("I" + fname + "DeleteAdapter") + ",\n"))
      + ("  " + (("I" + fname + "GetByIDAdapter") + ",\n"))
      + ("  " + (("I" + fname + "ListAdapter") + ",\n"))
      + ("  " + (("I" + fname + "UpdateAdapter") + "\n"))
      + "} from './adapter';\n"
    case 11 => "import { " + (fname + "Controller") + " } from './controller';\n" // 483
    case 12 => "import { " + (fname + "Repository") + " } from './repository';\n" // 484
    case 13 => // 485-487
@"
@Module({
  imports: [TokenModule, LoggerModule, RedisCacheModule, PostgresDatabaseModule],
"
    case 14 => "  " + ("controllers: [" + (fname + "Controller") + "],\n") // 488
    case 15 => // 489-490
@"  providers: [
    {
"
    case 16 => "      " + ("provide: " + ("I" + fname + "Repository") + ",\n") // 491
    case 17 => // 492
@"      useFactory: (database: IDataBaseAdapter) => {
"
    case 18 => "        " + ("const repossitory = database.getDatabase<Sequelize>().model(" + (fname + "Schema") + ");\n") // 493
    case 19 => "        " + ("return new " + (fname + "Repository") + "(repossitory as ModelCtor<" + (fname + "Schema") + "> & " + (fname + "Entity") + ");\n") // 494
    case 20 => // 495-498
@"      },
      inject: [IDataBaseAdapter]
    },
    {
"
    case 21 => "      " + ("provide: " + ("I" + fname + "CreateAdapter") + ",\n") // 499
    case 22 => "      " + ("useFactory: (repository: " + ("I" + fname + "Repository") + ") => new " + (fname + "CreateUsecase") + "(repository),\n") // 500
    case 23 => "      " + ("inject: [" + ("I" + fname + "Repository") + "]\n") // 501
    case 24 => // 502-503
@"    },
    {
"
    case 25 => "      " + ("provide: " + ("I" + fname + "UpdateAdapter") + ",\n") // 504
    case 26 => "      " + ("useFactory: (logger: ILoggerAdapter, repository: " + ("I" + fname + "Repository") + ") => new " + (fname + "UpdateUsecase") + "(repository, logger),\n") // 505
    case 27 => "      " + ("inject: [ILoggerAdapter, " + ("I" + fname + "Repository") + "]\n") // 506
    case 28 => // 507-508
@"    },
    {
"
    case 29 => "      " + ("provide: " + ("I" + fname + "GetByIDAdapter") + ",\n") // 509
    case 30 => "      " + ("useFactory: (repository: " + ("I" + fname + "Repository") + ") => new " + (fname + "GetByIdUsecase") + "(repository),\n") // 510
    case 31 => "      " + ("inject: [" + ("I" + fname + "Repository") + "]\n") // 511
    case 32 => // 512-513
@"    },
    {
"
    case 33 => "      " + ("provide: " + ("I" + fname + "ListAdapter") + ",\n") // 514
    case 34 => "      " + ("useFactory: (repository: " + ("I" + fname + "Repository") + ") => new " + (fname + "ListUsecase") + "(repository),\n") // 515
    case 35 => "      " + ("inject: [" + ("I" + fname + "Repository") + "]\n") // 516
    case 36 => // 517-518
@"    },
    {
"
    case 37 => "      " + ("provide: " + ("I" + fname + "DeleteAdapter") + ",\n") // 519
    case 38 => "      " + ("useFactory: (repository: " + ("I" + fname + "Repository") + ") => new " + (fname + "DeleteUsecase") + "(repository),\n") // 520
    case 39 => "      " + ("inject: [" + ("I" + fname + "Repository") + "]\n") // 521
    case 40 => // 522-525
@"    }
  ],
  exports: []
})
"
    case 41 => "export class " + (fname + "Module") + " implements NestModule {\n" // 526
    case 42 => // 527
@"  configure(consumer: MiddlewareConsumer) {
"
    case 43 => "    " + ("consumer.apply(IsLoggedMiddleware).forRoutes(" + (fname + "Controller") + ");\n") // 528
    case 44 => // 529-531
@"  }
}

"
    case _ => ""
  }

  function ModuleParts(fname: string, name: string): seq<string> {
    seq(45, k => ModulePart(fname, name, k))
  }

  /** Part `k` of `app(name).repository` (lines 533-576): the Sequelize repository. */
  function RepositoryPart(fname: string, name: string, k: int): string {
    match k
    case 0 => // 533
@"import { Injectable } from '@nestjs/common';
"
    case 1 => "import { " + (fname + "Schema") + " } from '" + ("libs/infra/database/postgres/schemas/" + name) + "';\n" // 534
    case 2 => // 535-542
@"import { SequelizeRepository } from 'libs/infra/repository/postgres/repository';
import { DatabaseOptionsSchema, DatabaseOptionsType } from 'libs/utils/database/sequelize';
import { ConvertPaginateInputToSequelizeFilter } from 'libs/utils/decorators/database/postgres/convert-paginate-input-to-sequelize-filter.decorator';
import { ValidateDatabaseSortAllowed } from 'libs/utils/decorators/database/validate-database-sort-allowed.decorator';
import { SearchTypeEnum } from 'libs/utils/decorators/types';
import { Transaction } from 'sequelize';
import { ModelCtor } from 'sequelize-typescript';

"
    case 3 => "import { " + (fname + "Entity") + " } from '" + ("../../core/entity/" + name) + "';\n" // 543
    case 4 => "import { " + ("I" + fname + "Repository") + " } from '" + ("../../core/repository/" + name) + "';\n" // 544
    case 5 => "import { " + (fname + "ListInput") + ", " + (fname + "ListOutput") + " } from '" + ("../../core/use-cases/" + name + "-list") + "';\n" // 545
    case 6 => // 546
@"
"
    case 7 => "type Model = ModelCtor<" + (fname + "Schema") + "> & " + (fname + "Entity") + ";\n" // 547
    case 8 => // 548-549
@"
@Injectable()
"
    case 9 => "export class " + (fname + "Repository") + " extends SequelizeRepository<Model> implements " + ("I" + fname + "Repository") + " {\n" // 550
    case 10 => // 551-560
@"  constructor(readonly repository: Model) {
    super(repository);
  }

  async startSession<TTransaction = Transaction>(): Promise<TTransaction> {
    const transaction = await this.repository.sequelize.transaction();

    return transaction as TTransaction;
  }

"
    case 11 => "  " + ("@ValidateDatabaseSortAllowed<" + (fname + "Entity") + ">('createdAt', 'breed')\n") // 561
    case 12 => "  " + ("@ConvertPaginateInputToSequelizeFilter<" + (fname + "Entity") + ">([\n") // 562
    case 13 => // 563-566
@"    { name: 'name', type: SearchTypeEnum.like },
    { name: 'breed', type: SearchTypeEnum.like },
    { name: 'age', type: SearchTypeEnum.equal }
  ])
"
    case 14 => "  " + ("async paginate(input: " + (fname + "ListInput") + ", options: DatabaseOptionsType): Promise<" + (fname + "ListOutput") + "> {\n") // 567
    case 15 => // 568-571
@"    const { schema } = DatabaseOptionsSchema.parse(options);

    const list = await this.repository.schema(schema).findAndCountAll(input);

"
    case 16 => "    " + ("return { docs: list.rows.map((r) => new " + (fname + "Entity") + "(r)), limit: input.limit, page: input.page, total: list.count };\n") // 572
    case 17 => // 573-575
@"  }
}

"
    case _ => ""
  }

  function RepositoryParts(fname: string, name: string): seq<string> {
    seq(18, k => RepositoryPart(fname, name, k))
  }

  /** Part `k` of `app(name).swagger` (lines 577-659): the documented responses and requests. */
  function SwaggerPart(fname: string, name: string, k: int): string {
    match k
    case 0 => "import { name } from '" + ("apps/" + name + "/package.json") + "';\n" // 577
    case 1 => "import { " + (fname + "Request") + " } from '" + ("libs/utils/docs/data/" + name + "/request") + "';\n" // 578
    case 2 => "import { " + (fname + "Response") + " } from '" + ("libs/utils/docs/data/" + name + "/response") + "';\n" // 579
    case 3 => // 580-585
@"import { Swagger } from 'libs/utils/docs/swagger';

export const SwagggerResponse = {
  create: {
    200: Swagger.defaultResponseJSON({
      status: 200,
"
    case 4 => "      " + ("json: " + (fname + "Response.create") + ",\n") // 586
    case 5 => "      " + ("description: '" + name + " created.'\n") // 587
    case 6 => // 588-592
@"    })
  },
  update: {
    200: Swagger.defaultResponseJSON({
      status: 200,
"
    case 7 => "      " + ("json: " + (fname + "Response.update") + ",\n") // 593
    case 8 => "      " + ("description: '" + name + " updated.'\n") // 594
    case 9 => // 595-597
@"    }),
    404: Swagger.defaultResponseError({
      status: 404,
"
    case 10 => "      " + ("route: '" + ("api/" + name) + "',\n") // 598
    case 11 => "      " + ("message: '" + name + " Not Found',\n") // 599
    case 12 => "      " + ("description: '" + name + " not found.'\n") // 600
    case 13 => // 601-605
@"    })
  },
  getByID: {
    200: Swagger.defaultResponseJSON({
      status: 200,
"
    case 14 => "      " + ("json: " + (fname + "Response.getByID") + ",\n") // 606
    case 15 => "      " + ("description: '" + name + " found.'\n") // 607
    case 16 => // 608-610
@"    }),
    404: Swagger.defaultResponseError({
      status: 404,
"
    case 17 => "      " + ("route: '" + ("api/" + name + "/:id") + "',\n") // 611
    case 18 => "      " + ("message: '" + name + " Not Found',\n") // 612
    case 19 => "      " + ("description: '" + name + " not found.'\n") // 613
    case 20 => // 614-618
@"    })
  },
  delete: {
    200: Swagger.defaultResponseJSON({
      status: 200,
"
    case 21 => "      " + ("json: " + (fname + "Response.delete") + ",\n") // 619
    case 22 => "      " + ("description: '" + name + " found.'\n") // 620
    case 23 => // 621-623
@"    }),
    404: Swagger.defaultResponseError({
      status: 404,
"
    case 24 => "      " + ("route: '" + ("api/" + name + "/:id") + "',\n") // 624
    case 25 => "      " + ("message: '" + name + " Not Found',\n") // 625
    case 26 => "      " + ("description: '" + name + " not found.'\n") // 626
    case 27 => // 627-631
@"    })
  },
  list: {
    200: Swagger.defaultResponseJSON({
      status: 200,
"
    case 28 => "      " + ("json: " + (fname + "Response.list") + ",\n") // 632
    case 29 => "      " + ("description: '" + name + " created.'\n") // 633
    case 30 => // 634-638
@"    })
  }
};

export const SwagggerRequest = {
"
    case 31 => "  " + ("createBody: Swagger.defaultRequestJSON(" + (fname + "Request.create") + "),\n") // 639
    case 32 => "  " + ("updateBody: Swagger.defaultRequestJSON(" + (fname + "Request.update") + "),\n") // 640
    case 33 => // 641-658
@"  listQuery: {
    pagination: {
      limit: Swagger.defaultApiQueryOptions({ example: 10, name: 'limit', required: false }),
      page: Swagger.defaultApiQueryOptions({ example: 1, name: 'page', required: false })
    },
    sort: Swagger.defaultApiQueryOptions({
      name: 'sort',
      required: false,
      description: '<b>createdAt:desc,name:asc'
    }),
    search: Swagger.defaultApiQueryOptions({
      name: 'search',
      required: false,
      description: '<b>name:miau,breed:siamese'
    })
  }
};

"
    case _ => ""
  }

  function SwaggerParts(fname: string, name: string): seq<string> {
    seq(34, k => SwaggerPart(fname, name, k))
  }
}
