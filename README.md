# A Dafny model of the rfjs starter-template core

This project models the small pieces of real logic in the Koa and Fastify starter templates of the rfjs template library.
Each piece becomes one Dafny module, and the properties the code promises are proved about the model.

- **Response-schema builders** (`ApiDecorator`). `ApiResPaginatedSchema`, `ApiResDataSchema` and `ApiResDataListSchema` build the OpenAPI operation fragment that is handed to the `OpenAPI()` decorator. The fragment is modelled as a JSON-like value (`Json.Json`). The decorator itself is not modelled.
- **Response envelopes** (`ApiDto`). These are the constructors of `ApiResDataDTO`, `ApiResPaginatedDTO` and `ApiResErrorDTO`, with their `== undefined` defaults.
- **Exceptions** (`BaseExceptions`, `HttpExceptions`). This is `BaseException` and `HttpException` with their getters and constructor defaults. The `http-status` table is a parameter: any partial map from code to name.
- **Koa error interceptor** (`ErrorInterceptor`). `koaErrorHandler` and `KoaHttpErrorInterceptor` work on a small mutable `KoaContext` class. A downstream handler is given as a `NextOutcome`. The clock reading `new Date()` is a parameter.
- **Route-module registrar** (`HttpRoutes`). `registerHttpRouteModules` is a `for` loop over the modules. `app.register` appends to the `registered` log of a `FastifyApp` object.
- **CORS origin decision** (`CorsOrigin`). This is the `origin` callback, with `configs.env` and `ALLOWED_ORIGINS` as parameters. It also covers `String.split` and its inverse `join`.
- **Server manager** (`FastifyServer`). This is `FastifyServerManager` as a class with the fields `app` and `isStarted`. Whether init, listen and close succeed is passed in. `process.exit(1)` is an outcome value.
- **package.json rewrite** (`PackageJson`). This covers the deletions and assignments of `copyPackageJsonFn`. The package is an ordered list of entries in the parsed object's own property order, which is the order `JSON.stringify` writes. Only the non-index keys `main`, `module` and `types` are assigned, and a new non-index key goes last, so this order is exact.

Shared helpers: `Wrappers` holds `Option` and `Result`. `Json` holds JSON values, JavaScript truthiness, ASCII `toLowerCase` and the decimal rendering used by `${status}`.

Behaviour of the code worth noting:
- The error handler's envelope has `errorCode` `HTTP_BASE_ERROR` for every error. A plain error is wrapped as `new HttpException(message, 500)`, so it gets that code too. When the plain error's message is empty, the wrapped message is the table's name for 500.
- `ALLOWED_ORIGINS` is split on `,` without trimming. An origin that is `undefined` or `''` is allowed in every environment.
- Outside the development environments, an unset `ALLOWED_ORIGINS` still lets missing and empty origins through.

## Model

| member | source | states |
|---|---|---|
| `ApiDecorator.ApiResPaginatedSchema` | templates/apps/koa-esbuild/src/common/decorators/api.decorator.ts:4-42 | The fragment carries `option?.description`. Its only response key is the effective status (`?? 200`). The schema under the effective content type (`?? 'application/json'`) reads back as envelope `ApiResPaginatedDTO` with `data` an array of `$ref` items. |
| `ApiDecorator.ApiResDataSchema` | templates/apps/koa-esbuild/src/common/decorators/api.decorator.ts:44-96 | The fragment carries the description and answers only under the effective status. Its schema reads back as envelope `ApiResDataDTO` with `data` the item schema, wrapped in an array exactly when `isArray` is true. |
| `ApiDecorator.ApiResDataListSchema` | templates/apps/koa-esbuild/src/common/decorators/api.decorator.ts:98-139 | The fragment carries the description and answers only under the effective status. Its schema reads back as envelope `ApiResDataDTO` with `data` an array of item schemas. |
| `ApiDecorator.IsTypedModel` | templates/apps/koa-esbuild/src/common/decorators/api.decorator.ts:53 | A class counts as primitive only when its name lower-cases to a JSON Schema primitive type name (`string`, `number`, `boolean`). |
| `ApiDecorator.ItemSchema` | templates/apps/koa-esbuild/src/common/decorators/api.decorator.ts:56-68 | One-key schema: for a primitive class `{type: lower(name)}`, holding no `$ref`; otherwise `{$ref: '#/components/schemas/<name>'}`. |
| `ApiDecorator.ResponsesReadBack` | templates/apps/koa-esbuild/src/common/decorators/api.decorator.ts:21-40 | A built `responses` map has exactly one status key, exactly one content type under it, and an `allOf` of two entries in order (envelope `$ref`, then `properties.data`). Reading it back recovers all four inputs. |
| `ApiDecorator.ResponsesInjective` | templates/apps/koa-esbuild/src/common/decorators/api.decorator.ts:75-94 | Two `responses` maps are equal only when status, content type, envelope and data schema all agree. |
| `ApiDecorator.DefaultsApply` | templates/apps/koa-esbuild/src/common/decorators/api.decorator.ts:16-17 | With no options, all three builders answer under `"200"` with `application/json` and no description. |
| `ApiDecorator.UnsetOptionsDefault` | templates/apps/koa-esbuild/src/common/decorators/api.decorator.ts:70-71 | Options whose status and content type are unset get the same defaults and keep their description, in all three builders. |
| `ApiDecorator.GivenStatusAndContentType` | templates/apps/koa-esbuild/src/common/decorators/api.decorator.ts:113-114 | A given status and content type are used as they are, under the builder's own envelope, in all three builders. |
| `ApiDecorator.DistinctStatusesDistinctKeys` | templates/apps/koa-esbuild/src/common/decorators/api.decorator.ts:76 | `ApiResDataSchema` fragments built for different effective statuses have disjoint response keys. |
| `ApiDecorator.PrimitiveTypeNames` | templates/apps/koa-esbuild/src/common/decorators/api.decorator.ts:67 | `String`, `Number` and `Boolean` lower-case to `string`, `number` and `boolean`. |
| `ApiDecorator.DataSchemaPrimitive` | templates/apps/koa-esbuild/src/common/decorators/api.decorator.ts:53-69 | For a primitive class the data schema is `{type: lower(name)}`. Neither it nor the array form or its items holds a `$ref`. |
| `ApiDecorator.DataSchemaReference` | templates/apps/koa-esbuild/src/common/decorators/api.decorator.ts:61-68 | For any other class the data schema is `{$ref: '#/components/schemas/<name>'}`, or its array. |
| `ApiDecorator.IsArrayWraps` | templates/apps/koa-esbuild/src/common/decorators/api.decorator.ts:55-69 | With `isArray` the data schema is `{type:'array', items: S}` with S the schema built without it. A false or missing `isArray` gives S. |
| `ApiDecorator.ListIsDataArray` | templates/apps/koa-esbuild/src/common/decorators/api.decorator.ts:106-112 | `ApiResDataListSchema(m, o)` equals `ApiResDataSchema(m, {...o, isArray: true})`. |
| `ApiDecorator.PaginatedAlwaysReferences` | templates/apps/koa-esbuild/src/common/decorators/api.decorator.ts:12-15 | The paginated fragment reads back as envelope `ApiResPaginatedDTO` with items `{$ref: ...name}`, even for primitive classes. |
| `ApiDecorator.PaginatedListAsymmetry` | templates/apps/koa-esbuild/src/common/decorators/api.decorator.ts:106-111 | For a primitive class the paginated and list builders produce different item schemas and different fragments. |
| `Json.ToLowerAscii` | templates/apps/koa-esbuild/src/common/decorators/api.decorator.ts:59 | `toLowerCase` keeps the length and lower-cases each character (ASCII range). |
| `Json.NatToString` | templates/apps/koa-esbuild/src/common/decorators/api.decorator.ts:22 | `${n}` is a non-empty string of digits with no leading zero. |
| `Json.ParseNatToString` | templates/apps/koa-esbuild/src/common/decorators/api.decorator.ts:22 | Reading the decimal rendering back gives the number. |
| `Json.SignedRenderingsDiffer` | templates/apps/koa-esbuild/src/common/decorators/api.decorator.ts:76 | A negative number and a natural number never render alike. |
| `Json.IntToStringInjective` | templates/apps/koa-esbuild/src/common/decorators/api.decorator.ts:76 | Two numbers render as the same string exactly when they are equal, negative numbers included. |
| `ApiDto.NewApiResDataDTO` | templates/apps/koa-esbuild/src/common/dto/api.dto.ts:20-24 | `success` and `status` are copied. `data` is null exactly when the parameter is undefined or null; otherwise it is the parameter unchanged. |
| `ApiDto.DataRoundTrip` | templates/apps/koa-esbuild/src/common/dto/api.dto.ts:20-24 | Every data envelope is rebuilt unchanged from its own fields. |
| `ApiDto.DataNullishSame` | templates/apps/koa-esbuild/src/common/dto/api.dto.ts:23 | Undefined and null data give the same envelope, with `data: null`. |
| `ApiDto.DataArrayPassThrough` | templates/apps/koa-esbuild/src/common/dto/api.dto.ts:23 | An array payload is stored as it is and not wrapped again. |
| `ApiDto.NewApiResPaginatedDTO` | templates/apps/koa-esbuild/src/common/dto/api.dto.ts:42-47 | `success`, `status` and `total` are copied. `data` is `[]` when undefined or null, otherwise the given list. |
| `ApiDto.PaginatedRoundTrip` | templates/apps/koa-esbuild/src/common/dto/api.dto.ts:42-47 | Every paginated envelope is rebuilt unchanged from its own fields. |
| `ApiDto.PaginatedMissingIsEmpty` | templates/apps/koa-esbuild/src/common/dto/api.dto.ts:45 | Undefined, null and empty lists give the same paginated envelope. |
| `ApiDto.NewApiResErrorDTO` | templates/apps/koa-esbuild/src/common/dto/api.dto.ts:67-86 | Each positional argument lands in its same-named field, and omitted optional fields stay undefined. The declared `code` is never set. |
| `ApiDto.ErrorRoundTrip` | templates/apps/koa-esbuild/src/common/dto/api.dto.ts:77-84 | An error DTO is rebuilt unchanged from its `ApiResError` fields. |
| `BaseExceptions.NewBaseException` | templates/apps/koa-esbuild/src/common/exceptions/base.exception.ts:13-30 | `errorCode` is `BASE_ERROR`. `message` is the given message. `description` is `''` when absent and the given text otherwise. |
| `BaseExceptions.BaseException.ErrorCode` | templates/apps/koa-esbuild/src/common/exceptions/base.exception.ts:4-22 | `errorCode` is the code whose string value is `BASE_ERROR`. |
| `BaseExceptions.BaseException.Message` | templates/apps/koa-esbuild/src/common/exceptions/base.exception.ts:24-26 | `message` is the stored `_message`. Its contract is stated by `NewBaseException`, which stores the given message. |
| `BaseExceptions.BaseException.Description` | templates/apps/koa-esbuild/src/common/exceptions/base.exception.ts:28-30 | `_description ?? ''`: `''` when no description was given, the given text otherwise. |
| `HttpExceptions.StatusName` | templates/apps/koa-esbuild/src/common/exceptions/http.exception.ts:14 | The table's name for the code when it has a non-empty one, otherwise `Unknown Error`. Never empty. |
| `HttpExceptions.NewHttpException` | templates/apps/koa-esbuild/src/common/exceptions/http.exception.ts:23-32 | A missing status becomes 400. An empty or missing message becomes the status name; a non-empty one is kept. `description` defaults to `''`. `errorCode` is `HTTP_BASE_ERROR`. |
| `HttpExceptions.MessageNeverEmpty` | templates/apps/koa-esbuild/src/common/exceptions/http.exception.ts:29 | A constructed exception's message is never empty. |
| `HttpExceptions.ErrorCodeOverridesBase` | templates/apps/koa-esbuild/src/common/exceptions/http.exception.ts:7 | An `HttpException` reports `HTTP_BASE_ERROR`, which differs from the `BASE_ERROR` every `BaseException` reports. |
| `HttpExceptions.TypeNamesStatus` | templates/apps/koa-esbuild/src/common/exceptions/http.exception.ts:13-15 | `type` is the table's name of the status, or `Unknown Error` when the code is absent. |
| `HttpExceptions.HttpException.ErrorCode` | templates/apps/koa-esbuild/src/common/exceptions/http.exception.ts:7 | The overriding `errorCode` is the code whose string value is `HTTP_BASE_ERROR`. |
| `HttpExceptions.HttpException.Status` | templates/apps/koa-esbuild/src/common/exceptions/http.exception.ts:9-11 | `status` is the stored `_status`. `NewHttpException` states that it is the given status, or 400. |
| `HttpExceptions.HttpException.Type` | templates/apps/koa-esbuild/src/common/exceptions/http.exception.ts:13-15 | `type` is never empty. `TypeNamesStatus` states that it is the table's name for the status, or `Unknown Error`. |
| `HttpExceptions.HttpException.ErrorInfo` | templates/apps/koa-esbuild/src/common/exceptions/http.exception.ts:34-44 | `errorInfo` is the record of status, type, message, description and error code. `ErrorInfoMirrors` states that each field equals the same exception's getter. |
| `HttpExceptions.ErrorInfoMirrors` | templates/apps/koa-esbuild/src/common/exceptions/http.exception.ts:34-44 | `errorInfo` carries the same exception's status, type, message, description and error code. |
| `HttpExceptions.RebuildFromGetters` | templates/apps/koa-esbuild/src/common/exceptions/http.exception.ts:23-32 | Rebuilding an exception from its own getters gives the same `errorInfo`. |
| `HttpExceptions.NoArguments` | templates/apps/koa-esbuild/src/common/exceptions/http.exception.ts:28-29 | `new HttpException()` has status 400, the table's name for 400 as message, and an empty description. |
| `ErrorInterceptor.AsHttpException` | templates/apps/koa-esbuild/src/common/interceptors/error.interceptor.ts:29-33 | An `HttpException` is kept. Any other thrown `Error`, plain or a `BaseException`, becomes status 500 with `HTTP_BASE_ERROR`, no description, and its own message (or the 500 name when that message is empty). |
| `ErrorInterceptor.ErrorBody` | templates/apps/koa-esbuild/src/common/interceptors/error.interceptor.ts:34-45 | The envelope has `success=false`, the exception's status, code and message, and the context's method and path. It has a `description` exactly when the exception's description is non-empty. |
| `ErrorInterceptor.ErrorBodyJson` | templates/apps/koa-esbuild/src/common/interceptors/error.interceptor.ts:34-45 | The envelope as the JSON object written to `ctx.body`. `ErrorBodyJsonKeys` and `ErrorBodyJsonRoundTrip` state its key set and that it reads back as the envelope. |
| `ErrorInterceptor.ErrorBodyJsonKeys` | templates/apps/koa-esbuild/src/common/interceptors/error.interceptor.ts:34-45 | The JSON envelope has `success`, `status`, `errorCode` and `message`. It has `description`, `path`, `timestamp` and `method` exactly when each is defined, and no other key. |
| `ErrorInterceptor.ErrorBodyJsonRoundTrip` | templates/apps/koa-esbuild/src/common/interceptors/error.interceptor.ts:34-52 | The JSON written into `ctx.body` reads back as the same envelope. |
| `ErrorInterceptor.ErrorBodyJsonDescription` | templates/apps/koa-esbuild/src/common/interceptors/error.interceptor.ts:43-45 | `description` is a key of the JSON body exactly when the envelope has one. |
| `ErrorInterceptor.UnclassifiedBecomes500` | templates/apps/koa-esbuild/src/common/interceptors/error.interceptor.ts:29-45 | A non-`HttpException` error yields status 500, `HTTP_BASE_ERROR`, its non-empty message, and no `description` key. |
| `ErrorInterceptor.HttpExceptionKept` | templates/apps/koa-esbuild/src/common/interceptors/error.interceptor.ts:33-45 | An `HttpException` keeps its status, code and message. `description` appears exactly when its description is non-empty. |
| `ErrorInterceptor.MessageCarried` | templates/apps/koa-esbuild/src/common/interceptors/error.interceptor.ts:38 | A non-empty error message reaches the envelope unchanged. |
| `ErrorInterceptor.RewriteStatus` | templates/apps/koa-esbuild/src/common/interceptors/error.interceptor.ts:19-22 | An object body with a truthy `status` gets `status := ctx.status`. Every other body, including a missing one or one with status 0, is untouched. |
| `ErrorInterceptor.RewriteKeepsOtherFields` | templates/apps/koa-esbuild/src/common/interceptors/error.interceptor.ts:20-21 | The rewrite keeps the key set and every field other than `status`. |
| `ErrorInterceptor.RewriteIdempotent` | templates/apps/koa-esbuild/src/common/interceptors/error.interceptor.ts:19-22 | Rewriting twice with the same status is the same as rewriting once. |
| `ErrorInterceptor.RewriteEnvelopeStatus` | templates/apps/koa-esbuild/src/common/interceptors/error.interceptor.ts:20-21 | An envelope's numeric status becomes `ctx.status` unless it was 0. |
| `ErrorInterceptor.KoaErrorHandler` | templates/apps/koa-esbuild/src/common/interceptors/error.interceptor.ts:28-54 | Returns the (possibly wrapped) error. Sets `ctx.status` to its status and `ctx.body` to the JSON of `ErrorBody`. |
| `ErrorInterceptor.KoaHttpErrorInterceptor` | templates/apps/koa-esbuild/src/common/interceptors/error.interceptor.ts:12-26 | On success the body is `RewriteStatus` of what the handler left. On a throw the context holds the error envelope and its status. |
| `HttpRoutes.IsRegistrable` | templates/apps/fastify-esbuild/src/infrastructures/fastify/registers/register-http-routes.ts:14-15 | Both guards pass: `type` is `'http'`, `prefix` is a non-empty string and `plugin` is present. `SkippedModuleAddsNothing`, `FalsyFieldsSkipped` and `RegistrationCountStep` state its effect on registration. |
| `HttpRoutes.Registrations` | templates/apps/fastify-esbuild/src/infrastructures/fastify/registers/register-http-routes.ts:12-17 | The registrations a module list makes, in order. There are never more of them than modules. |
| `HttpRoutes.FastifyApp.Register` | templates/apps/fastify-esbuild/src/infrastructures/fastify/registers/register-http-routes.ts:16 | `app.register(plugin, {prefix})` appends one registration to the log. |
| `HttpRoutes.RegisterHttpRouteModules` | templates/apps/fastify-esbuild/src/infrastructures/fastify/registers/register-http-routes.ts:7-18 | The log grows by exactly `Registrations(modules)`. An entry with missing or falsy fields is skipped and never raises. |
| `HttpRoutes.RegistrationsAppend` | templates/apps/fastify-esbuild/src/infrastructures/fastify/registers/register-http-routes.ts:12-17 | Registering two lists in turn is registering their concatenation. |
| `HttpRoutes.SkippedModuleAddsNothing` | templates/apps/fastify-esbuild/src/infrastructures/fastify/registers/register-http-routes.ts:14-15 | A module with a missing or non-`http` type, a falsy prefix or no plugin adds nothing. |
| `HttpRoutes.RegistrationPosition` | templates/apps/fastify-esbuild/src/infrastructures/fastify/registers/register-http-routes.ts:12-17 | A valid module is registered, with its own plugin and prefix, at the position equal to the number of valid modules before it. |
| `HttpRoutes.RegistrationOrigin` | templates/apps/fastify-esbuild/src/infrastructures/fastify/registers/register-http-routes.ts:12-17 | Every registration comes from a valid input module at that position, so nothing else is registered. |
| `HttpRoutes.RegistrationCountStep` | templates/apps/fastify-esbuild/src/infrastructures/fastify/registers/register-http-routes.ts:14-16 | Each module adds one registration if it is valid and none otherwise. |
| `HttpRoutes.RegisteredOnce` | templates/apps/fastify-esbuild/src/infrastructures/fastify/registers/register-http-routes.ts:12-17 | Valid modules at different indices get different, increasing positions, so each is registered once and in input order. |
| `HttpRoutes.CountMonotone` | templates/apps/fastify-esbuild/src/infrastructures/fastify/registers/register-http-routes.ts:12-17 | The number of registrations made by a prefix of the list never decreases as the prefix grows. |
| `HttpRoutes.ThreeModuleExample` | templates/apps/fastify-esbuild/src/infrastructures/fastify/registers/register-http-routes.ts:12-17 | For `[http /a, ws /b, http /c]` only `/a` and `/c` are mounted, in that order. |
| `HttpRoutes.FalsyFieldsSkipped` | templates/apps/fastify-esbuild/src/infrastructures/fastify/registers/register-http-routes.ts:14-15 | An empty prefix, a missing type or a missing plugin is skipped. |
| `CorsOrigin.Split` | templates/apps/fastify-esbuild/src/infrastructures/fastify/registers/register-basic-plugins.ts:22 | `split(',')` always yields at least one piece. |
| `CorsOrigin.JoinSplit` | templates/apps/fastify-esbuild/src/infrastructures/fastify/registers/register-basic-plugins.ts:22 | Joining the pieces gives back the string, and no piece holds a comma. |
| `CorsOrigin.SplitPrefix` | templates/apps/fastify-esbuild/src/infrastructures/fastify/registers/register-basic-plugins.ts:22 | A comma-free prefix extends the first piece of the split. |
| `CorsOrigin.SplitJoin` | templates/apps/fastify-esbuild/src/infrastructures/fastify/registers/register-basic-plugins.ts:22 | Splitting the join of comma-free entries gives back the entries. |
| `CorsOrigin.AllowedOrigins` | templates/apps/fastify-esbuild/src/infrastructures/fastify/registers/register-basic-plugins.ts:22 | With `ALLOWED_ORIGINS` unset the list is `[]`. Otherwise it has at least one entry, no entry holds a comma, and joining the entries with `,` gives back the variable. So the `[]` fallback applies only when the variable is unset. |
| `CorsOrigin.OriginDecision` | templates/apps/fastify-esbuild/src/infrastructures/fastify/registers/register-basic-plugins.ts:10-28 | One callback: `(null, true)` in development, local or test. Elsewhere `(null, true)` exactly when the origin is missing, empty or listed. Otherwise `(Error('Not allowed by CORS'), false)`. |
| `CorsOrigin.UnsetAllowsOnlyMissing` | templates/apps/fastify-esbuild/src/infrastructures/fastify/registers/register-basic-plugins.ts:22-24 | With `ALLOWED_ORIGINS` unset, only a missing or empty origin passes outside development. |
| `CorsOrigin.CommaOriginRejected` | templates/apps/fastify-esbuild/src/infrastructures/fastify/registers/register-basic-plugins.ts:22-27 | An origin containing a comma is never allowed outside development. |
| `CorsOrigin.AllowedIffListed` | templates/apps/fastify-esbuild/src/infrastructures/fastify/registers/register-basic-plugins.ts:22-24 | A present, non-empty origin is allowed exactly when it equals one of the comma-joined entries. |
| `CorsOrigin.NoTrimming` | templates/apps/fastify-esbuild/src/infrastructures/fastify/registers/register-basic-plugins.ts:23 | An entry with a leading space does not match the origin without it. |
| `FastifyServer.FastifyServerManager.constructor` | templates/apps/fastify-esbuild/src/infrastructures/server/fastify-server.ts:7-10 | A new manager has no app and is not started. |
| `FastifyServer.FastifyServerManager.Start` | templates/apps/fastify-esbuild/src/infrastructures/server/fastify-server.ts:12-42 | When started, it throws `Server is already started` and changes nothing. If init fails, the process exits and `app` is unchanged. If listen fails, `app` is set, `isStarted` stays false and the process exits. Otherwise it is started with the new app. |
| `FastifyServer.FastifyServerManager.Stop` | templates/apps/fastify-esbuild/src/infrastructures/server/fastify-server.ts:44-59 | When not started it does nothing. A successful close clears `isStarted` and keeps `app`. A failed close rethrows and stays started. |
| `FastifyServer.FastifyServerManager.GetServer` | templates/apps/fastify-esbuild/src/infrastructures/server/fastify-server.ts:61-66 | Throws `Server not initialized. Call start() first.` without an app, and returns the app otherwise. |
| `FastifyServer.Server` | templates/apps/fastify-esbuild/src/infrastructures/server/fastify-server.ts:103-110 | A successful start hands out the initialised instance. Any failure ends in exit code 1. |
| `FastifyServer.LifeCycle` | templates/apps/fastify-esbuild/src/infrastructures/server/fastify-server.ts:12-66 | Start, start again (throws), stop. `getServer` still returns the first instance afterwards. |
| `PackageJson.Without` | templates/libs/lib-esbuild/scripts/copyPackageJsonPlugin.ts:14-22 | `delete` removes exactly the named keys and keeps keys unique. |
| `PackageJson.Assign` | templates/libs/lib-esbuild/scripts/copyPackageJsonPlugin.ts:26-28 | Assigning a new key appends it at the end, as JavaScript does for a non-index key such as `main`, `module` or `types`. The key set gains exactly that key. |
| `PackageJson.DroppedInOrder` | templates/libs/lib-esbuild/scripts/copyPackageJsonPlugin.ts:14-22 | The nine `delete` statements remove exactly the dropped key set. |
| `PackageJson.DeleteDropped` | templates/libs/lib-esbuild/scripts/copyPackageJsonPlugin.ts:14-22 | The run of deletions leaves the input without the dropped keys, in input order. |
| `PackageJson.CopyPackageJson` | templates/libs/lib-esbuild/scripts/copyPackageJsonPlugin.ts:14-28 | The rewritten package is the kept entries in order, then `main`, `module`, `types`. |
| `PackageJson.RewrittenKeys` | templates/libs/lib-esbuild/scripts/copyPackageJsonPlugin.ts:14-28 | Output keys = input keys − dropped + {main, module, types}. None of `exports`, `devDependencies`, `scripts`, `lint-staged`, `config`, `packageManager` is present. Unique keys stay unique. |
| `PackageJson.RewrittenPinsEntryPoints` | templates/libs/lib-esbuild/scripts/copyPackageJsonPlugin.ts:26-28 | `main`, `module` and `types` are `index.js`, `index.mjs` and `index.d.ts` whatever the input held. |
| `PackageJson.RewrittenKeepsOthers` | templates/libs/lib-esbuild/scripts/copyPackageJsonPlugin.ts:14-28 | Every key that is not dropped keeps its value, and absent keys stay absent. |
| `PackageJson.RewrittenIdempotent` | templates/libs/lib-esbuild/scripts/copyPackageJsonPlugin.ts:14-28 | Rewriting twice gives the same package as rewriting once. |

## Left out

- The `OpenAPI()` decorator and routing-controllers-openapi, which consume the fragment, are not part of this model.
- The `http-status` package is not part of this model. Its table is a parameter (`StatusNames`).
- `EnumErrorCode` is not part of this model. Only its `BASE_ERROR` and `HTTP_BASE_ERROR` members are modelled, and their string values are taken to be the member names.
- `HttpExceptions.HttpException.ErrorInfo`: the `error` (the exception object itself) and `stack` fields of `errorInfo` are left out.
- Logging is left out: `logger.error`, `console.error` and the Fastify `app.log` calls.
- `ErrorInterceptor.AsHttpException`: only thrown `Error` objects are modelled. A thrown value that is not an `Error`, such as a string, has an undefined `message`, so it is handled like a plain error with an empty message (`PlainError("")`: status 500 and the table's name for 500). A thrown `null` or `undefined` makes `error.message` throw a `TypeError` inside the `catch`, so the interceptor rejects and writes no envelope. That outcome is not modelled.
- `ErrorInterceptor.KoaHttpErrorInterceptor`: the source overwrites `status` in the very object `ctx.body` points to, so every other reference to that object sees the change. The model's `RewriteStatus` builds a new value, so the aliasing is not captured.
- `HttpRoutes.RegisterHttpRouteModules`: a `null` or `undefined` entry makes the destructuring throw a `TypeError`, and a rejecting `app.register` ends the loop with the remaining modules unregistered. Neither is modelled, because `FastifyApp.Register` always succeeds and entries are always records.
- `FastifyServer.FastifyServerManager.Start`: calls to `start()` and `stop()` are modelled as never overlapping. In the source, two overlapping `start()` calls can both pass the `isStarted` guard, because it is set only after awaiting init and listen; the later call then overwrites `app`. A `stop()` arriving during `start()` takes the no-op branch. This interleaving is not captured.
- `ErrorInterceptor.ErrorBodyJson`: the timestamp is stored as an abstract number, so the ISO-8601 string that `JSON.stringify` writes for a `Date` is not modelled.
- `ErrorInterceptor.KoaHttpErrorInterceptor`: the downstream chain `next()` is abstract. It is given by the status and body it leaves, or by the error it throws.
- `Json.ToLowerAscii`: Unicode case mapping is not modelled. The builders only lower-case the three ASCII class names.
- `Json.NatToString`: the model renders `${n}` only in digit form, which is what JavaScript writes for integers below 10^21. JavaScript's exponent form for larger values (`${1e21}` is `1e+21`) is not modelled. Nor is the loss of exactness of doubles above 2^53.
- Numbers are integers. `NaN`, fractional status codes and the `Number(...)` conversion of non-number statuses are not modelled.
- `setupGracefulShutdown` is left out: it installs signal handlers, an uncaught-exception handler and `process.exit` calls. It is process-level I/O.
- `FastifyServer.FastifyServerManager.Start`: `initializeFastifyApp`, `listen` and the `options` they read are abstract. Only their success or failure is an input.
- The rest of `registerBasicPlugins` is left out: the awaited registration of the CORS, multipart, formbody and sensible plugins. It is framework wiring; only the `origin` callback is modelled.
- `CorsOrigin.OriginDecision`: the callback is returned as one value, so "called exactly once" holds by construction rather than being stated over a call log.
- `copyPackageJsonFn` reads `package.json`, writes `dist/package.json` and logs. That file I/O is left out, as is the esbuild plugin wrapper `copyPackageJsonPlugin`.
- The remaining files of the repository are not part of this model: build configs, CLI, IoC adapters, controllers, configuration and logging transports.
