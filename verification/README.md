# Weighted monthly distributions of the financial-analysis backend

This project models the business core of the *AnalisisFinanciero* backend and two
frontend helper files. It covers:

- **Weighted monthly distributions** ("detalles ponderados"): each record belongs to
  either a cost center (*centro gestor*) or a budget classifier (*clasificador
  presupuestal*). It holds twelve optional monthly percentages (enero … diciembre)
  and a total. A record may only be stored when the percentages are non-negative,
  add up to exactly 100.00, and any total supplied also equals 100.00.
- **Generic CRUD service:** one service for both owner kinds, with its validation
  chain and its write operations. The two specializations differ only in field
  keys and entity names.
- **Mappers** from entities to DTOs.
- **Owner look-up by code:** code-format and pagination validation, and the
  case-insensitive sort direction.
- **Users:** creation by an administrator, update, and credential checks.
- **Login:** the status check and the HTTP status chosen for a login response.
- **Frontend string helpers:** `validateEmail`, `validateRequired`,
  `validateMinLength` and `truncateText`.

Design choices:

- Operations are pure functions over immutable data.
- **Storage:** the store of records is a map from id to record plus the next id to
  assign. A write returns its result together with the new store.
- **Failure:** a failed write returns the store unchanged, as the transactional
  rollback does.
- **Errors:**
  - A validation error is modelled as `Invalid(field)`, keyed by the field the
    source names.
  - A missing entity is modelled as `NotFound(entity)`.
  - Validation messages are not modelled; the login responses' messages are.
- **Decimals** (`BigDecimal`) are exact reals, and a null month is `None`.
- **Repositories outside the store:** the owner, role and status repositories are
  sets or maps of what they can find.
- **Injected collaborators** become function parameters:
  - the entity/DTO mapper for users;
  - the password encoder and its matcher;
  - the authentication manager;
  - the JWT provider;
  - the clock.

Modules:

- `Results`: `Option`, `Result` and `Outcome`, plus the error values.
- `Monthly`: the twelve-month vector, its sum, and the month validation.
- `Paging`: page requests and pages.
- `Detalles`: the record and DTO types.
- `DetalleMapper`: record-to-DTO mapping.
- `DetalleService`: the generic engine, parameterised by `OwnerKind`.
- `CentroGestorDetalles` and `ClasificadorDetalles`: the two specializations.
- `DetalleProperties`: store invariants and scenarios.
- `Owners`: the owner entities and their DTOs.
- `CentroGestorMapper` and `ClasificadorMapper`: the owner mappers.
- `LookupRules`: code format, pagination, sorting and Java's `equalsIgnoreCase`.
- `CentroGestorLookup` and `ClasificadorLookup`: the owner look-ups.
- `Usuarios`: the user service.
- `Auth`: the login response, login itself, and the controller's status mapping.
- `Validators` and `Formatters`: the frontend helpers.

## Model

| member | source | states |
|---|---|---|
| Monthly.ValidateMonthlyValues | Backend/src/main/java/com/udea/AnalisisFinanciero_back/service/BaseDetallePonderadoService.java:172-192 | passes exactly when no month is negative; otherwise fails keyed by the name of the first negative month, in calendar order |
| Monthly.FirstNegativeFrom | Backend/src/main/java/com/udea/AnalisisFinanciero_back/service/BaseDetallePonderadoService.java:172-185 | finds the first negative month at or after a position, and none exactly when every month from there on is null or non-negative |
| Monthly.SumIsChainedSum | Backend/src/main/java/com/udea/AnalisisFinanciero_back/service/DetallePonderadoCentroGestorService.java:101-114 | the source's explicit chain of twelve additions, with null counted as zero, equals the recursive sum of the months |
| Monthly.SumOfPrefix | Backend/src/main/java/com/udea/AnalisisFinanciero_back/service/BaseDetallePonderadoService.java:121-137 | the sum of a prefix of the months is the left-to-right chain over that prefix |
| Monthly.MonthAtMostSum | Backend/src/main/java/com/udea/AnalisisFinanciero_back/service/DetallePonderadoCentroGestorService.java:101-119 | when no month is negative, each month is at most the sum |
| Monthly.SumNonNegative | Backend/src/main/java/com/udea/AnalisisFinanciero_back/service/BaseDetallePonderadoService.java:172-185 | months that pass the non-negativity check have a non-negative sum |
| Monthly.MonthsWithinPercentRange | Backend/src/main/java/com/udea/AnalisisFinanciero_back/service/DetallePonderadoCentroGestorService.java:116-119 | when no month is negative and the sum is 100, every month is null or between 0 and 100 |
| DetalleMapper.ToDto | Backend/src/main/java/com/udea/AnalisisFinanciero_back/mapper/DetallePonderadoMapper.java:41-62 | the DTO carries the entity's id, its owner's id, all twelve months and the total, unchanged |
| DetalleMapper.ToDtoOrNull | Backend/src/main/java/com/udea/AnalisisFinanciero_back/mapper/DetallePonderadoMapper.java:15-20 | a null entity maps to a null DTO, and any other entity to its DTO |
| DetalleMapper.ToDtos | Backend/src/main/java/com/udea/AnalisisFinanciero_back/service/BaseDetallePonderadoService.java:32-41 | mapping a list keeps its length and maps element by element, in order |
| DetalleMapper.MapPage | Backend/src/main/java/com/udea/AnalisisFinanciero_back/service/BaseDetallePonderadoService.java:32-41 | a mapped page keeps the request and the element count and maps its content in order |
| DetalleService.ValidateId | Backend/src/main/java/com/udea/AnalisisFinanciero_back/service/BaseDetallePonderadoService.java:141-148 | a null id or an id of zero or less is rejected under "id", and any positive id passes |
| DetalleService.BaseValidateForCreate | Backend/src/main/java/com/udea/AnalisisFinanciero_back/service/BaseDetallePonderadoService.java:154-159 | a null DTO is rejected under "dto"; otherwise the outcome is the month check |
| DetalleService.BaseValidateForUpdate | Backend/src/main/java/com/udea/AnalisisFinanciero_back/service/BaseDetallePonderadoService.java:165-167 | update validation has the same outcome as create validation |
| DetalleService.ValidateOwnerId | Backend/src/main/java/com/udea/AnalisisFinanciero_back/service/DetallePonderadoCentroGestorService.java:88-95 | a null or non-positive owner id is rejected under the owner kind's field key, and a positive one passes |
| DetalleService.ValidatePercentages | Backend/src/main/java/com/udea/AnalisisFinanciero_back/service/DetallePonderadoCentroGestorService.java:101-124 | fails under "suma" when the twelve-term sum is not 100; otherwise fails under "total" when a total is given and is not 100; otherwise passes |
| DetalleService.ValidateForCreate | Backend/src/main/java/com/udea/AnalisisFinanciero_back/service/DetallePonderadoCentroGestorService.java:73-77 | passes exactly for acceptable DTOs; checks the DTO, months, owner id, sum and total in that order, and the first failure decides the error |
| DetalleService.ValidateForUpdate | Backend/src/main/java/com/udea/AnalisisFinanciero_back/service/DetallePonderadoCentroGestorService.java:80-84 | the overridden update validation runs the create checks twice, and its outcome equals create validation's |
| DetalleService.CalculateAndSetTotal | Backend/src/main/java/com/udea/AnalisisFinanciero_back/service/BaseDetallePonderadoService.java:121-137 | the total becomes the twelve-term sum with null as zero, and nothing else changes |
| DetalleService.CopyMonths | Backend/src/main/java/com/udea/AnalisisFinanciero_back/service/BaseDetallePonderadoService.java:105-118 | all twelve months are overwritten from the DTO, nulls included, and nothing else changes |
| DetalleService.UpdateEntityFromDto | Backend/src/main/java/com/udea/AnalisisFinanciero_back/service/DetallePonderadoCentroGestorService.java:128-139 | months are copied; the owner is re-resolved only when the entity has none or a different one, and is not found exactly when that re-resolution fails |
| DetalleService.MapToEntity | Backend/src/main/java/com/udea/AnalisisFinanciero_back/service/DetallePonderadoCentroGestorService.java:43-56 | a new entity with the DTO's owner and months and no id or total; an owner id that does not resolve is not found under the owner's name |
| DetalleService.FindAll | Backend/src/main/java/com/udea/AnalisisFinanciero_back/service/BaseDetallePonderadoService.java:32-41 | the fetched page's entities are mapped to DTOs in order, and the paging data is kept |
| DetalleService.FindById | Backend/src/main/java/com/udea/AnalisisFinanciero_back/service/BaseDetallePonderadoService.java:44-52 | a bad id is rejected before storage is read; a missing row is not found; otherwise the row's DTO is returned |
| DetalleService.Create | Backend/src/main/java/com/udea/AnalisisFinanciero_back/service/BaseDetallePonderadoService.java:55-66 | succeeds exactly for an acceptable DTO with a resolvable owner; then stores under the next id a record whose total and month sum are both 100 and returns its DTO; on failure the store is unchanged |
| DetalleService.Update | Backend/src/main/java/com/udea/AnalisisFinanciero_back/service/BaseDetallePonderadoService.java:70-85 | checks the id, then the DTO, then that the row exists, then the owner; on success overwrites the months, sets the owner, sets the total to 100 and keeps the key; on failure the store is unchanged |
| DetalleService.DeleteById | Backend/src/main/java/com/udea/AnalisisFinanciero_back/service/BaseDetallePonderadoService.java:89-99 | a bad id is rejected and a missing row is not found, with the store unchanged in both cases; otherwise exactly that key is removed |
| CentroGestorDetalles.ValidateForCreate | Backend/src/main/java/com/udea/AnalisisFinanciero_back/service/DetallePonderadoCentroGestorService.java:73-77 | cost-center validation: errors "dto", then the month name, then "centroGestorId", "suma" and "total", in that order |
| CentroGestorDetalles.ValidateForUpdate | Backend/src/main/java/com/udea/AnalisisFinanciero_back/service/DetallePonderadoCentroGestorService.java:80-84 | same outcome as cost-center create validation |
| CentroGestorDetalles.UpdateEntityFromDto | Backend/src/main/java/com/udea/AnalisisFinanciero_back/service/DetallePonderadoCentroGestorService.java:128-139 | a changed cost center that cannot be found is not found under "Centro Gestor" |
| CentroGestorDetalles.Create | Backend/src/main/java/com/udea/AnalisisFinanciero_back/service/DetallePonderadoCentroGestorService.java:43-56 | an acceptable DTO whose cost center cannot be found is not found under "Centro Gestor" and nothing is saved |
| CentroGestorDetalles.Update | Backend/src/main/java/com/udea/AnalisisFinanciero_back/service/BaseDetallePonderadoService.java:70-85 | a missing row is not found under "DetallePonderadoCentroGestor" and a changed cost center that cannot be found under "Centro Gestor"; the store is unchanged on failure |
| ClasificadorDetalles.ValidateForCreate | Backend/src/main/java/com/udea/AnalisisFinanciero_back/service/DetallePonderadoClasificadorService.java:72-76 | classifier validation: errors "dto", then the month name, then "clasificadorId", "suma" and "total", in that order |
| ClasificadorDetalles.ValidateForUpdate | Backend/src/main/java/com/udea/AnalisisFinanciero_back/service/DetallePonderadoClasificadorService.java:79-83 | same outcome as classifier create validation |
| ClasificadorDetalles.UpdateEntityFromDto | Backend/src/main/java/com/udea/AnalisisFinanciero_back/service/DetallePonderadoClasificadorService.java:130-141 | a changed classifier that cannot be found is not found under "Clasificador Presupuestal" |
| ClasificadorDetalles.Create | Backend/src/main/java/com/udea/AnalisisFinanciero_back/service/DetallePonderadoClasificadorService.java:42-55 | an acceptable DTO whose classifier cannot be found is not found under "Clasificador Presupuestal" and nothing is saved |
| ClasificadorDetalles.Update | Backend/src/main/java/com/udea/AnalisisFinanciero_back/service/BaseDetallePonderadoService.java:70-85 | a missing row is not found under "DetallePonderadoClasificador" and a changed classifier that cannot be found under "Clasificador Presupuestal" |
| DetalleProperties.RecordMonthsInRange | Backend/src/main/java/com/udea/AnalisisFinanciero_back/service/DetallePonderadoClasificadorService.java:101-124 | every stored record of a valid store has each month null or within 0 to 100 |
| DetalleProperties.CreatedRecordInRange | Backend/src/main/java/com/udea/AnalisisFinanciero_back/service/BaseDetallePonderadoService.java:55-66 | the record a successful create stores has every month null or within 0 to 100 |
| DetalleProperties.UpdatedRecordInRange | Backend/src/main/java/com/udea/AnalisisFinanciero_back/service/BaseDetallePonderadoService.java:70-85 | the record a successful update stores has every month null or within 0 to 100 |
| DetalleProperties.CreateKeepsValid | Backend/src/main/java/com/udea/AnalisisFinanciero_back/service/BaseDetallePonderadoService.java:55-66 | create keeps the store invariant: each key is below the next id, matches its record's id, has an owner, and sums to 100 with total 100 |
| DetalleProperties.UpdateKeepsValid | Backend/src/main/java/com/udea/AnalisisFinanciero_back/service/BaseDetallePonderadoService.java:70-85 | update keeps the store invariant |
| DetalleProperties.DeleteKeepsValid | Backend/src/main/java/com/udea/AnalisisFinanciero_back/service/BaseDetallePonderadoService.java:89-99 | delete keeps the store invariant |
| DetalleProperties.CreateOnlyAdds | Backend/src/main/java/com/udea/AnalisisFinanciero_back/service/BaseDetallePonderadoService.java:55-66 | a successful create leaves every earlier row as it was and adds only the new key |
| DetalleProperties.CreateThenFind | Backend/src/main/java/com/udea/AnalisisFinanciero_back/service/BaseDetallePonderadoService.java:44-66 | looking up the id a create returned gives back the DTO that create returned |
| DetalleProperties.DeleteThenFind | Backend/src/main/java/com/udea/AnalisisFinanciero_back/service/BaseDetallePonderadoService.java:44-52 | after a successful delete, looking the id up again is not found, and deleting it again fails with the store unchanged |
| DetalleProperties.CostCenterScenario | Backend/src/main/java/com/udea/AnalisisFinanciero_back/service/DetallePonderadoCentroGestorService.java:101-119 | an even split is created under id 1, and an update summing to 110 is rejected under "suma" with the store unchanged |
| CentroGestorMapper.ToDto | Backend/src/main/java/com/udea/AnalisisFinanciero_back/mapper/CentroGestorMapper.java:14-22 | null maps to null; otherwise id, code and name are copied |
| CentroGestorMapper.ToConDetallesDto | Backend/src/main/java/com/udea/AnalisisFinanciero_back/mapper/CentroGestorMapper.java:27-37 | null maps to null; otherwise the same three fields are copied and the details list is left unset |
| CentroGestorMapper.ToDtoAgreesWithConDetalles | Backend/src/main/java/com/udea/AnalisisFinanciero_back/mapper/CentroGestorMapper.java:14-37 | both mappings agree on the fields they share |
| ClasificadorMapper.ToDto | Backend/src/main/java/com/udea/AnalisisFinanciero_back/mapper/ClasificadorPresupuestalMapper.java:14-28 | null maps to null; the status and cost-center ids are taken only when those references are present |
| ClasificadorMapper.ToConDetallesDto | Backend/src/main/java/com/udea/AnalisisFinanciero_back/mapper/ClasificadorPresupuestalMapper.java:33-52 | additionally copies the status name and cost-center name under the same null guards, and leaves the details list unset |
| ClasificadorMapper.ToDtoAgreesWithConDetalles | Backend/src/main/java/com/udea/AnalisisFinanciero_back/mapper/ClasificadorPresupuestalMapper.java:14-52 | both mappings agree on the fields they share |
| LookupRules.HasText | Backend/src/main/java/com/udea/AnalisisFinanciero_back/service/CentroGestorService.java:116-119 | true exactly when the string holds a character that is not Java white space |
| LookupRules.ValidateCodigoFormat | Backend/src/main/java/com/udea/AnalisisFinanciero_back/service/CentroGestorService.java:116-124 | rejects under "codigo" a code that is null or blank, or whose length is outside 2 to 20; passes every other code |
| LookupRules.ValidatePaginationParameters | Backend/src/main/java/com/udea/AnalisisFinanciero_back/service/CentroGestorService.java:127-143 | rejects a negative page under "page", a size outside 1 to 100 under "size", then a direction other than asc or desc in any case under "sortDir" |
| LookupRules.CreateSort | Backend/src/main/java/com/udea/AnalisisFinanciero_back/service/CentroGestorService.java:146-158 | a whitelisted field is kept and any other becomes "codigo"; "desc" in any case gives descending order, anything else ascending |
| LookupRules.FindByCode | Backend/src/main/java/com/udea/AnalisisFinanciero_back/service/CentroGestorService.java:38-47 | finds the first entity whose code equals the given one, and none exactly when no code matches |
| LookupRules.MixedCaseDirections | Backend/src/main/java/com/udea/AnalisisFinanciero_back/service/CentroGestorService.java:127-158 | "DESC", "Asc" and "de" + long s + "c" pass validation and select their order, as Java's case-insensitive comparison does; "descending" is rejected under "sortDir" |
| CentroGestorLookup.BuscarPorCodigo | Backend/src/main/java/com/udea/AnalisisFinanciero_back/service/CentroGestorService.java:38-47 | the code format is checked before any look-up; succeeds exactly for a well-formed code that exists, otherwise not found under "Centro Gestor" |
| CentroGestorLookup.ConDetalles | Backend/src/main/java/com/udea/AnalisisFinanciero_back/service/CentroGestorService.java:100-113 | the details list stays null when the owner has no list or an empty one, and is otherwise the record DTOs in order |
| CentroGestorLookup.BuscarPorCodigoConDetalles | Backend/src/main/java/com/udea/AnalisisFinanciero_back/service/CentroGestorService.java:50-61 | same success and error conditions as the plain look-up, with the details attached |
| CentroGestorLookup.AllConDetalles | Backend/src/main/java/com/udea/AnalisisFinanciero_back/service/CentroGestorService.java:64-79 | converts each owner of a list, keeping length and order |
| CentroGestorLookup.ObtenerTodosConDetallesPaged | Backend/src/main/java/com/udea/AnalisisFinanciero_back/service/CentroGestorService.java:64-79 | the page's owners are converted with their details, keeping request and count |
| CentroGestorLookup.ObtenerTodosConDetalles | Backend/src/main/java/com/udea/AnalisisFinanciero_back/service/CentroGestorService.java:82-97 | validates page, size and direction before fetching, then fetches with the built sort |
| ClasificadorLookup.BuscarPorCodigo | Backend/src/main/java/com/udea/AnalisisFinanciero_back/service/ClasificadorPresupuestalService.java:38-47 | the code format is checked first; succeeds exactly for a well-formed code that exists, otherwise not found under "Clasificador" |
| ClasificadorLookup.ConDetalles | Backend/src/main/java/com/udea/AnalisisFinanciero_back/service/ClasificadorPresupuestalService.java:100-113 | the details list stays null when the list is missing or empty, and is otherwise the record DTOs in order |
| ClasificadorLookup.BuscarPorCodigoConDetalles | Backend/src/main/java/com/udea/AnalisisFinanciero_back/service/ClasificadorPresupuestalService.java:50-61 | same success and error conditions as the plain look-up, with the details attached |
| ClasificadorLookup.AllConDetalles | Backend/src/main/java/com/udea/AnalisisFinanciero_back/service/ClasificadorPresupuestalService.java:64-79 | converts each classifier of a list, keeping length and order |
| ClasificadorLookup.ObtenerTodosConDetallesPaged | Backend/src/main/java/com/udea/AnalisisFinanciero_back/service/ClasificadorPresupuestalService.java:64-79 | the page's classifiers are converted with their details, keeping request and count |
| ClasificadorLookup.ObtenerTodosConDetalles | Backend/src/main/java/com/udea/AnalisisFinanciero_back/service/ClasificadorPresupuestalService.java:82-97 | validates page, size and direction before fetching, then fetches with the built sort |
| Usuarios.FindByEmail | Backend/src/main/java/com/udea/AnalisisFinanciero_back/service/UsuarioService.java:121-125 | the first user with the e-mail, and none exactly when nobody has it |
| Usuarios.CreateUser | Backend/src/main/java/com/udea/AnalisisFinanciero_back/service/UsuarioService.java:69-80 | appends one user under the next id whose password is the encoding of the mapped password; the earlier rows are unchanged |
| Usuarios.CreateUserIgnoresClientId | Backend/src/main/java/com/udea/AnalisisFinanciero_back/service/UsuarioService.java:69-70 | whatever id the client sends, creation gives the same result |
| Usuarios.UpdateUser | Backend/src/main/java/com/udea/AnalisisFinanciero_back/service/UsuarioService.java:88-101 | empty and no change for an unknown id; otherwise only that row is replaced, and the password is re-encoded exactly when a non-empty one is given |
| Usuarios.ValidateCredentials | Backend/src/main/java/com/udea/AnalisisFinanciero_back/service/UsuarioService.java:121-125 | true exactly when some user has the e-mail and the password matches the stored hash of the first such user, the one the e-mail look-up returns; false for an unknown e-mail |
| Usuarios.CrearUsuarioPorAdmin | Backend/src/main/java/com/udea/AnalisisFinanciero_back/service/UsuarioService.java:133-180 | the checks run in order: domain "@udea.edu.co" and an unused e-mail ("email"), an unused documento ("documento"), an existing assignable role ("rolId"), an existing status ("estadoId"); it succeeds exactly when all pass, and then creates the user dated today |
| Usuarios.AdministratorRoleRejected | Backend/src/main/java/com/udea/AnalisisFinanciero_back/service/UsuarioService.java:155-158 | a request for any role other than ORDENADOR_GASTO or DILIGENCIADOR, such as ADMINISTRADOR, fails |
| Usuarios.CreatedUserCanSignIn | Backend/src/main/java/com/udea/AnalisisFinanciero_back/service/UsuarioService.java:69-180 | when the mapper keeps the e-mail and password and the matcher accepts a password against its own encoding, a user just created by an administrator passes the credential check with the password given |
| Auth.LoginSuccess | Backend/src/main/java/com/udea/AnalisisFinanciero_back/DTO/AuthResponse.java:50-62 | status LOGIN_SUCCESS with the token, user data, role and permissions, and no message |
| Auth.MessageResponse | Backend/src/main/java/com/udea/AnalisisFinanciero_back/DTO/AuthResponse.java:64-69 | only the message and status are set, and type keeps its default "Bearer" |
| Auth.ErrorResponse | Backend/src/main/java/com/udea/AnalisisFinanciero_back/DTO/AuthResponse.java:71-76 | a message with status ERROR, type "Bearer", and every success field (token, id, names, e-mail, role, permissions) left empty |
| Auth.ValidarEstadoUsuario | Backend/src/main/java/com/udea/AnalisisFinanciero_back/service/AuthService.java:91-106 | passes exactly for status 1; a missing status is an error, status 3 is SUSPENDED, and any other status is INACTIVE |
| Auth.Login | Backend/src/main/java/com/udea/AnalisisFinanciero_back/service/AuthService.java:36-84 | an unknown e-mail is "Credenciales inválidas"; a user who fails the status check gets exactly that check's answer, before any authentication; an active user whose authentication fails gets "Credenciales inválidas"; it succeeds exactly for an active user who authenticates; every non-success leaves the users unchanged, and a success records today's access and reports the role, or "SIN_ROL" with no permissions |
| Auth.InactiveUsersNeverAuthenticate | Backend/src/main/java/com/udea/AnalisisFinanciero_back/service/AuthService.java:43-46 | a user who is not active gets the same answer whatever the authenticator does, and never a success |
| Auth.SuspendedUserIsToldSo | Backend/src/main/java/com/udea/AnalisisFinanciero_back/service/AuthService.java:97-99 | a suspended user is answered with the suspension message, whatever the password |
| Auth.LoginHttpStatusAsWritten | Backend/src/main/java/com/udea/AnalisisFinanciero_back/controller/AuthController.java:36-47 | the controller's mapping decides on type, so a response with the default type gets 200 |
| Auth.AsWrittenAlwaysOk | Backend/src/main/java/com/udea/AnalisisFinanciero_back/controller/AuthController.java:40-46 | as written, every login response gets HTTP 200 |
| Auth.UnknownEmailAnsweredOk | Backend/src/main/java/com/udea/AnalisisFinanciero_back/controller/AuthController.java:40-46 | as written, an unknown e-mail gets an ERROR response with HTTP 200 |
| Auth.LoginHttpStatus | Backend/src/main/java/com/udea/AnalisisFinanciero_back/controller/AuthController.java:36-47 | corrected: ERROR and INACTIVE give 401, SUSPENDED gives 403, anything else 200 |
| Auth.LoginStatusCodes | Backend/src/main/java/com/udea/AnalisisFinanciero_back/controller/AuthController.java:30-47 | corrected: 200 exactly on success, 403 exactly for a suspended user, 401 otherwise, as the documented responses promise |
| Validators.IndexOf | Frontend/src/utils/validators.js:7 | the first position of a character, and none exactly when it does not occur |
| Validators.ValidateEmail | Frontend/src/utils/validators.js:6-9 | an accepted e-mail has a single '@' that is neither first nor last, and no white space |
| Validators.ValidateEmailIsPattern | Frontend/src/utils/validators.js:7 | accepts exactly the strings of the form A@B.C where A, B and C are non-empty and free of white space and '@', and B may contain dots |
| Validators.ValidEmailShape | Frontend/src/utils/validators.js:7 | an accepted e-mail holds exactly one '@' and no white space |
| Validators.LeadingSpaces | Frontend/src/utils/validators.js:27 | counts exactly the white-space characters the string starts with |
| Validators.TrailingSpaces | Frontend/src/utils/validators.js:27 | counts exactly the white-space characters the string ends with |
| Validators.Trim | Frontend/src/utils/validators.js:27 | a slice of the input with only white space around it, which neither begins nor ends with white space |
| Validators.TrimEmptyIffBlank | Frontend/src/utils/validators.js:27 | trimming gives the empty string exactly when every character is white space |
| Validators.ValidateRequired | Frontend/src/utils/validators.js:26-28 | false for null and undefined; for text, true exactly when a character is not white space |
| Validators.ValidateMinLength | Frontend/src/utils/validators.js:36-38 | false for null or empty whatever the bound; otherwise true exactly when the length reaches the bound |
| Validators.MinLengthDoesNotTrim | Frontend/src/utils/validators.js:26-38 | a single space passes a minimum length of 1 but is not accepted as required |
| Formatters.ClampIndex | Frontend/src/utils/formatters.js:64 | the end index substring uses: within 0 and the length, and the bound itself when it is in range |
| Formatters.TruncateText | Frontend/src/utils/formatters.js:62-65 | unchanged when the length is at most the limit; otherwise the first limit characters (none for a negative limit) followed by "..." |
| Formatters.TruncateTextDefault | Frontend/src/utils/formatters.js:62 | with no limit given, 50 applies: longer texts become their first 50 characters plus "..." |
| Formatters.TruncatedStartsWithText | Frontend/src/utils/formatters.js:62-65 | the result is a prefix of the text, possibly followed by "..." |
| Formatters.TruncateLengthBound | Frontend/src/utils/formatters.js:63-64 | for a non-negative limit the result length is the text's length when it fits, and limit + 3 otherwise |
| Formatters.TruncateCanLengthen | Frontend/src/utils/formatters.js:63-64 | a 51-character text with the default limit becomes 53 characters |
| Formatters.TruncateIdempotent | Frontend/src/utils/formatters.js:62-65 | truncating a second time with the same limit changes nothing |

## Left out

- HTTP controllers are not modelled, except the login status mapping described under Findings.
- The deprecated guardarDetalle and convertirEntidadADTO helpers are not modelled.
- Paging mechanics are outside the model: a page is what storage returns for a request.
- JPA persistence, lazy loading and entity identity are outside the model.
- Bean-validation annotations on the DTOs run at the HTTP boundary, not in the services, so they are not modelled.
- DataInitializer and EnvironmentValidator (seed data and configuration) are not modelled.
- Password hashing, the authentication manager, JWT creation and the clock are parameters of the model.
- Logging and the wrapping of unexpected exceptions in RuntimeException are not modelled.
- The user entity/DTO mapper (UsuarioMapper) is not part of this model. It appears as the function parameters `toEntity`, `toDto` and `merge`.
- The validation and not-found messages of the exceptions are not modelled. Only their field keys and entity names are.
- Database column scale and precision are not modelled: decimals are exact, and no rounding happens on save.
- The frontend's `validatePhone` is not modelled.
- The frontend's number and range validators, and the currency, date, number and percentage formatters, are not modelled. They depend on float parsing and Intl.
- UI components are not modelled.
- Validators.ValidateMinLength: the length is the number of characters, not UTF-16 code units, so texts with characters outside the Basic Multilingual Plane are measured differently.
- Formatters.TruncateText: has the same character-count difference from UTF-16 code units.
- Formatters.TruncateText: a null text, which throws in the source, is not modelled.
- LookupRules.ValidateCodigoFormat: the 2-to-20 length bound counts characters, while Java's `length()` counts UTF-16 code units. A code containing characters outside the Basic Multilingual Plane is measured differently: one such character alone passes in the source but not in the model, and eleven of them fail in the source but pass in the model.
- Usuarios.CrearUsuarioPorAdmin: takes the status id as a present number. The request's status id defaults to 1, but an explicit null is not rejected by bean validation. The source then fails with an IllegalArgumentException from the repository look-up rather than an "estadoId" validation error, and that case is not modelled.
- Auth.Login: JWT creation is a total function here. In the source, an exception thrown after the last-access date is saved (by the JWT provider or the permission mapping) is caught and answered "Credenciales inválidas" with that date already saved. The model cannot produce this case, so its promise that a non-success leaves the users unchanged does not cover it.
- LookupRules.CreateSort: a null sort field or direction fails with a null dereference in the source; the model takes both as present strings.
- DetalleService.MapToEntity: requires an owner id. It is only reached after validation has rejected a null one. The source would throw IllegalArgumentException from the repository.
- DetalleService.UpdateEntityFromDto: requires an owner id, for the same reason.
- DetalleMapper.ToDto: models both DetallePonderadoMapper.toDTO overloads. They differ only in the owner's field name.

## Findings

| source | as written | input that shows it | evidently intended | confidence | as-written member | corrected member |
|---|---|---|---|---|---|---|
| Backend/src/main/java/com/udea/AnalisisFinanciero_back/controller/AuthController.java:40-44 | the 401/403 choice compares `getType()` with "ERROR", "INACTIVE" and "SUSPENDED", but every AuthResponse factory leaves `type` at "Bearer", so every login is answered 200 | a login with an unregistered e-mail: the body has status ERROR and the HTTP status is 200 | compare `getStatus()`: 401 for ERROR and INACTIVE, 403 for SUSPENDED, as the endpoint's documented responses say | high, not executed | Auth.AsWrittenAlwaysOk | Auth.LoginStatusCodes |
