# Task manager backend: validation, services and handlers

This project models the request-handling core of a small Express/TypeScript REST backend for
tasks and users, and proves properties of that model.

- **Validation rules.** The model covers the express-validator rule sets for tasks, users and
  login, and the three regular expressions they use (EMAIL, ID, PASSWORD). It also models how a
  rule set turns a request into the ordered list of error messages, under these semantics:
  - an absent field is checked as the empty string;
  - every validator in a chain runs, so there is no bailing out early;
  - chains report in the order they are declared;
  - `.optional()` skips a chain only when the field is absent;
  - a failure whose `withMessage` text is empty is recorded with the library's default text,
    "Invalid value".
- **Services.** The task and user services are modelled. Each awaits one repository call. In
  the lookups, updates and deletions a NotFoundError passes through and anything else becomes
  a ServerError; the two creations turn every failure into a ServerError.
- **Handlers.**
  - The six task handlers write to the response object. Writes are modelled as a `Response`
    class that records every `res.status(..).json(..)`.
  - The registration handler and the login handler return early, so each answers once.
    They are modelled as functions.

The repositories, Mongoose's ObjectId constructor, bcrypt and jsonwebtoken are foreign
collaborators. Each is a function parameter that either returns a value or throws
(`Domain.Outcome`).

Module layout:

- `wrappers.dfy` holds `Option`.
- `domain.dfy` holds the entities.
- `messages.dfy` holds the response and validation texts.
- `errors.dfy` holds NotFoundError and ServerError and the two catch shapes.
- `regexps.dfy` holds the three patterns.
- `validation.dfy` is the express-validator engine.
- `field_errors.dfy` gives reference case definitions of each field's messages.
- `task_rules.dfy`, `auth_rules.dfy` and `user_rules.dfy` hold the rule sets.
- `task_service.dfy` and `user_service.dfy` hold the services.
- `http.dfy` holds the response bodies and the recording `Response` class.
- `task_controller.dfy`, `user_controller.dfy` and `auth_controller.dfy` hold the handlers.

Validation is modelled in two ways. The engine runs the declared rules. Separately,
`FieldErrors` writes each field's message list out by cases: which length, membership or
pattern condition fails. The `*ChainErrors` and `*Errors` members prove that the two
definitions agree for every request.

## Model

| member | source | states |
|---|---|---|
| RegExps.PasswordRegexCharacterization | src/domain/domainResources/validationRegExp.ts:35 | PASSWORD_REGEX holds exactly when the string is non-empty, has no line terminator, and contains a lower-case letter, an upper-case letter, a digit and a non-word character or underscore |
| RegExps.MatchesIdRegex | src/domain/domainResources/validationRegExp.ts:28 | definition of ID_REGEX: a non-empty run of digits and lower-case hex letters; proved about in `RegExps.IdRegexRejectsUpperCase` |
| RegExps.MatchesPasswordRegex | src/domain/domainResources/validationRegExp.ts:35 | definition of PASSWORD_REGEX: four lookaheads over a non-empty single line; characterized by `RegExps.PasswordRegexCharacterization` |
| RegExps.MatchesEmailRegex | src/domain/domainResources/validationRegExp.ts:21 | definition of EMAIL_REGEX as some reading of the string that succeeds, which is how the pattern backtracks; decided by `RegExps.EmailRegexDecided` |
| RegExps.FirstIndex | src/domain/domainResources/validationRegExp.ts:21 | returns the position of the first occurrence of a character, or the length when there is none |
| RegExps.LastIndex | src/domain/domainResources/validationRegExp.ts:21 | returns the position of the last occurrence of a character, or -1 when there is none |
| RegExps.EmailRegexDecided | src/domain/domainResources/validationRegExp.ts:21 | EMAIL_REGEX, which may backtrack, holds exactly when the split at the first '@' and the last '.' succeeds: a non-empty local part, a non-empty domain, and a top-level domain of at least two letters. A matching address has exactly one '@' |
| RegExps.IdRegexRejectsUpperCase | src/domain/domainResources/validationRegExp.ts:28 | every id ID_REGEX accepts is free of upper-case hex digits |
| RegExps.IdRegexAcceptsShortId | src/domain/domainResources/validationRegExp.ts:28 | ID_REGEX has no length bound of its own (a 23-digit id matches) |
| RegExps.IdRegexRejectsMixedCaseId | src/domain/domainResources/validationRegExp.ts:28 | a 24-character id with one upper-case digit is rejected |
| RegExps.PasswordRegexAcceptsFourCharacters | src/domain/domainResources/validationRegExp.ts:35 | "aA1!" matches, since the pattern itself sets no minimum length |
| RegExps.PasswordRegexAcceptsFixture | tests/testInput.ts:23 | the fixture password matches PASSWORD_REGEX |
| RegExps.PasswordRegexRejectsLineBreak | src/domain/domainResources/validationRegExp.ts:35 | a password containing a line break does not match, because `.` stops at line terminators |
| RegExps.EmailRegexAcceptsFixture | tests/testInput.ts:22 | the fixture email matches |
| RegExps.EmailRegexRejectsNoPrefix | tests/testInput.ts:32 | "@mail.com" is rejected |
| RegExps.EmailRegexRejectsNoAt | tests/testInput.ts:33 | "randommail.com" is rejected |
| RegExps.EmailRegexRejectsNoDomain | tests/testInput.ts:34 | "random@.com" is rejected |
| RegExps.EmailRegexRejectsNoDot | tests/testInput.ts:35 | "random@mailcom" is rejected |
| RegExps.EmailRegexRejectsNoTopLevelDomain | tests/testInput.ts:36 | "random@mail." is rejected |
| Validation.FieldValue | src/presentation/middleware/taskRules.validation.ts:21 | a field is present exactly when the body (or, for `header`, the headers) has it, and then its value is the one stored there |
| Validation.AsInput | src/presentation/middleware/taskRules.validation.ts:21-23 | definition: the standard validators see an absent field as the empty string |
| Validation.Accepts | src/presentation/middleware/taskRules.validation.ts:21-55 | definition of `notEmpty`, `isLength` (inclusive bounds), `matches` and `isIn` (exact membership) |
| Validation.RunRules | src/presentation/middleware/taskRules.validation.ts:21-27 | a chain's validators report at most one message each; the list is empty exactly when every validator accepts; every message reported belongs to a failing validator |
| Validation.RunRulesReportsEveryFailure | src/presentation/middleware/taskRules.validation.ts:21-27 | no failure goes unreported: every validator that rejects the input contributes its message, as no chain bails out |
| Validation.Reported | src/presentation/middleware/userRules.validation.ts:10-13 | the text a failure is recorded with is never empty: the rule's own `withMessage` text when it has one, otherwise express-validator's default "Invalid value" |
| Validation.RuleErrors | src/presentation/middleware/taskRules.validation.ts:22-23 | definition of one validator's contribution when it rejects: its `withMessage` text, or express-validator's default "Invalid value" when that text is empty (`Validation.Reported`); what it means for a chain is stated by `Validation.RunRules` |
| Validation.RunChain | src/presentation/middleware/taskRules.validation.ts:56-61 | a chain reports nothing exactly when it is optional and the field is absent, or when every validator accepts the value |
| Validation.Validate | src/presentation/middleware/taskRules.validation.ts:19-38 | definition of `validationResult` after the chains ran in order: their messages concatenated; its properties are stated by `Validation.ValidateClean` and `Validation.ValidateAppend` |
| Validation.ValidateClean | src/presentation/middleware/taskRules.validation.ts:19-38 | a rule set reports nothing exactly when every one of its chains reports nothing |
| Validation.RunRulesAppend | src/presentation/middleware/taskRules.validation.ts:21-27 | the messages of a split chain are the messages of its parts, in order |
| Validation.ValidateAppend | src/presentation/middleware/taskRules.validation.ts:19-38 | the messages of a split rule set are the messages of its parts, in order |
| Validation.RunRulesUnfold | src/presentation/middleware/taskRules.validation.ts:21-27 | a chain of one to three validators reports their messages in declaration order |
| Validation.ValidateOne | src/presentation/middleware/taskRules.validation.ts:79-89 | a one-chain rule set reports exactly that chain's messages |
| Validation.ValidateTwo | src/auth/authRules.validation.ts:17-34 | a two-chain rule set reports the chains' messages in order |
| Validation.ValidateThree | src/presentation/middleware/taskRules.validation.ts:19-38 | a three-chain rule set reports the chains' messages in order |
| Validation.ValidateFour | src/presentation/middleware/taskRules.validation.ts:46-71 | a four-chain rule set reports the chains' messages in order |
| TaskRules.RequiredSubjectChainErrors | src/presentation/middleware/taskRules.validation.ts:21-27 | the required subject chain reports the required, minimum-10 and maximum-100 messages by case |
| TaskRules.RequiredSubjectChain | src/presentation/middleware/taskRules.validation.ts:21-27 | declaration: the subject is required, at least 10 and at most 100 characters |
| TaskRules.DescriptionChain | src/presentation/middleware/taskRules.validation.ts:28-31 | declaration: the description is optional, at most 300 characters |
| TaskRules.RequiredStatusChain | src/presentation/middleware/taskRules.validation.ts:32-36 | declaration: the status is required and one of Pending or Complete |
| TaskRules.TaskIdChain | src/presentation/middleware/taskRules.validation.ts:49-55 | declaration: the id is required, matches ID_REGEX and has exactly 24 characters |
| TaskRules.TaskCreationRules | src/presentation/middleware/taskRules.validation.ts:19-38 | declaration: subject, description, status |
| TaskRules.TaskUpdateRules | src/presentation/middleware/taskRules.validation.ts:46-71 | declaration: id, then optional subject, description and optional status |
| TaskRules.TaskDeletionRules | src/presentation/middleware/taskRules.validation.ts:79-89 | declaration: the id chain alone |
| TaskRules.TaskFetchingByUsernameRules | src/presentation/middleware/taskRules.validation.ts:97-107 | declaration: a required username of 3 to 20 characters |
| TaskRules.TaskFetchingBySubjectRules | src/presentation/middleware/taskRules.validation.ts:115-125 | declaration: the required subject chain |
| TaskRules.TaskFetchingByStatusRules | src/presentation/middleware/taskRules.validation.ts:133-141 | declaration: the required status chain |
| FieldErrors.RequiredSubjectErrors | src/presentation/middleware/taskRules.validation.ts:21-27 | reference definition by cases of a required subject's messages; `TaskRules.RequiredSubjectChainErrors` proves the chain gives it |
| FieldErrors.OptionalSubjectErrors | src/presentation/middleware/taskRules.validation.ts:56-61 | reference definition by cases of an optional subject's messages |
| FieldErrors.DescriptionErrors | src/presentation/middleware/taskRules.validation.ts:28-31 | reference definition of the description's message |
| FieldErrors.RequiredStatusErrors | src/presentation/middleware/taskRules.validation.ts:32-36 | reference definition by cases of a required status's messages |
| FieldErrors.OptionalStatusErrors | src/presentation/middleware/taskRules.validation.ts:66-69 | reference definition of an optional status's message |
| FieldErrors.TaskIdErrors | src/presentation/middleware/taskRules.validation.ts:49-55 | reference definition by cases of an id's messages: character class and length judged independently |
| FieldErrors.UsernameErrors | src/presentation/middleware/taskRules.validation.ts:99-105 | reference definition by cases of a username's messages |
| FieldErrors.LoginPasswordErrors | src/auth/authRules.validation.ts:26-32 | reference definition by cases of a login password's messages |
| FieldErrors.AuthorizationErrors | src/auth/authRules.validation.ts:44-46 | reference definition of the header's message |
| FieldErrors.RegistrationFieldErrors | src/presentation/middleware/userRules.validation.ts:10-13 | reference definition of one registration field's message: "Invalid value", the library's default for the empty `withMessage`, exactly when the field is missing or empty |
| TaskRules.OptionalSubjectChainErrors | src/presentation/middleware/taskRules.validation.ts:56-61 | the optional update subject reports nothing when absent, otherwise the length messages by case |
| TaskRules.DescriptionChainErrors | src/presentation/middleware/taskRules.validation.ts:28-31 | the optional description reports the maximum-300 message exactly when present and too long |
| TaskRules.RequiredStatusChainErrors | src/presentation/middleware/taskRules.validation.ts:32-36 | the required status reports "required" when empty, and "invalid" when it is not exactly Pending or Complete |
| TaskRules.OptionalStatusChainErrors | src/presentation/middleware/taskRules.validation.ts:66-69 | the optional update status reports only "invalid", and only when it is present |
| TaskRules.TaskIdChainErrors | src/presentation/middleware/taskRules.validation.ts:49-55 | the id reports required, ID_REGEX and exactly-24 messages, each by its own case |
| TaskRules.UsernameChainErrors | src/presentation/middleware/taskRules.validation.ts:99-105 | the username reports required, minimum-3 and maximum-20 messages by case |
| TaskRules.TaskCreationErrors | src/presentation/middleware/taskRules.validation.ts:19-38 | creation reports the subject's, then the description's, then the status's messages |
| TaskRules.TaskUpdateErrors | src/presentation/middleware/taskRules.validation.ts:46-71 | update reports the id's, the optional subject's, the description's and the optional status's messages, in that order |
| TaskRules.TaskDeletionErrors | src/presentation/middleware/taskRules.validation.ts:79-89 | deletion reports exactly the id's messages |
| TaskRules.TaskFetchingByUsernameErrors | src/presentation/middleware/taskRules.validation.ts:97-107 | fetching by username reports exactly the username's messages |
| TaskRules.TaskFetchingBySubjectErrors | src/presentation/middleware/taskRules.validation.ts:115-125 | fetching by subject reports exactly the required subject's messages |
| TaskRules.TaskFetchingByStatusErrors | src/presentation/middleware/taskRules.validation.ts:133-141 | fetching by status reports exactly the required status's messages |
| TaskRules.CreationWithoutSubjectAndStatus | src/presentation/middleware/taskRules.validation.ts:19-38 | messages accumulate across fields: a missing subject and status give four messages, the subject's first |
| TaskRules.UpdateWithoutId | src/presentation/middleware/taskRules.validation.ts:49-55 | an empty body reports all three id messages, for update and for deletion |
| TaskRules.UpdateWithIdOnly | src/presentation/middleware/taskRules.validation.ts:46-71 | a well-formed id alone passes the update rules |
| AuthRules.UsernameChainErrors | src/auth/authRules.validation.ts:19-25 | the login username reports required, minimum-3 and maximum-20 messages by case |
| AuthRules.UserLoginRules | src/auth/authRules.validation.ts:17-34 | declaration: username of 3 to 20 characters, password of at least 7 matching PASSWORD_REGEX |
| AuthRules.HeaderValidationRules | src/auth/authRules.validation.ts:42-48 | declaration: the Authorization header is required |
| AuthRules.PasswordChainErrors | src/auth/authRules.validation.ts:26-32 | the login password reports required, minimum-7 and PASSWORD_REGEX messages by case |
| AuthRules.LoginErrors | src/auth/authRules.validation.ts:17-34 | login reports the username's messages, then the password's |
| AuthRules.HeaderErrors | src/auth/authRules.validation.ts:42-48 | the header rule reports its message exactly when the Authorization header is missing or empty |
| AuthRules.LoginWithoutCredentials | src/auth/authRules.validation.ts:17-34 | an empty login body reports five messages: two for the username, then three for the password |
| UserRules.PresenceChainErrors | src/presentation/middleware/userRules.validation.ts:10-13 | each registration field reports "Invalid value" (its `withMessage` text is empty, so the library's default is recorded) exactly when it is missing or empty |
| UserRules.PresenceChain | src/presentation/middleware/userRules.validation.ts:10-13 | declaration: a required field with the empty message |
| UserRules.UserRegistrationRules | src/presentation/middleware/userRules.validation.ts:8-15 | declaration: username, email, password and role, each required |
| UserRules.RegistrationErrors | src/presentation/middleware/userRules.validation.ts:8-15 | registration reports username, email, password and role, in that order |
| UserRules.RegistrationAccepts | src/presentation/middleware/userRules.validation.ts:8-15 | registration passes exactly when all four fields are present and non-empty |
| UserRules.RegistrationMessagesDefault | src/presentation/middleware/userRules.validation.ts:10-13 | every registration message is express-validator's default "Invalid value", since each rule's own message is empty |
| UserRules.RegistrationAcceptsShortUsername | src/presentation/middleware/userRules.validation.ts:10 | registration checks no length, so a two-character username passes |
| Errors.RethrowNotFound | src/service/task.service.ts:39-44 | definition of the catch block of the lookups, updates and deletions: a NotFoundError is rethrown, any other failure becomes a ServerError with the service's message; nothing but a NotFoundError or ServerError escapes (`Classified`) |
| Errors.WrapAll | src/service/task.service.ts:112-114 | definition of the catch block of the creations: every failure becomes a ServerError with the service's message; nothing but a ServerError escapes (`Classified`) |
| Errors.ListAttempt | src/service/task.service.ts:33-38 | definition: a repository list is the result unless it is empty, which is a NotFoundError; a throw is kept as a foreign error |
| Errors.RecordAttempt | src/service/task.service.ts:85-90 | definition: a repository record is the result unless it is `null`, which is a NotFoundError |
| TaskService.RetrieveTasksByStatus | src/service/task.service.ts:31-45 | answers Ok with the repository's list exactly when it is non-empty, NotFound exactly for an empty list, and ServerError exactly when the repository throws |
| TaskService.RetrieveTasksByUsername | src/service/task.service.ts:56-72 | the same three-way classification over the username query |
| TaskService.ListQueriesAgree | src/service/task.service.ts:31-72 | the two list queries report the same result for the same repository answer |
| TaskService.RetrieveTaskBySubject | src/service/task.service.ts:83-97 | Ok with the task found, NotFound for `null`, ServerError when the repository throws |
| TaskService.CreateTaskRecord | src/service/task.service.ts:108-115 | succeeds exactly when the save does and never reports NotFound |
| TaskService.UpdateTaskRecord | src/service/task.service.ts:126-153 | converts the id first; when conversion throws, answers a ServerError; otherwise sends exactly subject, description and status, then classifies the answer |
| TaskService.UpdateSent | src/service/task.service.ts:131-136 | definition: the update hands the repository subject, description and status only |
| TaskService.UpdateSendsOnlyTaskFields | src/service/task.service.ts:131-140 | two repositories that agree on the record sent yield the same result |
| TaskService.DeleteTaskRecord | src/service/task.service.ts:164-180 | deletion of a converted id: Ok with the removed task, NotFound for `null`, ServerError otherwise |
| UserService.RetrieveUsersByRole | src/service/user.service.ts:49-63 | Ok exactly for a non-empty list, NotFound "Users were not found" for an empty one, ServerError "Server Error" when the repository throws |
| UserService.RetrieveUserByUsername | src/service/user.service.ts:73-90 | Ok with the user found, NotFound for `null`, ServerError when the repository throws |
| UserService.RetrieveUserByEmail | src/service/user.service.ts:100-115 | the same three-way classification over the email query |
| UserService.UserLookupsAgree | src/service/user.service.ts:73-115 | the two lookups report the same result for the same repository answer |
| UserService.CreateUserProfile | src/service/user.service.ts:125-134 | succeeds exactly when the save does; any failure is a ServerError |
| UserService.UpdateProfileAsGeneralUser | src/service/user.service.ts:145-184 | hashes, at cost 10, exactly when the id converts and the password is truthy; yet the record sent holds only username and email |
| Domain.Truthy | src/service/user.service.ts:153 | definition of JavaScript truthiness for a body field: present and not the empty string |
| UserService.GeneralUpdateDropsPassword | src/service/user.service.ts:152-165 | for a request with a new password, the password is hashed but the record sent has no password |
| UserService.UpdateProfileAsGeneralUserWithPassword | src/service/user.service.ts:145-184 | the corrected update sends the hashed password whenever it hashed, and otherwise the profile alone |
| UserService.UpdateProfileAsAdminUser | src/service/user.service.ts:195-222 | converts the id, then sends only the role and classifies the answer |
| UserService.DeleteUserProfile | src/service/user.service.ts:232-251 | as written: a failure other than NotFound becomes a ServerError carrying "User was not found" |
| UserService.DeletionFailureReadsAsMissingUser | src/service/user.service.ts:244-249 | a deletion whose id conversion throws, or whose repository call throws, reports a ServerError whose text says the user was not found |
| UserService.DeleteUserProfileWithServerMessage | src/service/user.service.ts:232-251 | the corrected deletion reports "Server Error" on failure, which never reads as a missing user |
| Http.Response.constructor | src/presentation/controllers/task.controller.ts:35 | a fresh response has recorded no writes |
| Http.Response.Json | src/presentation/controllers/task.controller.ts:42-44 | each `res.status(..).json(..)` appends exactly one write and changes nothing else |
| TaskController.RejectionWrites | src/presentation/controllers/task.controller.ts:36-45 | definition of the validation block's writes: one 400 with the messages when validation failed; its effect on each handler is stated by `TaskController.CreateTaskWrites` and `TaskController.HandlerWrites` |
| TaskController.CreateCatchWrites | src/presentation/controllers/task.controller.ts:57-64 | definition of the create catch: one 500, carrying the message only of a ServerError; stated for the handler by `TaskController.CreateTaskWrites` |
| TaskController.CatchWrites | src/presentation/controllers/task.controller.ts:110-121 | the other catches write two responses (404, then a 500 without message) exactly for a NotFoundError, and one 500 otherwise |
| TaskController.RecordsIgnoreOtherFields | src/presentation/controllers/task.controller.ts:48-54 | the records built for the service depend only on id, subject, description, status and username |
| TaskController.NewTaskFromBody | src/presentation/controllers/task.controller.ts:48-54 | definition: the new task holds exactly subject, description, status and username of the body |
| TaskController.TaskUpdateFromBody | src/presentation/controllers/task.controller.ts:100-106 | definition: the update holds exactly id, subject, description and status of the body |
| TaskController.Created | src/presentation/controllers/task.controller.ts:56 | definition: a saved task answers 201 with the created message |
| TaskController.Updated | src/presentation/controllers/task.controller.ts:109 | definition: an updated task answers 200 with the updated message |
| TaskController.Deleted | src/presentation/controllers/task.controller.ts:160 | definition: a deleted task answers 204 with an empty object |
| TaskController.TasksFound | src/presentation/controllers/task.controller.ts:211 | definition: a task list answers 200 with the list as `data` |
| TaskController.TaskFound | src/presentation/controllers/task.controller.ts:262 | definition: a task answers 200 with the task as `data` |
| Http.BadRequestWrite | src/presentation/controllers/task.controller.ts:38-44 | definition: a 400 with the bad-request message and the validation messages in order |
| TaskController.CreateTaskWrites | src/presentation/controllers/task.controller.ts:35-64 | a valid request gets one write and a rejected one two: the 400 first, since the service is still called; the last write is the success, or a 500 carrying the message only of a ServerError |
| TaskController.HandlerWrites | src/presentation/controllers/task.controller.ts:88-122 | the five other handlers write the success or the catch's writes, preceded by the 400 when validation failed; exactly one write happens only for a valid request whose outcome is not a NotFound |
| TaskController.NotFoundAnsweredTwice | src/presentation/controllers/task.controller.ts:110-121 | a service NotFound is answered by a 404 with its message and then a 500 without one, after any 400 |
| TaskController.ServerErrorAnsweredOnce | src/presentation/controllers/task.controller.ts:110-121 | a valid request whose service reports a ServerError gets exactly one 500 with its message |
| TaskController.RejectIfInvalid | src/presentation/controllers/task.controller.ts:36-45 | appends the validation block's writes to the response |
| TaskController.WriteCaught | src/presentation/controllers/task.controller.ts:110-121 | appends the catch block's writes to the response |
| TaskController.Handle | src/presentation/controllers/task.controller.ts:88-122 | appends the handler's whole sequence of writes to the response |
| TaskController.HandleCreation | src/presentation/controllers/task.controller.ts:35-64 | appends `createTask`'s whole sequence of writes to the response |
| TaskController.CreateTask | src/presentation/controllers/task.controller.ts:35-64 | records the writes of validation, `createTaskRecord` and the 201 or the catch |
| TaskController.UpdateTask | src/presentation/controllers/task.controller.ts:88-122 | records the writes of validation, `updateTaskRecord` and the 200 or the catch |
| TaskController.DeleteTask | src/presentation/controllers/task.controller.ts:145-173 | records the writes of validation, `deleteTaskRecord` and the 204 with an empty body or the catch |
| TaskController.FetchTasksByUsername | src/presentation/controllers/task.controller.ts:196-224 | records the writes of validation, then the 200 with the list or the catch |
| TaskController.FetchTaskBySubject | src/presentation/controllers/task.controller.ts:247-275 | records the writes of validation, then the 200 with the task or the catch |
| TaskController.FetchTasksByStatus | src/presentation/controllers/task.controller.ts:298-325 | records the writes of validation, then the 200 with the list or the catch |
| TaskController.SingleResponse | src/presentation/controllers/task.controller.ts:36-45 | the corrected handler writes exactly one response: the 400 with the messages when validation failed, otherwise the success, the 404 with the NotFoundError's message, or a 500 that carries the ServerError's message |
| TaskController.UpdateTaskReturningEarly | src/presentation/controllers/task.controller.ts:88-122 | the corrected update handler records exactly that one write |
| UserController.CaughtResponse | src/presentation/controllers/user.controller.ts:41-53 | definition of the registration catch: 404 or 500 with the error's message, nothing for other errors; related to the task catch by `UserController.CaughtResponseIsFirstCatchWrite` |
| UserController.RegisterUser | src/presentation/controllers/user.controller.ts:17-54 | a failed validation answers 400 with the messages; otherwise the result is the 201 or the caught error of `createUserProfile` |
| UserController.NewUserFromBody | src/presentation/controllers/user.controller.ts:30-35 | definition: the new user holds username, email and password of the body, and no role |
| UserController.RegistrationAlwaysAnswers | src/presentation/controllers/user.controller.ts:17-54 | every registration gets a response |
| UserController.RejectedRegistrationSkipsService | src/presentation/controllers/user.controller.ts:19-27 | a rejected registration does not depend on the repository |
| UserController.RoleIsIgnored | src/presentation/controllers/user.controller.ts:30-35 | the saved user does not depend on the body's role |
| UserController.CaughtResponseIsFirstCatchWrite | src/presentation/controllers/user.controller.ts:41-53 | the registration catch answers a NotFound or ServerError with exactly the first write of the task handlers' catch (for a ServerError, all of it), and answers nothing where the task catch writes a bare 500 |
| AuthController.LoginUser | src/auth/auth.controller.ts:37-77 | answers 400 exactly on validation errors, 401 Authentication failed for an unknown user or wrong password, 200 with the token signed over the username for one hour on success, and 500 exactly when a collaborator throws; it calls the collaborators only in order |
| AuthController.FailedLoginsIndistinguishable | src/auth/auth.controller.ts:53-60 | an unknown user and a wrong password get the same response |
| AuthController.UnknownUserSkipsCompareAndSign | src/auth/auth.controller.ts:51-55 | when the lookup finds no user the run does not depend on the password comparison or the signing |
| AuthController.WrongPasswordSkipsSign | src/auth/auth.controller.ts:57-60 | when the password does not match the run does not depend on the signing |
| AuthController.InvalidLoginSkipsLookup | src/auth/auth.controller.ts:38-47 | a request that fails validation never reaches the user lookup |

## Left out

- Repositories and Mongoose schemas. The task and user repositories, and the schemas' trimming, lower-casing, defaults and uniqueness indexes, are not modelled. The services take each repository call as a function parameter. The user repository as shown defines neither `getUsersByRole` nor `deleteUserInfo`; with parameters, a call to a missing function is the "throws" case.
- ObjectId conversion, bcrypt `hash`/`compare` and `jwt.sign`: each is a parameter. The signing key from the environment is a parameter, too.
- `verifyToken` and the routes are not part of this model.
- `retrieveAllUsers` is not modelled. It calls a repository function that does not exist and does not await it.
- The user update rules and the other user rule stubs in `userRules.validation.ts:17-23` are not modelled. They declare no checks.
- Validation.FieldValue: `check()` searches the body, cookies, headers, params and query. The model reads only the body (and, for `header`, the headers), because every request these rules see carries its fields in the body.
- Only JSON string values and absent fields are modelled. Numbers, arrays and objects in a body, and validator.js's conversion to string, are not.
- Validation.Accepts: `isLength` counts every character. validator.js does not count U+FE0E and U+FE0F.
- Header names are matched case-sensitively, in lower case, as Node stores them. Node's case-insensitive lookup is not modelled.
- Http.Response.Json records every attempted write, which is what the handlers' test doubles see, not what a client receives. In Express the second `res.status(..).json(..)` of a task handler throws. If that write is inside the `try` (a 400 followed by the success write), the `catch` attempts a 500, which throws out of the async handler. If it is already inside the `catch` (a 400 followed by a failure, or a 404 followed by the 500), it throws out of the handler directly. Only the first response reaches the client.
- The handlers read `NotFoundError.httpCode` and `ServerError.httpCode` from the class, where the classes declare them per instance. The model uses 404 and 500, the codes the error classes declare (`src/service/errors/notFound.error.ts:13`, `src/service/errors/server.error.ts:13`).
- The 409 UniqueConstraintError is not modelled. Nothing in the modelled core raises it.
- Asynchrony is not modelled; every await runs to completion in order. `console.log` is left out.
- Response and validation message texts that the modelled core never sends are not declared.

## Findings

| source | as written | input that shows it | evidently intended | confidence | as-written member | corrected member |
|---|---|---|---|---|---|---|
| src/presentation/controllers/task.controller.ts:36-45 | the 400 block does not `return`, so the service is still called and a second response is written | a create request with an empty body: a 400, then the service's 201 or 500 | answer the 400 and stop, as the user and auth handlers do | not executed | TaskController.CreateTaskWrites | TaskController.SingleResponse |
| src/presentation/controllers/task.controller.ts:110-121 | after the 404 for a NotFoundError the catch falls through and also writes a 500 | an update whose repository answers `null` | answer the 404 alone | not executed | TaskController.NotFoundAnsweredTwice | TaskController.UpdateTaskReturningEarly |
| src/service/user.service.ts:152-165 | the hashed password is stored in `userToUpdate`, which is then reassigned to a record without it | an update with id, username, email and a new password: the hash is computed, but the record sent has no password | send the hashed password with the profile | not executed | UserService.GeneralUpdateDropsPassword | UserService.UpdateProfileAsGeneralUserWithPassword |
| src/service/user.service.ts:249 | the ServerError of `deleteUserProfile` carries USER_NOT_FOUND | a deletion whose id conversion or repository call throws: a 500 reading "User was not found" | SERVER_ERROR, as in every other user-service function | not executed | UserService.DeletionFailureReadsAsMissingUser | UserService.DeleteUserProfileWithServerMessage |
