/**
 * The message catalogs of the backend, transcribed as constants. They carry no
 * behaviour; their texts are part of the responses the handlers write.
 */
module Messages {

  // Task validation messages (src/domain/domainResources/taskValidationMessages.ts).
  const SubjectRequired := "Subject is a required field"
  const SubjectMaxLength := "Subject must be no longer than 100 characters"
  const SubjectMinLength := "Subject must be at least 10 characters long"
  const DescriptionMaxLength := "Description must be no longer than 300 characters"
  const StatusRequired := "Status is a required field"
  const StatusInvalid := "\n  **Status must be one of the following categories**:\n  - **Pending**,\n  - **Complete**\n  "
  const TaskIdRequired := "Task ID is a required field"
  const TaskIdInvalid := "Task ID must only contain alphanumeric characters"
  const TaskIdLength := "Task ID must be 24 characters long"

  // User validation messages (src/domain/domainResources/userValidationMessages.ts).
  const UsernameRequired := "Username is a required field"
  const UsernameMaxLength := "Username must be no longer than 20 characters"
  const UsernameMinLength := "Username must be at least 3 characters long"
  const PasswordRequired := "Password is a required field"
  const PasswordMinLength := "Password must be at least 7 characters long"
  const PasswordMustHaveCharacters := "\n  **Password must contain at one of the following:\n  - **one lowercase character**,\n  - **one uppercase character**,\n  - **one number**,\n  - **one special symbol**\n  "

  // Authentication messages (src/auth/authResponseMessages.ts).
  const AuthFailed := "Authentication failed"
  const AuthHeaderRequired := "Authorization header is required"

  // Controller response messages (src/presentation/resources/responseMessages.ts).
  const UserRegistered := "Successful user registration"
  const TaskCreated := "Successful task creation"
  const TaskUpdated := "Successful task update"
  const BadRequestMessage := "Bad request"

  // Task service messages (src/service/serviceResources/taskService.response.ts and
  // commonService.response.ts, which the task service and the login handler use).
  const TaskNotFound := "Task was not found"
  const TasksNotFound := "Task were not found"
  const CommonServerError := "Server error"

  // User service messages (src/service/serviceResources/serviceResponses.ts).
  const UserNotFound := "User was not found"
  const UsersNotFound := "Users were not found"
  const UserServerError := "Server Error"
}
