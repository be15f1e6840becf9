/**
 * The records the pipeline passes around, and the outcome of a call into a library.
 */
module Domain {
  import opened Wrappers

  /** A field of a JSON request body as JavaScript sees it: `undefined`, or a string. */
  type Value = Option<string>

  /** JavaScript truthiness of such a field: defined and not the empty string. */
  predicate Truthy(v: Value) {
    v.Some? && v.value != ""
  }

  /** The outcome of a call into code outside the model (the database, bcrypt, jsonwebtoken,
      the ObjectId constructor): it threw, or it returned a value. */
  datatype Outcome<+T> = Threw | Returned(value: T)

  /** The two task statuses (src/domain/enums/status.enum.ts). */
  const Pending := "Pending"
  const Complete := "Complete"

  datatype ObjectId = ObjectId(hex: string)

  /** A stored task document. */
  datatype Task = Task(id: ObjectId, subject: string, description: Value, status: string, username: string)

  /** A stored user document. */
  datatype User = User(id: ObjectId, username: string, email: string, password: string, role: Value)

  /** The fields a new task document is built from. */
  datatype TaskDraft = TaskDraft(subject: Value, description: Value, status: Value, username: Value)

  /** The task update request (src/presentation/interfaces/iTaskUpdate.interface.ts). */
  datatype TaskUpdate = TaskUpdate(id: Value, subject: Value, description: Value, status: Value)

  /** The object the task service hands to the repository's update. */
  datatype TaskChanges = TaskChanges(subject: Value, description: Value, status: Value)

  /** The fields a new user document is built from. */
  datatype UserDraft = UserDraft(username: Value, email: Value, password: Value)

  /** The profile update request of a general user (iUserUpdateGeneral.interface.ts). */
  datatype UserUpdateGeneral = UserUpdateGeneral(id: Value, username: Value, email: Value, password: Value)

  /** The role update request of an admin user (iUserUpdateAdmin.interface.ts). */
  datatype UserUpdateAdmin = UserUpdateAdmin(id: Value, role: Value)

  /** The object literals the user service builds for the repository's update. */
  datatype UserChanges =
    | NoChanges
    | Profile(username: Value, email: Value)
    | ProfileWithPassword(username: Value, email: Value, password: string)
    | RoleChange(role: Value)
}
