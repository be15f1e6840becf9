/**
 * src/service/user.service.ts: the user queries and updates, with the same catch rule as
 * the task service. The repository functions, the ObjectId constructor and bcrypt's `hash`
 * are parameters.
 */
module UserService {
  import opened Wrappers
  import opened Domain
  import opened Messages
  import opened Errors

  /** The bcrypt cost factor the profile update hashes with. */
  const SaltRounds := 10

  /** `retrieveUsersByRole`: the non-empty list, NotFound for an empty one, ServerError when
      the repository throws. */
  function RetrieveUsersByRole(role: Value, getUsersByRole: Value -> Outcome<seq<User>>): (r: Result<seq<User>>)
    ensures Classified(r)
    ensures r.Ok? <==> getUsersByRole(role).Returned? && getUsersByRole(role).value != []
    ensures r.Ok? ==> r.value == getUsersByRole(role).value
    ensures r == Err(NotFoundError(UsersNotFound)) <==> getUsersByRole(role) == Returned([])
    ensures r == Err(ServerError(UserServerError)) <==> getUsersByRole(role).Threw?
  {
    RethrowNotFound(ListAttempt(getUsersByRole(role), UsersNotFound), UserServerError)
  }

  /** `retrieveUserByUsername`: the user found, unchanged; NotFound for `null`. */
  function RetrieveUserByUsername(username: Value, getUserByUsername: Value -> Outcome<Option<User>>): (r: Result<User>)
    ensures Classified(r)
    ensures r.Ok? <==> getUserByUsername(username).Returned? && getUserByUsername(username).value.Some?
    ensures r.Ok? ==> r.value == getUserByUsername(username).value.value
    ensures r == Err(NotFoundError(UserNotFound)) <==> getUserByUsername(username) == Returned(None)
    ensures r == Err(ServerError(UserServerError)) <==> getUserByUsername(username).Threw?
  {
    RethrowNotFound(RecordAttempt(getUserByUsername(username), UserNotFound), UserServerError)
  }

  /** `retrieveUserByEmail`: the same shape over the email query. */
  function RetrieveUserByEmail(email: Value, getUserByEmail: Value -> Outcome<Option<User>>): (r: Result<User>)
    ensures Classified(r)
    ensures r.Ok? <==> getUserByEmail(email).Returned? && getUserByEmail(email).value.Some?
    ensures r.Ok? ==> r.value == getUserByEmail(email).value.value
    ensures r == Err(NotFoundError(UserNotFound)) <==> getUserByEmail(email) == Returned(None)
    ensures r == Err(ServerError(UserServerError)) <==> getUserByEmail(email).Threw?
  {
    RethrowNotFound(RecordAttempt(getUserByEmail(email), UserNotFound), UserServerError)
  }

  /** The two single-user lookups translate a repository answer identically. */
  lemma UserLookupsAgree(username: Value, email: Value,
                         getUserByUsername: Value -> Outcome<Option<User>>, getUserByEmail: Value -> Outcome<Option<User>>)
    requires getUserByUsername(username) == getUserByEmail(email)
    ensures RetrieveUserByUsername(username, getUserByUsername) == RetrieveUserByEmail(email, getUserByEmail)
  {
  }

  /** `createUserProfile`: the user is saved as given (no hashing here); it never reports
      NotFound, and every failure becomes a ServerError. */
  function CreateUserProfile(newUser: UserDraft, addUser: UserDraft -> Outcome<User>): (r: Result<User>)
    ensures Classified(r)
    ensures r.Ok? <==> addUser(newUser).Returned?
    ensures r.Ok? ==> r.value == addUser(newUser).value
    ensures r.Err? ==> r.error == ServerError(UserServerError)
  {
    var attempt := match addUser(newUser)
      case Threw => Err(ForeignError)
      case Returned(saved) => Ok(saved);
    WrapAll(attempt, UserServerError)
  }

  /** How the repository's answer to an update is reported, for the update whose id was
      converted and whose changes reached the repository. */
  predicate ReportsRecordAnswer(answer: Outcome<Option<User>>, r: Result<User>) {
    && (r.Ok? <==> answer.Returned? && answer.value.Some?)
    && (r.Ok? ==> r.value == answer.value.value)
    && (r == Err(NotFoundError(UserNotFound)) <==> answer == Returned(None))
    && (r == Err(ServerError(UserServerError)) <==> answer.Threw?)
  }

  /** `updateProfileAsGeneralUser`, as written. The id is converted first; a truthy password
      is hashed (cost 10) into a password-bearing update, but that update is then overwritten
      by one holding only username and email, which is what the repository receives. `hashed`
      says whether bcrypt was invoked and `sent` what reached the repository. */
  method UpdateProfileAsGeneralUser(info: UserUpdateGeneral, toObjectId: Value -> Outcome<ObjectId>,
                                    hash: (string, nat) -> Outcome<string>,
                                    updateUserInfo: (ObjectId, UserChanges) -> Outcome<Option<User>>)
    returns (hashed: bool, sent: Option<UserChanges>, r: Result<User>)
    ensures Classified(r)
    ensures hashed <==> toObjectId(info.id).Returned? && Truthy(info.password)
    ensures toObjectId(info.id).Threw? ==> sent.None? && r == Err(ServerError(UserServerError))
    ensures hashed && hash(info.password.value, SaltRounds).Threw? ==>
      sent.None? && r == Err(ServerError(UserServerError))
    ensures sent.Some? <==>
      toObjectId(info.id).Returned? && (!Truthy(info.password) || hash(info.password.value, SaltRounds).Returned?)
    ensures sent.Some? ==>
      && sent.value == Profile(info.username, info.email)
      && ReportsRecordAnswer(updateUserInfo(toObjectId(info.id).value, sent.value), r)
  {
    hashed, sent := false, None;
    var attempt: Result<User>;
    var id := toObjectId(info.id);
    if id.Threw? {
      attempt := Err(ForeignError);
    } else {
      var userToUpdate := NoChanges;
      var hashFailed := false;
      if Truthy(info.password) {
        hashed := true;
        var hashedPassword := hash(info.password.value, SaltRounds);
        if hashedPassword.Threw? {
          hashFailed := true;
        } else {
          userToUpdate := ProfileWithPassword(info.username, info.email, hashedPassword.value);
        }
      }
      if hashFailed {
        attempt := Err(ForeignError);
      } else {
        userToUpdate := Profile(info.username, info.email);
        sent := Some(userToUpdate);
        attempt := RecordAttempt(updateUserInfo(id.value, userToUpdate), UserNotFound);
      }
    }
    r := RethrowNotFound(attempt, UserServerError);
  }

  /** A request with a new password: the password is hashed, yet the update that reaches the
      repository carries no password. */
  method GeneralUpdateDropsPassword() returns (hashed: bool, sent: Option<UserChanges>)
    ensures hashed
    ensures sent == Some(Profile(Some("alice"), Some("alice@mail.com")))
  {
    var info := UserUpdateGeneral(Some("65f0a1b2c3d4e5f6a7b8c9d0"), Some("alice"), Some("alice@mail.com"), Some("5W]L8t1m4@PcTTO"));
    var r;
    hashed, sent, r := UpdateProfileAsGeneralUser(info, _ => Returned(ObjectId("65f0a1b2c3d4e5f6a7b8c9d0")),
      (_, _) => Returned("$2a$10$hash"), (_, _) => Returned(None));
  }

  /** `updateProfileAsGeneralUser` as evidently intended: the hashed password is part of the
      update the repository receives whenever a new password was supplied. */
  method UpdateProfileAsGeneralUserWithPassword(info: UserUpdateGeneral, toObjectId: Value -> Outcome<ObjectId>,
                                                hash: (string, nat) -> Outcome<string>,
                                                updateUserInfo: (ObjectId, UserChanges) -> Outcome<Option<User>>)
    returns (hashed: bool, sent: Option<UserChanges>, r: Result<User>)
    ensures Classified(r)
    ensures hashed <==> toObjectId(info.id).Returned? && Truthy(info.password)
    ensures toObjectId(info.id).Threw? ==> sent.None? && r == Err(ServerError(UserServerError))
    ensures hashed && hash(info.password.value, SaltRounds).Threw? ==>
      sent.None? && r == Err(ServerError(UserServerError))
    ensures sent.Some? <==>
      toObjectId(info.id).Returned? && (!Truthy(info.password) || hash(info.password.value, SaltRounds).Returned?)
    ensures sent.Some? && hashed ==>
      sent.value == ProfileWithPassword(info.username, info.email, hash(info.password.value, SaltRounds).value)
    ensures sent.Some? && !hashed ==> sent.value == Profile(info.username, info.email)
    ensures sent.Some? ==> ReportsRecordAnswer(updateUserInfo(toObjectId(info.id).value, sent.value), r)
  {
    hashed, sent := false, None;
    var attempt: Result<User>;
    var id := toObjectId(info.id);
    if id.Threw? {
      attempt := Err(ForeignError);
    } else {
      var userToUpdate := Profile(info.username, info.email);
      var hashFailed := false;
      if Truthy(info.password) {
        hashed := true;
        var hashedPassword := hash(info.password.value, SaltRounds);
        if hashedPassword.Threw? {
          hashFailed := true;
        } else {
          userToUpdate := ProfileWithPassword(info.username, info.email, hashedPassword.value);
        }
      }
      if hashFailed {
        attempt := Err(ForeignError);
      } else {
        sent := Some(userToUpdate);
        attempt := RecordAttempt(updateUserInfo(id.value, userToUpdate), UserNotFound);
      }
    }
    r := RethrowNotFound(attempt, UserServerError);
  }

  /** `updateProfileAsAdminUser`: the repository receives exactly the role. */
  function UpdateProfileAsAdminUser(info: UserUpdateAdmin, toObjectId: Value -> Outcome<ObjectId>,
                                    updateUserInfo: (ObjectId, UserChanges) -> Outcome<Option<User>>): (r: Result<User>)
    ensures Classified(r)
    ensures toObjectId(info.id).Threw? ==> r == Err(ServerError(UserServerError))
    ensures toObjectId(info.id).Returned? ==>
      ReportsRecordAnswer(updateUserInfo(toObjectId(info.id).value, RoleChange(info.role)), r)
  {
    var attempt := match toObjectId(info.id)
      case Threw => Err(ForeignError)
      case Returned(id) => RecordAttempt(updateUserInfo(id, RoleChange(info.role)), UserNotFound);
    RethrowNotFound(attempt, UserServerError)
  }

  /** `deleteUserProfile`, as written: its catch block reports a technical failure as a
      ServerError carrying the "User was not found" text. */
  function DeleteUserProfile(id: Value, toObjectId: Value -> Outcome<ObjectId>,
                             deleteUserInfo: ObjectId -> Outcome<Option<User>>): (r: Result<User>)
    ensures Classified(r)
    ensures toObjectId(id).Threw? ==> r == Err(ServerError(UserNotFound))
    ensures toObjectId(id).Returned? ==>
      var answer := deleteUserInfo(toObjectId(id).value);
      && (r.Ok? <==> answer.Returned? && answer.value.Some?)
      && (r.Ok? ==> r.value == answer.value.value)
      && (r == Err(NotFoundError(UserNotFound)) <==> answer == Returned(None))
      && (r == Err(ServerError(UserNotFound)) <==> answer.Threw?)
  {
    var attempt := match toObjectId(id)
      case Threw => Err(ForeignError)
      case Returned(oid) => RecordAttempt(deleteUserInfo(oid), UserNotFound);
    RethrowNotFound(attempt, UserNotFound)
  }

  /** A failing id conversion or a throwing repository makes the deletion report "User was
      not found" (as a 500), the same text as a genuinely missing user. */
  lemma DeletionFailureReadsAsMissingUser(id: Value, toObjectId: Value -> Outcome<ObjectId>,
                                          deleteUserInfo: ObjectId -> Outcome<Option<User>>)
    requires toObjectId(id).Threw? || (toObjectId(id).Returned? && deleteUserInfo(toObjectId(id).value).Threw?)
    ensures DeleteUserProfile(id, toObjectId, deleteUserInfo).error.message == UserNotFound
    ensures DeleteUserProfile(id, toObjectId, deleteUserInfo).error.ServerError?
  {
  }

  /** `deleteUserProfile` with the message every other user-service function uses for a
      technical failure. */
  function DeleteUserProfileWithServerMessage(id: Value, toObjectId: Value -> Outcome<ObjectId>,
                                              deleteUserInfo: ObjectId -> Outcome<Option<User>>): (r: Result<User>)
    ensures Classified(r)
    ensures toObjectId(id).Threw? ==> r == Err(ServerError(UserServerError))
    ensures toObjectId(id).Returned? ==> ReportsRecordAnswer(deleteUserInfo(toObjectId(id).value), r)
    ensures r.Err? && r.error.ServerError? ==> r.error.message != UserNotFound
  {
    var attempt := match toObjectId(id)
      case Threw => Err(ForeignError)
      case Returned(oid) => RecordAttempt(deleteUserInfo(oid), UserNotFound);
    RethrowNotFound(attempt, UserServerError)
  }
}
