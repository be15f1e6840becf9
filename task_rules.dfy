/**
 * The six rule sets of src/presentation/middleware/taskRules.validation.ts, and what each
 * reports for a request.
 */
module TaskRules {
  import opened Wrappers
  import opened Domain
  import opened Messages
  import opened Validation
  import opened FieldErrors
  import RegExps

  const LengthAtLeast10 := IsLength(10, None)
  const LengthAtMost100 := IsLength(0, Some(100))
  const Statuses := [Pending, Complete]

  function RequiredSubjectChain(): Chain {
    Chain(Body, "subject", false,
      [Rule(NotEmpty, SubjectRequired), Rule(LengthAtLeast10, SubjectMinLength), Rule(LengthAtMost100, SubjectMaxLength)])
  }

  function DescriptionChain(): Chain {
    Chain(Body, "description", true, [Rule(IsLength(0, Some(300)), DescriptionMaxLength)])
  }

  function RequiredStatusChain(): Chain {
    Chain(Body, "status", false, [Rule(NotEmpty, StatusRequired), Rule(IsIn(Statuses), StatusInvalid)])
  }

  function TaskIdChain(): Chain {
    Chain(Body, "id", false,
      [Rule(NotEmpty, TaskIdRequired), Rule(Matches(IdPattern), TaskIdInvalid), Rule(IsLength(24, Some(24)), TaskIdLength)])
  }

  function TaskCreationRules(): seq<Chain> {
    [RequiredSubjectChain(), DescriptionChain(), RequiredStatusChain()]
  }

  function TaskUpdateRules(): seq<Chain> {
    [ TaskIdChain(),
      Chain(Body, "subject", true, [Rule(LengthAtLeast10, SubjectMinLength), Rule(LengthAtMost100, SubjectMaxLength)]),
      DescriptionChain(),
      Chain(Body, "status", true, [Rule(IsIn(Statuses), StatusInvalid)]) ]
  }

  function TaskDeletionRules(): seq<Chain> {
    [TaskIdChain()]
  }

  function TaskFetchingByUsernameRules(): seq<Chain> {
    [ Chain(Body, "username", false,
        [Rule(NotEmpty, UsernameRequired), Rule(IsLength(3, None), UsernameMinLength), Rule(IsLength(0, Some(20)), UsernameMaxLength)]) ]
  }

  function TaskFetchingBySubjectRules(): seq<Chain> {
    [RequiredSubjectChain()]
  }

  function TaskFetchingByStatusRules(): seq<Chain> {
    [RequiredStatusChain()]
  }

  function BodyField(req: Request, field: string): Value {
    FieldValue(req, Body, field)
  }

  // What each chain reports, field by field.

  lemma RequiredSubjectChainErrors(req: Request)
    ensures RunChain(RequiredSubjectChain(), req) == RequiredSubjectErrors(BodyField(req, "subject"))
  {
    RunRulesUnfold(RequiredSubjectChain().rules, AsInput(BodyField(req, "subject")));
  }

  lemma OptionalSubjectChainErrors(req: Request)
    ensures RunChain(TaskUpdateRules()[1], req) == OptionalSubjectErrors(BodyField(req, "subject"))
  {
    RunRulesUnfold(TaskUpdateRules()[1].rules, AsInput(BodyField(req, "subject")));
  }

  lemma DescriptionChainErrors(req: Request)
    ensures RunChain(DescriptionChain(), req) == DescriptionErrors(BodyField(req, "description"))
  {
    RunRulesUnfold(DescriptionChain().rules, AsInput(BodyField(req, "description")));
  }

  lemma RequiredStatusChainErrors(req: Request)
    ensures RunChain(RequiredStatusChain(), req) == RequiredStatusErrors(BodyField(req, "status"))
  {
    RunRulesUnfold(RequiredStatusChain().rules, AsInput(BodyField(req, "status")));
  }

  lemma OptionalStatusChainErrors(req: Request)
    ensures RunChain(TaskUpdateRules()[3], req) == OptionalStatusErrors(BodyField(req, "status"))
  {
    RunRulesUnfold(TaskUpdateRules()[3].rules, AsInput(BodyField(req, "status")));
  }

  lemma TaskIdChainErrors(req: Request)
    ensures RunChain(TaskIdChain(), req) == TaskIdErrors(BodyField(req, "id"))
  {
    RunRulesUnfold(TaskIdChain().rules, AsInput(BodyField(req, "id")));
  }

  lemma UsernameChainErrors(req: Request)
    ensures RunChain(TaskFetchingByUsernameRules()[0], req) == UsernameErrors(BodyField(req, "username"))
  {
    RunRulesUnfold(TaskFetchingByUsernameRules()[0].rules, AsInput(BodyField(req, "username")));
  }

  // What each rule set reports: the fields' errors in declaration order.

  function TaskCreationErrors(req: Request): (errors: seq<string>)
    ensures errors == RequiredSubjectErrors(BodyField(req, "subject"))
                    + DescriptionErrors(BodyField(req, "description"))
                    + RequiredStatusErrors(BodyField(req, "status"))
  {
    var rules := TaskCreationRules();
    ValidateThree(rules[0], rules[1], rules[2], req);
    RequiredSubjectChainErrors(req);
    DescriptionChainErrors(req);
    RequiredStatusChainErrors(req);
    AppendAssociative3(RequiredSubjectErrors(BodyField(req, "subject")), DescriptionErrors(BodyField(req, "description")),
                       RequiredStatusErrors(BodyField(req, "status")));
    Validate(rules, req)
  }

  function TaskUpdateErrors(req: Request): (errors: seq<string>)
    ensures errors == TaskIdErrors(BodyField(req, "id"))
                    + OptionalSubjectErrors(BodyField(req, "subject"))
                    + DescriptionErrors(BodyField(req, "description"))
                    + OptionalStatusErrors(BodyField(req, "status"))
  {
    var rules := TaskUpdateRules();
    ValidateFour(rules[0], rules[1], rules[2], rules[3], req);
    TaskIdChainErrors(req);
    OptionalSubjectChainErrors(req);
    DescriptionChainErrors(req);
    OptionalStatusChainErrors(req);
    AppendAssociative4(TaskIdErrors(BodyField(req, "id")), OptionalSubjectErrors(BodyField(req, "subject")),
                       DescriptionErrors(BodyField(req, "description")), OptionalStatusErrors(BodyField(req, "status")));
    Validate(rules, req)
  }

  function TaskDeletionErrors(req: Request): (errors: seq<string>)
    ensures errors == TaskIdErrors(BodyField(req, "id"))
  {
    ValidateOne(TaskDeletionRules()[0], req);
    TaskIdChainErrors(req);
    Validate(TaskDeletionRules(), req)
  }

  function TaskFetchingByUsernameErrors(req: Request): (errors: seq<string>)
    ensures errors == UsernameErrors(BodyField(req, "username"))
  {
    ValidateOne(TaskFetchingByUsernameRules()[0], req);
    UsernameChainErrors(req);
    Validate(TaskFetchingByUsernameRules(), req)
  }

  function TaskFetchingBySubjectErrors(req: Request): (errors: seq<string>)
    ensures errors == RequiredSubjectErrors(BodyField(req, "subject"))
  {
    ValidateOne(TaskFetchingBySubjectRules()[0], req);
    RequiredSubjectChainErrors(req);
    Validate(TaskFetchingBySubjectRules(), req)
  }

  function TaskFetchingByStatusErrors(req: Request): (errors: seq<string>)
    ensures errors == RequiredStatusErrors(BodyField(req, "status"))
  {
    ValidateOne(TaskFetchingByStatusRules()[0], req);
    RequiredStatusChainErrors(req);
    Validate(TaskFetchingByStatusRules(), req)
  }

  /** Errors accumulate across fields: a creation request missing subject and status (with
      an acceptable description) reports four messages, subject's first. */
  lemma CreationWithoutSubjectAndStatus(req: Request)
    requires "subject" !in req.body && "status" !in req.body
    requires "description" in req.body ==> |req.body["description"]| <= 300
    ensures TaskCreationErrors(req) == [SubjectRequired, SubjectMinLength, StatusRequired, StatusInvalid]
  {
  }

  /** An update or deletion request without an id reports all three id messages. */
  lemma UpdateWithoutId(req: Request)
    requires req.body == map[]
    ensures TaskUpdateErrors(req) == [TaskIdRequired, TaskIdInvalid, TaskIdLength]
    ensures TaskDeletionErrors(req) == [TaskIdRequired, TaskIdInvalid, TaskIdLength]
  {
  }

  /** In an update every field but the id is optional: a well-formed id alone passes. */
  lemma UpdateWithIdOnly(req: Request)
    requires req.body == map["id" := "0123456789abcdef01234567"]
    ensures TaskUpdateErrors(req) == []
  {
    assert RegExps.MatchesIdRegex("0123456789abcdef01234567");
  }
}
