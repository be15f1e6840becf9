/**
 * The semantics of the express-validator chains the rule sets are written in: every
 * validator of a chain runs on the field's value (an absent field reads as ""), each
 * failure contributes its `withMessage` text (the library's default text when that is
 * empty), `.optional()` skips a chain only when the
 * field is absent, and `validationResult` lists the failures of all chains in the order
 * the chains ran.
 */
module Validation {
  import opened Wrappers
  import opened Domain
  import RegExps

  /** The parts of a request the rule sets read. Header names are stored in lower case,
      as Node delivers them. */
  datatype Request = Request(body: map<string, string>, headers: map<string, string>)

  /** `check(field)` reads the body, `header(field)` the headers. */
  datatype Location = Body | Headers

  /** The patterns `matches` is given. */
  datatype Pattern = IdPattern | PasswordPattern | EmailPattern

  /** The standard validators the rule sets use. `IsLength(min, None)` is `isLength({min})`,
      `IsLength(0, Some(max))` is `isLength({max})`. */
  datatype Validator =
    | NotEmpty
    | IsLength(min: nat, max: Option<nat>)
    | Matches(pattern: Pattern)
    | IsIn(values: seq<string>)

  /** A validator followed by `.withMessage(message)`. */
  datatype Rule = Rule(validator: Validator, message: string)

  /** The text express-validator records for a failure whose message is falsy. */
  const DefaultMessage := "Invalid value"

  /** The text a failing rule is reported with: its own message, or the library's default
      when that message is the empty string. */
  function Reported(rule: Rule): (m: string)
    ensures m != ""
    ensures rule.message != "" ==> m == rule.message
  {
    if rule.message == "" then DefaultMessage else rule.message
  }

  /** One `check(field)[.optional()]...` chain. */
  datatype Chain = Chain(location: Location, field: string, optional: bool, rules: seq<Rule>)

  /** The field's value in the request, or `undefined`. */
  function FieldValue(req: Request, location: Location, field: string): (v: Value)
    ensures v.Some? <==> field in (if location == Body then req.body else req.headers)
    ensures v.Some? ==> v.value == (if location == Body then req.body else req.headers)[field]
  {
    var fields := if location == Body then req.body else req.headers;
    if field in fields then Some(fields[field]) else None
  }

  /** The string the standard validators see: `undefined` becomes "". */
  function AsInput(v: Value): string {
    match v
    case None => ""
    case Some(s) => s
  }

  predicate MatchesPattern(p: Pattern, s: string) {
    match p
    case IdPattern => RegExps.MatchesIdRegex(s)
    case PasswordPattern => RegExps.MatchesPasswordRegex(s)
    case EmailPattern => RegExps.MatchesEmailRegex(s)
  }

  /** Whether one validator accepts the input: lengths are inclusive bounds and `isIn` is
      exact membership. */
  predicate Accepts(validator: Validator, s: string) {
    match validator
    case NotEmpty => s != ""
    case IsLength(min, max) => min <= |s| && (max.None? || |s| <= max.value)
    case Matches(p) => MatchesPattern(p, s)
    case IsIn(values) => s in values
  }

  /** The messages of the rules of one chain that reject the input, in declaration order;
      no failure stops the chain. */
  function RunRules(rules: seq<Rule>, s: string): (errors: seq<string>)
    ensures |errors| <= |rules|
    ensures errors == [] <==> forall i :: 0 <= i < |rules| ==> Accepts(rules[i].validator, s)
    ensures forall m :: m in errors ==> exists i :: 0 <= i < |rules| && Reported(rules[i]) == m && !Accepts(rules[i].validator, s)
  {
    if rules == [] then []
    else
      assert forall i :: 1 <= i < |rules| ==> rules[i] == rules[1..][i - 1];
      RuleErrors(rules[0], s) + RunRules(rules[1..], s)
  }

  /** What one rule contributes: its reported text if its validator rejects the input. */
  function RuleErrors(rule: Rule, s: string): seq<string> {
    if Accepts(rule.validator, s) then [] else [Reported(rule)]
  }

  /** No failure goes unreported: every rule whose validator rejects the input contributes
      its message. */
  lemma {:induction false} RunRulesReportsEveryFailure(rules: seq<Rule>, s: string)
    ensures forall i :: 0 <= i < |rules| && !Accepts(rules[i].validator, s) ==> Reported(rules[i]) in RunRules(rules, s)
  {
    if rules != [] {
      RunRulesReportsEveryFailure(rules[1..], s);
      forall i | 1 <= i < |rules| && !Accepts(rules[i].validator, s)
        ensures Reported(rules[i]) in RunRules(rules, s)
      {
        assert rules[i] == rules[1..][i - 1];
      }
    }
  }

  /** The messages one chain contributes. */
  function RunChain(chain: Chain, req: Request): (errors: seq<string>)
    ensures errors == [] <==>
      || (chain.optional && FieldValue(req, chain.location, chain.field).None?)
      || forall i :: 0 <= i < |chain.rules| ==>
           Accepts(chain.rules[i].validator, AsInput(FieldValue(req, chain.location, chain.field)))
  {
    var v := FieldValue(req, chain.location, chain.field);
    if chain.optional && v.None? then [] else RunRules(chain.rules, AsInput(v))
  }

  /** `validationResult(req)` after the chains ran in order: the concatenation of their
      messages. */
  function Validate(chains: seq<Chain>, req: Request): seq<string> {
    if chains == [] then []
    else RunChain(chains[0], req) + Validate(chains[1..], req)
  }

  /** A rule set reports nothing exactly when every one of its chains reports nothing. */
  lemma {:induction false} ValidateClean(chains: seq<Chain>, req: Request)
    ensures Validate(chains, req) == [] <==> forall i :: 0 <= i < |chains| ==> RunChain(chains[i], req) == []
  {
    if chains != [] {
      var rest := chains[1..];
      ValidateClean(rest, req);
      assert Validate(chains, req) == RunChain(chains[0], req) + Validate(rest, req);
      if Validate(chains, req) == [] {
        forall i | 0 <= i < |chains| ensures RunChain(chains[i], req) == [] {
          if i > 0 {
            assert chains[i] == rest[i - 1];
          }
        }
      }
      if forall i :: 0 <= i < |chains| ==> RunChain(chains[i], req) == [] {
        forall j | 0 <= j < |rest| ensures RunChain(rest[j], req) == [] {
          assert rest[j] == chains[j + 1];
        }
      }
    }
  }

  /** Rules of one chain report independently: splitting a chain splits its messages. */
  lemma {:induction false} RunRulesAppend(a: seq<Rule>, b: seq<Rule>, s: string)
    ensures RunRules(a + b, s) == RunRules(a, s) + RunRules(b, s)
  {
    if a != [] {
      assert (a + b)[1..] == a[1..] + b;
      RunRulesAppend(a[1..], b, s);
    } else {
      assert a + b == b;
    }
  }

  /** Chains report independently and in order: the messages of a rule set are those of its
      first part followed by those of the rest. */
  lemma {:induction false} ValidateAppend(a: seq<Chain>, b: seq<Chain>, req: Request)
    ensures Validate(a + b, req) == Validate(a, req) + Validate(b, req)
  {
    if a != [] {
      assert (a + b)[1..] == a[1..] + b;
      ValidateAppend(a[1..], b, req);
    } else {
      assert a + b == b;
    }
  }

  lemma RunRulesCons(rule: Rule, rest: seq<Rule>, s: string)
    ensures RunRules([rule] + rest, s) == RuleErrors(rule, s) + RunRules(rest, s)
  {
    assert ([rule] + rest)[1..] == rest;
  }

  /** A chain of up to three rules, unfolded. */
  lemma RunRulesUnfold(rules: seq<Rule>, s: string)
    requires 1 <= |rules| <= 3
    ensures |rules| == 1 ==> RunRules(rules, s) == RuleErrors(rules[0], s)
    ensures |rules| == 2 ==> RunRules(rules, s) == RuleErrors(rules[0], s) + RuleErrors(rules[1], s)
    ensures |rules| == 3 ==>
      RunRules(rules, s) == RuleErrors(rules[0], s) + RuleErrors(rules[1], s) + RuleErrors(rules[2], s)
  {
    var tail := rules[1..];
    if |tail| > 0 {
      var tail2 := tail[1..];
      if |tail2| > 0 {
        assert tail2[1..] == [];
      }
    }
  }

  lemma ValidateCons(chain: Chain, rest: seq<Chain>, req: Request)
    ensures Validate([chain] + rest, req) == RunChain(chain, req) + Validate(rest, req)
  {
    assert ([chain] + rest)[1..] == rest;
  }

  lemma ValidateOne(chain: Chain, req: Request)
    ensures Validate([chain], req) == RunChain(chain, req)
  {
    ValidateCons(chain, [], req);
    assert [chain] + [] == [chain];
  }

  lemma ValidateTwo(c1: Chain, c2: Chain, req: Request)
    ensures Validate([c1, c2], req) == RunChain(c1, req) + RunChain(c2, req)
  {
    assert [c1, c2] == [c1] + [c2];
    ValidateCons(c1, [c2], req);
    ValidateOne(c2, req);
  }

  lemma ValidateThree(c1: Chain, c2: Chain, c3: Chain, req: Request)
    ensures Validate([c1, c2, c3], req) == RunChain(c1, req) + (RunChain(c2, req) + RunChain(c3, req))
  {
    assert [c1, c2, c3] == [c1] + [c2, c3];
    ValidateCons(c1, [c2, c3], req);
    ValidateTwo(c2, c3, req);
  }

  lemma ValidateFour(c1: Chain, c2: Chain, c3: Chain, c4: Chain, req: Request)
    ensures Validate([c1, c2, c3, c4], req)
      == RunChain(c1, req) + (RunChain(c2, req) + (RunChain(c3, req) + RunChain(c4, req)))
  {
    assert [c1, c2, c3, c4] == [c1] + [c2, c3, c4];
    ValidateCons(c1, [c2, c3, c4], req);
    ValidateThree(c2, c3, c4, req);
  }

  lemma AppendAssociative3(a: seq<string>, b: seq<string>, c: seq<string>)
    ensures a + (b + c) == a + b + c
  {
  }

  lemma AppendAssociative4(a: seq<string>, b: seq<string>, c: seq<string>, d: seq<string>)
    ensures a + (b + (c + d)) == a + b + c + d
  {
  }
}
