/**
  Required-field validation as the mutating routes declare it: a chain of
  `check(field, message).not().isEmpty()` rules whose failures
  `validationResult(req).array()` lists in declaration order.
*/
module Validation {
  import opened Wrappers
  import opened Documents

  /** One `check(param, msg).not().isEmpty()` rule, paired with the value the request supplied. */
  datatype Check = Check(param: string, msg: string, value: Option<string>)

  /** The error a failed rule reports; a field missing everywhere is reported for the body. */
  function ErrorOf(c: Check): FieldError {
    FieldError(c.msg, c.param, "body")
  }

  /** What one rule contributes: its error when the value is empty, nothing otherwise. */
  function Reported(c: Check): seq<FieldError> {
    if Truthy(c.value) then [] else [ErrorOf(c)]
  }

  /** The errors of a chain of rules: one per rule whose value is empty, in rule order. */
  function Validate(checks: seq<Check>): (r: seq<FieldError>)
    ensures |r| <= |checks|
  {
    if checks == [] then [] else Reported(checks[0]) + Validate(checks[1..])
  }

  /** 1 when a value fails its `not().isEmpty()` rule, 0 when it passes. */
  function Missing(v: Option<string>): nat {
    if Truthy(v) then 0 else 1
  }

  /** The number of rules in the chain whose value is empty. */
  function Failing(checks: seq<Check>): nat {
    if checks == [] then 0 else Missing(checks[0].value) + Failing(checks[1..])
  }

  /** Exactly one error per failing rule. */
  lemma {:induction false} ValidateCount(checks: seq<Check>)
    ensures |Validate(checks)| == Failing(checks)
  {
    if checks != [] {
      ValidateCount(checks[1..]);
    }
  }

  /**
    A failing rule's error sits right after the errors of the failing rules
    declared before it.
  */
  lemma {:induction false} ValidateAt(checks: seq<Check>, i: nat)
    requires i < |checks| && !Truthy(checks[i].value)
    ensures Failing(checks[..i]) < |Validate(checks)|
    ensures Validate(checks)[Failing(checks[..i])] == ErrorOf(checks[i])
  {
    if i > 0 {
      var rest := checks[1..];
      ValidateAt(rest, i - 1);
      assert checks[..i][0] == checks[0] && checks[..i][1..] == rest[..i - 1];
      assert rest[i - 1] == checks[i];
      assert Validate(checks) == Reported(checks[0]) + Validate(rest);
      assert |Reported(checks[0])| == Missing(checks[0].value);
    }
  }

  /** At most one error per rule, and none exactly when every value is non-empty. */
  lemma {:induction false} ValidateEmpty(checks: seq<Check>)
    ensures |Validate(checks)| <= |checks|
    ensures Validate(checks) == [] <==> forall i :: 0 <= i < |checks| ==> Truthy(checks[i].value)
  {
    if checks != [] {
      ValidateEmpty(checks[1..]);
      assert forall i :: 1 <= i < |checks| ==> checks[i] == checks[1..][i - 1];
    }
  }

  /** Validating one more rule in front puts its error, if any, in front. */
  lemma ValidateCons(c: Check, rest: seq<Check>)
    ensures Validate([c] + rest) == Reported(c) + Validate(rest)
  {
  }

  /** An error is reported exactly when some rule with an empty value reports it. */
  lemma {:induction false} ValidateMembers(checks: seq<Check>, e: FieldError)
    ensures e in Validate(checks) <==>
      exists i :: 0 <= i < |checks| && !Truthy(checks[i].value) && e == ErrorOf(checks[i])
  {
    if checks != [] {
      ValidateMembers(checks[1..], e);
      if e in Validate(checks[1..]) {
        var i :| 0 <= i < |checks[1..]| && !Truthy(checks[1..][i].value) && e == ErrorOf(checks[1..][i]);
        assert checks[i + 1] == checks[1..][i];
      }
      if exists i :: 0 <= i < |checks| && !Truthy(checks[i].value) && e == ErrorOf(checks[i]) {
        var i :| 0 <= i < |checks| && !Truthy(checks[i].value) && e == ErrorOf(checks[i]);
        if i > 0 {
          assert checks[1..][i - 1] == checks[i];
        }
      }
    }
  }

  /** When every rule fails, every rule reports its error, in rule order. */
  lemma {:induction false} ValidateAllFail(checks: seq<Check>)
    requires forall i :: 0 <= i < |checks| ==> !Truthy(checks[i].value)
    ensures |Validate(checks)| == |checks|
    ensures forall i :: 0 <= i < |checks| ==> Validate(checks)[i] == ErrorOf(checks[i])
  {
    if checks != [] {
      ValidateAllFail(checks[1..]);
      forall i | 0 <= i < |checks|
        ensures Validate(checks)[i] == ErrorOf(checks[i])
      {
        if i > 0 {
          assert checks[1..][i - 1] == checks[i];
        }
      }
    }
  }

  /** With distinct field names, a rule's error is reported exactly when its value is empty. */
  lemma ReportedIffEmpty(checks: seq<Check>, k: nat)
    requires k < |checks|
    requires forall j :: 0 <= j < |checks| && j != k ==> checks[j].param != checks[k].param
    ensures ErrorOf(checks[k]) in Validate(checks) <==> !Truthy(checks[k].value)
  {
    ValidateMembers(checks, ErrorOf(checks[k]));
    if ErrorOf(checks[k]) in Validate(checks) {
      var i :| 0 <= i < |checks| && !Truthy(checks[i].value) && ErrorOf(checks[k]) == ErrorOf(checks[i]);
      assert checks[i].param == checks[k].param;
    }
  }

  const StatusError := FieldError("Status is required", "status", "body")
  const SkillsError := FieldError("Skills is required", "skills", "body")

  /** The rule chain of `POST /`: `status`, then `skills`. */
  function ProfileChecks(b: ProfileBody): seq<Check> {
    [Check("status", "Status is required", b.status),
     Check("skills", "Skills is required", b.skills)]
  }

  /** The errors of `POST /`: `status` and `skills` must be non-empty. */
  function ProfileErrors(b: ProfileBody): (errs: seq<FieldError>)
    ensures errs == [] <==> Truthy(b.status) && Truthy(b.skills)
    ensures StatusError in errs <==> !Truthy(b.status)
    ensures SkillsError in errs <==> !Truthy(b.skills)
    ensures forall e :: e in errs ==> e == StatusError || e == SkillsError
    ensures !Truthy(b.status) && !Truthy(b.skills) ==> errs == [StatusError, SkillsError]
  {
    var c := ProfileChecks(b);
    Reported(c[0]) + Reported(c[1])
  }

  /** `ProfileErrors` is what the chain reports. */
  lemma ProfileErrorsValidate(b: ProfileBody)
    ensures ProfileErrors(b) == Validate(ProfileChecks(b))
  {
    var c := ProfileChecks(b);
    assert c == [c[0]] + [c[1]];
    ValidateCons(c[0], [c[1]]);
    ValidateCons(c[1], []);
  }

  /** `POST /` reports one error per empty field, `status`'s before `skills`'s. */
  lemma ProfileErrorsPlaced(b: ProfileBody)
    ensures |ProfileErrors(b)| == Missing(b.status) + Missing(b.skills)
    ensures !Truthy(b.status) ==> ProfileErrors(b)[0] == StatusError
    ensures !Truthy(b.skills) ==> ProfileErrors(b)[Missing(b.status)] == SkillsError
  {
  }

  const TitleError := FieldError("Title is required", "title", "body")
  const CompanyError := FieldError("Company is required", "company", "body")
  const FromError := FieldError("From date is required", "from", "body")

  /** The rule chain of `PUT /experience`: `title`, `company`, then `from`. */
  function ExperienceChecks(b: ExperienceBody): seq<Check> {
    [Check("title", "Title is required", b.title),
     Check("company", "Company is required", b.company),
     Check("from", "From date is required", b.from)]
  }

  /** The errors of `PUT /experience`: `title`, `company` and `from` must be non-empty. */
  function ExperienceErrors(b: ExperienceBody): (errs: seq<FieldError>)
    ensures errs == [] <==> Truthy(b.title) && Truthy(b.company) && Truthy(b.from)
    ensures TitleError in errs <==> !Truthy(b.title)
    ensures CompanyError in errs <==> !Truthy(b.company)
    ensures FromError in errs <==> !Truthy(b.from)
    ensures forall e :: e in errs ==> e == TitleError || e == CompanyError || e == FromError
    ensures !Truthy(b.title) && !Truthy(b.company) && !Truthy(b.from) ==> errs == [TitleError, CompanyError, FromError]
  {
    var c := ExperienceChecks(b);
    Reported(c[0]) + Reported(c[1]) + Reported(c[2])
  }

  /** `ExperienceErrors` is what the chain reports. */
  lemma ExperienceErrorsValidate(b: ExperienceBody)
    ensures ExperienceErrors(b) == Validate(ExperienceChecks(b))
  {
    var c := ExperienceChecks(b);
    assert c == [c[0]] + ([c[1]] + [c[2]]);
    ValidateCons(c[0], [c[1], c[2]]);
    ValidateCons(c[1], [c[2]]);
    ValidateCons(c[2], []);
  }

  /**
    `PUT /experience` reports one error per empty field, each right after
    the errors of the empty fields declared before it.
  */
  lemma ExperienceErrorsPlaced(b: ExperienceBody)
    ensures |ExperienceErrors(b)| == Missing(b.title) + Missing(b.company) + Missing(b.from)
    ensures !Truthy(b.title) ==> ExperienceErrors(b)[0] == TitleError
    ensures !Truthy(b.company) ==> ExperienceErrors(b)[Missing(b.title)] == CompanyError
    ensures !Truthy(b.from) ==> ExperienceErrors(b)[Missing(b.title) + Missing(b.company)] == FromError
  {
  }

  const SchoolError := FieldError("School is required", "school", "body")
  const DegreeError := FieldError("Degree is required", "degree", "body")
  const FieldOfStudyError := FieldError("Fieldofstudy is required", "fieldofstudy", "body")

  /** The rule chain of `PUT /education`: `school`, `degree`, `fieldofstudy`, then `from`. */
  function EducationChecks(b: EducationBody): seq<Check> {
    [Check("school", "School is required", b.school),
     Check("degree", "Degree is required", b.degree),
     Check("fieldofstudy", "Fieldofstudy is required", b.fieldofstudy),
     Check("from", "From date is required", b.from)]
  }

  /** The errors of `PUT /education`: `school`, `degree`, `fieldofstudy` and `from` must be non-empty. */
  function EducationErrors(b: EducationBody): (errs: seq<FieldError>)
    ensures errs == [] <==> Truthy(b.school) && Truthy(b.degree) && Truthy(b.fieldofstudy) && Truthy(b.from)
    ensures SchoolError in errs <==> !Truthy(b.school)
    ensures DegreeError in errs <==> !Truthy(b.degree)
    ensures FieldOfStudyError in errs <==> !Truthy(b.fieldofstudy)
    ensures FromError in errs <==> !Truthy(b.from)
    ensures forall e :: e in errs ==> e == SchoolError || e == DegreeError || e == FieldOfStudyError || e == FromError
    ensures !Truthy(b.school) && !Truthy(b.degree) && !Truthy(b.fieldofstudy) && !Truthy(b.from) ==>
      errs == [SchoolError, DegreeError, FieldOfStudyError, FromError]
  {
    var c := EducationChecks(b);
    EducationErrorsDistinct();
    assert ErrorOf(c[0]) == SchoolError && ErrorOf(c[1]) == DegreeError;
    assert ErrorOf(c[2]) == FieldOfStudyError && ErrorOf(c[3]) == FromError;
    Reported(c[0]) + Reported(c[1]) + Reported(c[2]) + Reported(c[3])
  }

  /**
    `PUT /education` reports one error per empty field, each right after
    the errors of the empty fields declared before it.
  */
  lemma EducationErrorsPlaced(b: EducationBody)
    ensures |EducationErrors(b)| == Missing(b.school) + Missing(b.degree) + Missing(b.fieldofstudy) + Missing(b.from)
    ensures !Truthy(b.school) ==> EducationErrors(b)[0] == SchoolError
    ensures !Truthy(b.degree) ==> EducationErrors(b)[Missing(b.school)] == DegreeError
    ensures !Truthy(b.fieldofstudy) ==> EducationErrors(b)[Missing(b.school) + Missing(b.degree)] == FieldOfStudyError
    ensures !Truthy(b.from) ==>
      EducationErrors(b)[Missing(b.school) + Missing(b.degree) + Missing(b.fieldofstudy)] == FromError
  {
  }

  /** The four messages of `PUT /education` are four different errors. */
  lemma EducationErrorsDistinct()
    ensures SchoolError != DegreeError && SchoolError != FieldOfStudyError && SchoolError != FromError
    ensures DegreeError != FieldOfStudyError && DegreeError != FromError && FieldOfStudyError != FromError
  {
  }

  /** `EducationErrors` is what the chain reports. */
  lemma EducationErrorsValidate(b: EducationBody)
    ensures EducationErrors(b) == Validate(EducationChecks(b))
  {
    var c := EducationChecks(b);
    assert c == [c[0], c[1], c[2], c[3]];
    ValidateFour(c[0], c[1], c[2], c[3]);
  }

  /** A chain of four rules reports their errors one after another. */
  lemma ValidateFour(a: Check, b: Check, c: Check, d: Check)
    ensures Validate([a, b, c, d]) == Reported(a) + Reported(b) + Reported(c) + Reported(d)
  {
    assert [a, b, c, d][1..] == [b, c, d];
    assert [b, c, d][1..] == [c, d];
    assert [c, d][1..] == [d];
    assert [d][1..] == [];
    var v3 := Validate([d]);
    var v2 := Validate([c, d]);
    var v1 := Validate([b, c, d]);
    assert v3 == Reported(d);
    assert v2 == Reported(c) + v3;
    assert v1 == Reported(b) + v2;
    assert Validate([a, b, c, d]) == Reported(a) + v1;
  }
}
