/**
 * The Economically Weaker Section form (`Ews.jsx`): six required fields
 * checked in order, then four benefit rules that all need an EWS
 * certificate and differ only in their income ceiling (and, for the
 * scholarship, an age ceiling).
 */
module Ews {
  import opened Text
  import opened Validation

  datatype Scheme = Reservation | Scholarship | EducationLoan | HealthScheme

  /** The form as typed; `certificate` is the value of the chosen radio
      button ("yes" or "no"). */
  datatype Form = Form(
    name: string, mobile: string, email: string,
    age: Entry, income: Entry, certificate: string)

  datatype Applicant = Applicant(age: real, income: real, certificate: string)

  function ApplicantOf(f: Form): Applicant {
    Applicant(f.age.value, f.income.value, f.certificate)
  }

  datatype Field = Name | Mobile | Email | Age | Income | Certificate

  function Alert(field: Field): string {
    match field
    case Name => "Please enter your name"
    case Mobile => "Please enter your mobile number"
    case Email => "Please enter your email"
    case Age => "Please enter your age"
    case Income => "Please enter your annual income"
    case Certificate => "Please select whether you have an EWS certificate"
  }

  /** Different blank fields raise different alerts, so the alert names
      the field to fill in. */
  lemma AlertsDistinct(a: Field, b: Field)
    requires a != b
    ensures Alert(a) != Alert(b)
  {
  }

  /** The required fields, in the order the form checks them. */
  function Checks(f: Form): seq<Check<Field>> {
    [ TextCheck(f.name, Name),
      TextCheck(f.mobile, Mobile),
      TextCheck(f.email, Email),
      TextCheck(f.age.text, Age),
      TextCheck(f.income.text, Income),
      TextCheck(f.certificate, Certificate) ]
  }

  /** The rule behind each benefit card. */
  predicate Qualifies(s: Scheme, a: Applicant) {
    match s
    case Reservation => a.certificate == "yes" && a.income <= 800000.0
    case Scholarship => a.certificate == "yes" && a.income <= 250000.0 && a.age <= 25.0
    case EducationLoan => a.certificate == "yes" && a.income <= 600000.0
    case HealthScheme => a.certificate == "yes" && a.income <= 500000.0
  }

  /** The benefit cards shown for an applicant. */
  function Benefits(a: Applicant): (r: set<Scheme>)
    ensures forall s :: s in r <==> Qualifies(s, a)
    ensures a.certificate != "yes" ==> r == {}
    ensures Scholarship in r ==> HealthScheme in r
    ensures HealthScheme in r ==> EducationLoan in r
    ensures EducationLoan in r ==> Reservation in r
    ensures r == {} <==> a.certificate != "yes" || a.income > 800000.0
  {
    (if Qualifies(Reservation, a) then {Reservation} else {})
    + (if Qualifies(Scholarship, a) then {Scholarship} else {})
    + (if Qualifies(EducationLoan, a) then {EducationLoan} else {})
    + (if Qualifies(HealthScheme, a) then {HealthScheme} else {})
  }

  /** `handleSubmit`: the checks run first, then the cards are evaluated;
      the "not eligible" card shows exactly when there is no certificate or
      the income exceeds the reservation ceiling. */
  function Submit(f: Form): (r: Outcome<Field, Scheme>)
    ensures r.Evaluated? ==>
              r.benefits == Benefits(ApplicantOf(f))
              && (r.notEligible <==> f.certificate != "yes" || f.income.value > 800000.0)
  {
    Validation.Submit(Checks(f), Benefits(ApplicantOf(f)))
  }

  /** The alert shown is that of the first blank field in the order name,
      mobile, email, age, income, certificate; only a form with none blank
      is evaluated. */
  lemma ValidationOrder(f: Form)
    ensures IsBlank(f.name) ==> Submit(f) == Rejected(Name)
    ensures (!IsBlank(f.name) && IsBlank(f.mobile)) ==>
              Submit(f) == Rejected(Mobile)
    ensures (!IsBlank(f.name) && !IsBlank(f.mobile) && IsBlank(f.email)) ==>
              Submit(f) == Rejected(Email)
    ensures (!IsBlank(f.name) && !IsBlank(f.mobile) && !IsBlank(f.email)
             && IsBlank(f.age.text)) ==>
              Submit(f) == Rejected(Age)
    ensures (!IsBlank(f.name) && !IsBlank(f.mobile) && !IsBlank(f.email)
             && !IsBlank(f.age.text) && IsBlank(f.income.text)) ==>
              Submit(f) == Rejected(Income)
    ensures (!IsBlank(f.name) && !IsBlank(f.mobile) && !IsBlank(f.email)
             && !IsBlank(f.age.text) && !IsBlank(f.income.text) && IsBlank(f.certificate)) ==>
              Submit(f) == Rejected(Certificate)
    ensures Submit(f).Evaluated? <==>
              (!IsBlank(f.name) && !IsBlank(f.mobile) && !IsBlank(f.email)
               && !IsBlank(f.age.text) && !IsBlank(f.income.text) && !IsBlank(f.certificate))
  {
    var checks := Checks(f);
    var b := Benefits(ApplicantOf(f));
    if IsBlank(f.name) {
      FirstUnfilledWins(checks, b, 0);
    } else if IsBlank(f.mobile) {
      FirstUnfilledWins(checks, b, 1);
    } else if IsBlank(f.email) {
      FirstUnfilledWins(checks, b, 2);
    } else if IsBlank(f.age.text) {
      FirstUnfilledWins(checks, b, 3);
    } else if IsBlank(f.income.text) {
      FirstUnfilledWins(checks, b, 4);
    } else if IsBlank(f.certificate) {
      FirstUnfilledWins(checks, b, 5);
    } else {
      AllFilledEvaluates(checks, b);
    }
  }

  /** Age decides only the scholarship card. */
  lemma AgeOnlyAffectsScholarship(a: Applicant, age: real)
    ensures Benefits(a) - {Scholarship} == Benefits(a.(age := age)) - {Scholarship}
  {
  }

  /** Earning less never removes a card. */
  lemma MonotoneInIncome(a: Applicant, b: Applicant)
    requires a.certificate == b.certificate && a.age == b.age
    requires b.income <= a.income
    ensures Benefits(a) <= Benefits(b)
  {
  }
}
