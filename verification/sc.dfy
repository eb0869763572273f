/**
 * The caste-based benefits form (`Sc.jsx`): six required fields checked in
 * order, then four benefit rules over the caste answer, the age and the
 * annual income.
 */
module Sc {
  import opened Text
  import opened Validation

  datatype Scheme = PostMatric | PreMatric | ObcEbcLoan | Hostel

  /** The form as typed; `caste` is the value of the chosen radio button
      ("sc", "st", "obc" or "ebc"). */
  datatype Form = Form(
    name: string, mobile: string, email: string,
    age: Entry, income: Entry, caste: string)

  datatype Applicant = Applicant(age: real, income: real, caste: string)

  function ApplicantOf(f: Form): Applicant {
    Applicant(f.age.value, f.income.value, f.caste)
  }

  datatype Field = Name | Mobile | Email | Age | Income | Caste

  function Alert(field: Field): string {
    match field
    case Name => "Please enter your name"
    case Mobile => "Please enter your mobile number"
    case Email => "Please enter your email"
    case Age => "Please enter your age"
    case Income => "Please enter your annual income"
    case Caste => "Please select your caste"
  }

  /** Different blank fields raise different alerts, so the alert names
      the field to fill in. */
  lemma AlertsDistinct(a: Field, b: Field)
    requires a != b
    ensures Alert(a) != Alert(b)
  {
  }

  /** The required fields, in the order the form checks them. */
  function Checks(f: Form): seq<Check<Field>> {
    [ TextCheck(f.name, Name),
      TextCheck(f.mobile, Mobile),
      TextCheck(f.email, Email),
      TextCheck(f.age.text, Age),
      TextCheck(f.income.text, Income),
      TextCheck(f.caste, Caste) ]
  }

  predicate ScOrSt(caste: string) {
    caste == "sc" || caste == "st"
  }

  predicate ScStOrObc(caste: string) {
    caste == "sc" || caste == "st" || caste == "obc"
  }

  /** The rule behind each benefit card. */
  predicate Qualifies(s: Scheme, a: Applicant) {
    match s
    case PostMatric => ScStOrObc(a.caste) && a.income <= 250000.0
    case PreMatric => ScOrSt(a.caste) && a.age <= 25.0
    case ObcEbcLoan => (a.caste == "obc" || a.caste == "ebc") && a.income <= 1000000.0
    case Hostel => ScStOrObc(a.caste) && a.age <= 30.0
  }

  /** The benefit cards shown for an applicant. */
  function Benefits(a: Applicant): (r: set<Scheme>)
    ensures forall s :: s in r <==> Qualifies(s, a)
    ensures PostMatric in r <==>
              (a.caste == "sc" || a.caste == "st" || a.caste == "obc") && a.income <= 250000.0
    ensures PreMatric in r ==> Hostel in r
    ensures a.caste == "ebc" ==> r <= {ObcEbcLoan} && (ObcEbcLoan in r <==> a.income <= 1000000.0)
    ensures !ScStOrObc(a.caste) && a.caste != "ebc" ==> r == {}
  {
    (if Qualifies(PostMatric, a) then {PostMatric} else {})
    + (if Qualifies(PreMatric, a) then {PreMatric} else {})
    + (if Qualifies(ObcEbcLoan, a) then {ObcEbcLoan} else {})
    + (if Qualifies(Hostel, a) then {Hostel} else {})
  }

  /** `handleSubmit`: the checks run first, then the cards are evaluated and
      the "not eligible" card shows when no rule holds. */
  function Submit(f: Form): (r: Outcome<Field, Scheme>)
    ensures r.Evaluated? ==>
              r.benefits == Benefits(ApplicantOf(f))
              && (r.notEligible <==>
                    !Qualifies(PostMatric, ApplicantOf(f)) && !Qualifies(PreMatric, ApplicantOf(f))
                    && !Qualifies(ObcEbcLoan, ApplicantOf(f)) && !Qualifies(Hostel, ApplicantOf(f)))
  {
    Validation.Submit(Checks(f), Benefits(ApplicantOf(f)))
  }

  /** The alert shown is that of the first blank field in the order name,
      mobile, email, age, income, caste; only a form with none blank is
      evaluated. */
  lemma ValidationOrder(f: Form)
    ensures IsBlank(f.name) ==> Submit(f) == Rejected(Name)
    ensures (!IsBlank(f.name) && IsBlank(f.mobile)) ==>
              Submit(f) == Rejected(Mobile)
    ensures (!IsBlank(f.name) && !IsBlank(f.mobile) && IsBlank(f.email)) ==>
              Submit(f) == Rejected(Email)
    ensures (!IsBlank(f.name) && !IsBlank(f.mobile) && !IsBlank(f.email)
             && IsBlank(f.age.text)) ==>
              Submit(f) == Rejected(Age)
    ensures (!IsBlank(f.name) && !IsBlank(f.mobile) && !IsBlank(f.email)
             && !IsBlank(f.age.text) && IsBlank(f.income.text)) ==>
              Submit(f) == Rejected(Income)
    ensures (!IsBlank(f.name) && !IsBlank(f.mobile) && !IsBlank(f.email)
             && !IsBlank(f.age.text) && !IsBlank(f.income.text) && IsBlank(f.caste)) ==>
              Submit(f) == Rejected(Caste)
    ensures Submit(f).Evaluated? <==>
              (!IsBlank(f.name) && !IsBlank(f.mobile) && !IsBlank(f.email)
               && !IsBlank(f.age.text) && !IsBlank(f.income.text) && !IsBlank(f.caste))
  {
    var checks := Checks(f);
    var b := Benefits(ApplicantOf(f));
    if IsBlank(f.name) {
      FirstUnfilledWins(checks, b, 0);
    } else if IsBlank(f.mobile) {
      FirstUnfilledWins(checks, b, 1);
    } else if IsBlank(f.email) {
      FirstUnfilledWins(checks, b, 2);
    } else if IsBlank(f.age.text) {
      FirstUnfilledWins(checks, b, 3);
    } else if IsBlank(f.income.text) {
      FirstUnfilledWins(checks, b, 4);
    } else if IsBlank(f.caste) {
      FirstUnfilledWins(checks, b, 5);
    } else {
      AllFilledEvaluates(checks, b);
    }
  }

  /** Being younger or earning less never removes a card. */
  lemma Monotone(a: Applicant, b: Applicant)
    requires a.caste == b.caste
    requires b.age <= a.age && b.income <= a.income
    ensures Benefits(a) <= Benefits(b)
  {
  }
}
