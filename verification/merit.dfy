/**
 * The merit-scholarship form (`Merit.jsx`): seven required fields checked in
 * order, then five scholarship rules over the 10th and 12th percentages, the
 * family income and the category.
 */
module Merit {
  import opened Text
  import opened Validation

  datatype Scheme = Mysy | DigitalGujarat | Nmms | Aicte | PostMatric

  /** The form as typed; `category` is the value of the category select. */
  datatype Form = Form(
    name: string, mobile: string, email: string,
    marks10: Entry, marks12: Entry, income: Entry,
    category: string)

  /** What the rules read: the numbers behind the form's fields. */
  datatype Applicant = Applicant(marks10: real, marks12: real, income: real, category: string)

  function ApplicantOf(f: Form): Applicant {
    Applicant(f.marks10.value, f.marks12.value, f.income.value, f.category)
  }

  /** The required fields of the form. */
  datatype Field = Name | Mobile | Email | Marks10 | Marks12 | Income | Category

  /** The alert shown when a field is left blank. */
  function Alert(field: Field): string {
    match field
    case Name => "Please enter your name"
    case Mobile => "Please enter your mobile number"
    case Email => "Please enter your email"
    case Marks10 => "Please enter your 10th percentage"
    case Marks12 => "Please enter your 12th percentage"
    case Income => "Please enter your family income"
    case Category => "Please select your category"
  }

  /** Different blank fields raise different alerts, so the alert names
      the field to fill in. */
  lemma AlertsDistinct(a: Field, b: Field)
    requires a != b
    ensures Alert(a) != Alert(b)
  {
  }

  /** The required fields, in the order the form checks them. */
  function Checks(f: Form): seq<Check<Field>> {
    [ TextCheck(f.name, Name),
      TextCheck(f.mobile, Mobile),
      TextCheck(f.email, Email),
      TextCheck(f.marks10.text, Marks10),
      TextCheck(f.marks12.text, Marks12),
      TextCheck(f.income.text, Income),
      TextCheck(f.category, Category) ]
  }

  /** The rule behind each scholarship card. */
  predicate Qualifies(s: Scheme, a: Applicant) {
    match s
    case Mysy =>
      (a.marks12 >= 80.0 || a.marks10 >= 80.0) && a.income <= 600000.0
    case DigitalGujarat =>
      (a.marks12 >= 65.0 || a.marks10 >= 65.0) && a.income <= 2500000.0 && a.category != "General"
    case Nmms =>
      a.marks10 >= 55.0 && a.income <= 150000.0 && a.category != "General"
    case Aicte =>
      a.marks12 >= 85.0 && a.income <= 800000.0
    case PostMatric =>
      (a.category == "SC" || a.category == "ST") && a.income <= 2500000.0
  }

  /** The scholarship cards shown for an applicant. */
  function Benefits(a: Applicant): (r: set<Scheme>)
    ensures forall s :: s in r <==> Qualifies(s, a)
    ensures Mysy in r <==> (a.marks12 >= 80.0 || a.marks10 >= 80.0) && a.income <= 600000.0
    ensures Aicte in r <==> a.marks12 >= 85.0 && a.income <= 800000.0
    ensures PostMatric in r <==> (a.category == "SC" || a.category == "ST") && a.income <= 2500000.0
    ensures a.category == "General" ==> r <= {Mysy, Aicte}
    ensures a.income > 2500000.0 ==> r == {}
  {
    (if Qualifies(Mysy, a) then {Mysy} else {})
    + (if Qualifies(DigitalGujarat, a) then {DigitalGujarat} else {})
    + (if Qualifies(Nmms, a) then {Nmms} else {})
    + (if Qualifies(Aicte, a) then {Aicte} else {})
    + (if Qualifies(PostMatric, a) then {PostMatric} else {})
  }

  /** `handleSubmit`: the checks run first, then the cards are evaluated and
      the "not eligible" card shows when no rule holds. */
  function Submit(f: Form): (r: Outcome<Field, Scheme>)
    ensures r.Evaluated? ==>
              r.benefits == Benefits(ApplicantOf(f))
              && (r.notEligible <==>
                    !Qualifies(Mysy, ApplicantOf(f)) && !Qualifies(DigitalGujarat, ApplicantOf(f))
                    && !Qualifies(Nmms, ApplicantOf(f)) && !Qualifies(Aicte, ApplicantOf(f))
                    && !Qualifies(PostMatric, ApplicantOf(f)))
  {
    Validation.Submit(Checks(f), Benefits(ApplicantOf(f)))
  }

  /** The alert shown is that of the first blank field in the order name,
      mobile, email, 10th, 12th, income, category; only a form with none
      blank is evaluated. */
  lemma ValidationOrder(f: Form)
    ensures IsBlank(f.name) ==> Submit(f) == Rejected(Name)
    ensures (!IsBlank(f.name) && IsBlank(f.mobile)) ==>
              Submit(f) == Rejected(Mobile)
    ensures (!IsBlank(f.name) && !IsBlank(f.mobile) && IsBlank(f.email)) ==>
              Submit(f) == Rejected(Email)
    ensures (!IsBlank(f.name) && !IsBlank(f.mobile) && !IsBlank(f.email)
             && IsBlank(f.marks10.text)) ==>
              Submit(f) == Rejected(Marks10)
    ensures (!IsBlank(f.name) && !IsBlank(f.mobile) && !IsBlank(f.email)
             && !IsBlank(f.marks10.text) && IsBlank(f.marks12.text)) ==>
              Submit(f) == Rejected(Marks12)
    ensures (!IsBlank(f.name) && !IsBlank(f.mobile) && !IsBlank(f.email)
             && !IsBlank(f.marks10.text) && !IsBlank(f.marks12.text) && IsBlank(f.income.text)) ==>
              Submit(f) == Rejected(Income)
    ensures (!IsBlank(f.name) && !IsBlank(f.mobile) && !IsBlank(f.email)
             && !IsBlank(f.marks10.text) && !IsBlank(f.marks12.text) && !IsBlank(f.income.text)
             && IsBlank(f.category)) ==>
              Submit(f) == Rejected(Category)
    ensures Submit(f).Evaluated? <==>
              (!IsBlank(f.name) && !IsBlank(f.mobile) && !IsBlank(f.email)
               && !IsBlank(f.marks10.text) && !IsBlank(f.marks12.text) && !IsBlank(f.income.text)
               && !IsBlank(f.category))
  {
    var checks := Checks(f);
    var b := Benefits(ApplicantOf(f));
    if IsBlank(f.name) {
      FirstUnfilledWins(checks, b, 0);
    } else if IsBlank(f.mobile) {
      FirstUnfilledWins(checks, b, 1);
    } else if IsBlank(f.email) {
      FirstUnfilledWins(checks, b, 2);
    } else if IsBlank(f.marks10.text) {
      FirstUnfilledWins(checks, b, 3);
    } else if IsBlank(f.marks12.text) {
      FirstUnfilledWins(checks, b, 4);
    } else if IsBlank(f.income.text) {
      FirstUnfilledWins(checks, b, 5);
    } else if IsBlank(f.category) {
      FirstUnfilledWins(checks, b, 6);
    } else {
      AllFilledEvaluates(checks, b);
    }
  }

  /** Raising either percentage or lowering the income never removes a card. */
  lemma Monotone(a: Applicant, b: Applicant)
    requires a.category == b.category
    requires b.marks10 >= a.marks10 && b.marks12 >= a.marks12 && b.income <= a.income
    ensures Benefits(a) <= Benefits(b)
  {
  }

  /** Outside the General category, MYSY brings Digital Gujarat with it. */
  lemma MysyBringsDigitalGujarat(a: Applicant)
    requires a.category != "General"
    ensures Mysy in Benefits(a) ==> DigitalGujarat in Benefits(a)
  {
  }
}
