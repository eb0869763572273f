/**
 * The women's benefits form (`Woman.jsx`): five text fields and five yes/no
 * answers checked in order, then five benefit rules over the answers, the
 * age and the annual income.
 */
module Woman {
  import opened Text
  import opened Validation

  datatype Scheme = Pmmvy | WidowPension | BetiBachao | StandUp | JananiSuraksha

  /** The form as typed; each answer is the value of the chosen radio button
      ("yes" or "no"), or "" when none is chosen. */
  datatype Form = Form(
    name: string, mobile: string, email: string, age: Entry, income: Entry,
    widow: string, pregnant: string, student: string, bank: string, working: string)

  datatype Applicant = Applicant(
    age: real, income: real,
    widow: string, pregnant: string, student: string, bank: string, working: string)

  function ApplicantOf(f: Form): Applicant {
    Applicant(f.age.value, f.income.value, f.widow, f.pregnant, f.student, f.bank, f.working)
  }

  datatype Field =
    | Name | Mobile | Email | Age | Income
    | Widow | Pregnant | Student | Bank | Working

  function Alert(field: Field): string {
    match field
    case Name => "Please enter your name"
    case Mobile => "Please enter your mobile number"
    case Email => "Please enter your email"
    case Age => "Please enter your age"
    case Income => "Please enter your annual income"
    case Widow => "Please select widow status"
    case Pregnant => "Please select pregnancy status"
    case Student => "Please select student status"
    case Bank => "Please select bank account status"
    case Working => "Please select working status"
  }

  /** Different blank fields raise different alerts, so the alert names
      the field to fill in. */
  lemma AlertsDistinct(a: Field, b: Field)
    requires a != b
    ensures Alert(a) != Alert(b)
  {
  }

  /** The required fields, in the order the form checks them: the text
      fields are trimmed, the answers only checked for being chosen. */
  function Checks(f: Form): seq<Check<Field>> {
    [ TextCheck(f.name, Name),
      TextCheck(f.mobile, Mobile),
      TextCheck(f.email, Email),
      TextCheck(f.age.text, Age),
      TextCheck(f.income.text, Income),
      AnswerCheck(f.widow, Widow),
      AnswerCheck(f.pregnant, Pregnant),
      AnswerCheck(f.student, Student),
      AnswerCheck(f.bank, Bank),
      AnswerCheck(f.working, Working) ]
  }

  /** The rule behind each benefit card. */
  predicate Qualifies(s: Scheme, a: Applicant) {
    match s
    case Pmmvy => a.pregnant == "yes" && a.bank == "yes"
    case WidowPension => a.widow == "yes" && a.income <= 120000.0
    case BetiBachao => a.student == "yes" && a.age <= 18.0
    case StandUp => a.working == "yes" && a.bank == "yes"
    case JananiSuraksha => a.pregnant == "yes" && a.bank == "yes"
  }

  /** The benefit cards shown for an applicant. */
  function Benefits(a: Applicant): (r: set<Scheme>)
    ensures forall s :: s in r <==> Qualifies(s, a)
    ensures Pmmvy in r <==> JananiSuraksha in r
    ensures WidowPension in r <==> a.widow == "yes" && a.income <= 120000.0
    ensures BetiBachao in r <==> a.student == "yes" && a.age <= 18.0
    ensures a.bank != "yes" ==> r <= {WidowPension, BetiBachao}
  {
    (if Qualifies(Pmmvy, a) then {Pmmvy} else {})
    + (if Qualifies(WidowPension, a) then {WidowPension} else {})
    + (if Qualifies(BetiBachao, a) then {BetiBachao} else {})
    + (if Qualifies(StandUp, a) then {StandUp} else {})
    + (if Qualifies(JananiSuraksha, a) then {JananiSuraksha} else {})
  }

  /** `handleSubmit`: the checks run first, then the cards are evaluated and
      the "not eligible" card shows when no rule holds. */
  function Submit(f: Form): (r: Outcome<Field, Scheme>)
    ensures r.Evaluated? ==>
              r.benefits == Benefits(ApplicantOf(f))
              && (r.notEligible <==>
                    !Qualifies(Pmmvy, ApplicantOf(f)) && !Qualifies(WidowPension, ApplicantOf(f))
                    && !Qualifies(BetiBachao, ApplicantOf(f)) && !Qualifies(StandUp, ApplicantOf(f))
                    && !Qualifies(JananiSuraksha, ApplicantOf(f)))
  {
    Validation.Submit(Checks(f), Benefits(ApplicantOf(f)))
  }

  /** Every text field is filled. */
  predicate TextFilled(f: Form) {
    !IsBlank(f.name) && !IsBlank(f.mobile) && !IsBlank(f.email)
    && !IsBlank(f.age.text) && !IsBlank(f.income.text)
  }

  /** The text fields are checked in order, and the first blank one decides
      the alert. */
  lemma ValidationOrder(f: Form)
    ensures IsBlank(f.name) ==> Submit(f) == Rejected(Name)
    ensures (!IsBlank(f.name) && IsBlank(f.mobile)) ==>
              Submit(f) == Rejected(Mobile)
    ensures (!IsBlank(f.name) && !IsBlank(f.mobile) && IsBlank(f.email)) ==>
              Submit(f) == Rejected(Email)
    ensures (!IsBlank(f.name) && !IsBlank(f.mobile) && !IsBlank(f.email)
             && IsBlank(f.age.text)) ==>
              Submit(f) == Rejected(Age)
    ensures (!IsBlank(f.name) && !IsBlank(f.mobile) && !IsBlank(f.email)
             && !IsBlank(f.age.text) && IsBlank(f.income.text)) ==>
              Submit(f) == Rejected(Income)
  {
    var checks := Checks(f);
    var b := Benefits(ApplicantOf(f));
    if IsBlank(f.name) {
      FirstUnfilledWins(checks, b, 0);
    } else if IsBlank(f.mobile) {
      FirstUnfilledWins(checks, b, 1);
    } else if IsBlank(f.email) {
      FirstUnfilledWins(checks, b, 2);
    } else if IsBlank(f.age.text) {
      FirstUnfilledWins(checks, b, 3);
    } else if IsBlank(f.income.text) {
      FirstUnfilledWins(checks, b, 4);
    }
  }

  /** Once the text fields are filled, the five questions are checked in
      order, and the cards are computed only when all are answered. */
  lemma AnswerOrder(f: Form)
    ensures (TextFilled(f) && f.widow == "") ==> Submit(f) == Rejected(Widow)
    ensures (TextFilled(f) && f.widow != "" && f.pregnant == "") ==>
              Submit(f) == Rejected(Pregnant)
    ensures (TextFilled(f) && f.widow != "" && f.pregnant != "" && f.student == "") ==>
              Submit(f) == Rejected(Student)
    ensures (TextFilled(f) && f.widow != "" && f.pregnant != "" && f.student != ""
             && f.bank == "") ==>
              Submit(f) == Rejected(Bank)
    ensures (TextFilled(f) && f.widow != "" && f.pregnant != "" && f.student != ""
             && f.bank != "" && f.working == "") ==>
              Submit(f) == Rejected(Working)
    ensures Submit(f).Evaluated? <==>
              (TextFilled(f) && f.widow != "" && f.pregnant != "" && f.student != ""
               && f.bank != "" && f.working != "")
  {
    var checks := Checks(f);
    var b := Benefits(ApplicantOf(f));
    if !TextFilled(f) {
      ValidationOrder(f);
    } else if f.widow == "" {
      FirstUnfilledWins(checks, b, 5);
    } else if f.pregnant == "" {
      FirstUnfilledWins(checks, b, 6);
    } else if f.student == "" {
      FirstUnfilledWins(checks, b, 7);
    } else if f.bank == "" {
      FirstUnfilledWins(checks, b, 8);
    } else if f.working == "" {
      FirstUnfilledWins(checks, b, 9);
    } else {
      AllFilledEvaluates(checks, b);
    }
  }

  /** Being younger or earning less never removes a card. */
  lemma Monotone(a: Applicant, b: Applicant)
    requires a.(age := b.age, income := b.income) == b
    requires b.age <= a.age && b.income <= a.income
    ensures Benefits(a) <= Benefits(b)
  {
  }
}
