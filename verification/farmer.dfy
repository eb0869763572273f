/**
 * The farmer scheme engine (`Farmer.jsx`): the scheme table, the profile,
 * and `runEligibility`, which keeps the schemes offered in the farmer's
 * state whose rule the profile satisfies and adds up their benefit amounts.
 */
module Farmer {
  import opened Options

  /** Metadata of an uploaded document: file name, size, the document kind
      it was uploaded as, and the OCR text when OCR ran on it. */
  datatype Upload = Upload(name: string, size: nat, docType: string, ocr: Option<string>)

  /** `profile.docs`: uploads by key, and the user's explicit confirmations
      of semantic documents ("aadhaar", "bank", "land"). */
  datatype Docs = Docs(uploads: map<string, Upload>, confirmed: map<string, bool>)

  /** A farmer profile. The numeric fields are None while their input is
      empty; otherwise they hold the number read from it. */
  datatype Profile = Profile(
    name: string,
    land: Option<real>,
    crop: string,
    income: Option<real>,
    age: Option<real>,
    caste: string,
    loan: string,
    farmerType: string,
    state: string,
    aadhaar: string,
    docs: Docs)

  /** `emptyProfile`. */
  const EmptyProfile := Profile("", None, "", None, None, "", "", "", "", "", Docs(map[], map[]))

  /** What the rules see: numbers with empty inputs read as 0, and the state
      with an empty answer read as "all". */
  datatype Env = Env(
    income: real, land: real, age: real,
    loan: string, crop: string, caste: string, state: string)

  /** The `env` built at the start of `runEligibility`. */
  function EnvOf(p: Profile): (e: Env)
    ensures p.income.None? ==> e.income == 0.0
    ensures p.land.None? ==> e.land == 0.0
    ensures p.age.None? ==> e.age == 0.0
    ensures p.state == "" ==> e.state == "all"
    ensures p.state != "" ==> e.state == p.state
  {
    Env(p.income.GetOr(0.0), p.land.GetOr(0.0), p.age.GetOr(0.0),
        p.loan, p.crop, p.caste, if p.state == "" then "all" else p.state)
  }

  /** The rules of the default schemes. */
  datatype Rule =
    | SmallHolder     // PM-KISAN: income <= 600000, land <= 2, age >= 18
    | NoLoanCredit    // KCC: no current loan, income <= 800000
    | CropInsured     // PMFBY: a crop is given, income <= 1000000
    | Always          // Soil Health Card: everyone

  predicate RuleHolds(rule: Rule, e: Env) {
    match rule
    case SmallHolder => e.income <= 600000.0 && e.land <= 2.0 && e.age >= 18.0
    case NoLoanCredit => e.loan == "no" && e.income <= 800000.0
    case CropInsured => e.crop != "" && e.income <= 1000000.0
    case Always => true
  }

  /** A titled group of application steps. */
  datatype StepGroup = StepGroup(title: string, items: seq<string>)

  datatype Scheme = Scheme(
    id: string,
    title: string,
    amount: int,
    category: string,
    states: string,
    rule: Rule,
    steps: seq<StepGroup>)

  /** A scheme is kept when it is offered in the profile's state and its
      rule holds. */
  predicate Keeps(s: Scheme, e: Env) {
    (s.states == "all" || s.states == e.state) && RuleHolds(s.rule, e)
  }

  /** The kept schemes, in table order (`schemes.filter(...)`). */
  function Eligible(schemes: seq<Scheme>, e: Env): (r: seq<Scheme>)
    ensures |r| <= |schemes|
    decreases |schemes|
  {
    if schemes == [] then []
    else
      var rest := Eligible(schemes[..|schemes| - 1], e);
      var last := schemes[|schemes| - 1];
      if Keeps(last, e) then rest + [last] else rest
  }

  /** The sum of the amounts (`reduce((sum, s) => sum + s.amount, 0)`). */
  function Total(schemes: seq<Scheme>): (r: int)
    ensures (forall i :: 0 <= i < |schemes| ==> schemes[i].amount >= 0) ==> r >= 0
    decreases |schemes|
  {
    if schemes == [] then 0 else Total(schemes[..|schemes| - 1]) + schemes[|schemes| - 1].amount
  }

  /** `runEligibility`: one pass over the table, keeping schemes and adding
      up their amounts. */
  method RunEligibility(p: Profile, schemes: seq<Scheme>) returns (eligible: seq<Scheme>, total: int)
    ensures eligible == Eligible(schemes, EnvOf(p))
    ensures total == Total(eligible)
    ensures forall s :: s in eligible <==> s in schemes && Keeps(s, EnvOf(p))
  {
    var e := EnvOf(p);
    eligible := [];
    total := 0;
    var i := 0;
    while i < |schemes|
      invariant 0 <= i <= |schemes|
      invariant eligible == Eligible(schemes[..i], e)
      invariant total == Total(eligible)
    {
      var s := schemes[i];
      EligibleStep(schemes, i, e);
      if (s.states == "all" || s.states == e.state) && RuleHolds(s.rule, e) {
        TotalAppend(eligible, s);
        eligible := eligible + [s];
        total := total + s.amount;
      }
      i := i + 1;
    }
    assert schemes[..i] == schemes;
    EligibleMembers(schemes, e);
  }

  /** The alerts `handleCheckAndSave` raises instead of checking. */
  const NameAlert := "Please enter name"
  const AadhaarAlert := "Aadhaar is required. Please upload Aadhaar and run OCR or enter Aadhaar number manually."

  /** What the "check and save" button produces: a refusal with its alert,
      or the eligibility result. */
  datatype SaveOutcome =
    | Refused(alert: string)
    | Saved(eligible: seq<Scheme>, total: int)

  /** `handleCheckAndSave`: a profile without a name, then one without an
      Aadhaar number, is refused; otherwise eligibility runs. Fields are
      tested with `!field`, so white space counts as given. */
  method CheckAndSave(p: Profile, schemes: seq<Scheme>) returns (r: SaveOutcome)
    ensures p.name == "" ==> r == Refused(NameAlert)
    ensures p.name != "" && p.aadhaar == "" ==> r == Refused(AadhaarAlert)
    ensures r.Saved? <==> p.name != "" && p.aadhaar != ""
    ensures r.Saved? ==> r.eligible == Eligible(schemes, EnvOf(p)) && r.total == Total(r.eligible)
  {
    if p.name == "" {
      return Refused(NameAlert);
    }
    if p.aadhaar == "" {
      return Refused(AadhaarAlert);
    }
    var eligible, total := RunEligibility(p, schemes);
    r := Saved(eligible, total);
  }

  /** Extending the table by one scheme extends the result by that scheme
      exactly when it is kept. */
  lemma EligibleStep(schemes: seq<Scheme>, i: nat, e: Env)
    requires i < |schemes|
    ensures Eligible(schemes[..i + 1], e) ==
              Eligible(schemes[..i], e) + (if Keeps(schemes[i], e) then [schemes[i]] else [])
  {
    assert schemes[..i + 1][..i] == schemes[..i];
  }

  /** Appending a scheme adds its amount. */
  lemma TotalAppend(xs: seq<Scheme>, s: Scheme)
    ensures Total(xs + [s]) == Total(xs) + s.amount
  {
    assert (xs + [s])[..|xs|] == xs;
  }

  /** A scheme is in the result exactly when it is in the table and kept. */
  lemma {:induction false} EligibleMembers(schemes: seq<Scheme>, e: Env)
    ensures forall s :: s in Eligible(schemes, e) <==> s in schemes && Keeps(s, e)
    decreases |schemes|
  {
    if schemes != [] {
      var init := schemes[..|schemes| - 1];
      EligibleMembers(init, e);
      assert schemes == init + [schemes[|schemes| - 1]];
    }
  }

  /** The positions of the kept schemes, in increasing order. */
  function KeptPositions(schemes: seq<Scheme>, e: Env): (ps: seq<nat>)
    ensures forall k :: 0 <= k < |ps| ==> ps[k] < |schemes| && Keeps(schemes[ps[k]], e)
    ensures forall k, l :: 0 <= k < l < |ps| ==> ps[k] < ps[l]
    ensures forall i :: 0 <= i < |schemes| && Keeps(schemes[i], e) ==> i in ps
    decreases |schemes|
  {
    if schemes == [] then []
    else
      var init := schemes[..|schemes| - 1];
      var rest := KeptPositions(init, e);
      assert forall k :: 0 <= k < |rest| ==> schemes[rest[k]] == init[rest[k]];
      if Keeps(schemes[|schemes| - 1], e) then rest + [|schemes| - 1] else rest
  }

  /** The result is the table restricted to the kept positions: an
      order-preserving selection that drops exactly the rejected schemes. */
  lemma {:induction false} EligibleIsOrderedSelection(schemes: seq<Scheme>, e: Env)
    ensures |Eligible(schemes, e)| == |KeptPositions(schemes, e)|
    ensures forall k :: 0 <= k < |Eligible(schemes, e)| ==>
              Eligible(schemes, e)[k] == schemes[KeptPositions(schemes, e)[k]]
    decreases |schemes|
  {
    if schemes != [] {
      var init := schemes[..|schemes| - 1];
      var last := schemes[|schemes| - 1];
      EligibleIsOrderedSelection(init, e);
      var el, ps := Eligible(init, e), KeptPositions(init, e);
      var el', ps' := Eligible(schemes, e), KeptPositions(schemes, e);
      assert el' == if Keeps(last, e) then el + [last] else el;
      assert ps' == if Keeps(last, e) then ps + [|schemes| - 1] else ps;
      forall k | 0 <= k < |el'|
        ensures el'[k] == schemes[ps'[k]]
      {
        if k < |el| {
          assert el'[k] == el[k] && ps'[k] == ps[k];
          assert schemes[ps[k]] == init[ps[k]];
        }
      }
    }
  }

  /** With non-negative amounts, the total lies between 0 and the sum of the
      whole table. */
  lemma {:induction false} TotalBounds(schemes: seq<Scheme>, e: Env)
    requires forall i :: 0 <= i < |schemes| ==> schemes[i].amount >= 0
    ensures 0 <= Total(Eligible(schemes, e)) <= Total(schemes)
    decreases |schemes|
  {
    if schemes != [] {
      var init := schemes[..|schemes| - 1];
      TotalBounds(init, e);
      TotalStep(schemes, e);
    }
  }

  /** Each scheme adds its amount to the total exactly when it is kept. */
  lemma TotalStep(schemes: seq<Scheme>, e: Env)
    requires schemes != []
    ensures Total(Eligible(schemes, e)) ==
              Total(Eligible(schemes[..|schemes| - 1], e))
              + (if Keeps(schemes[|schemes| - 1], e) then schemes[|schemes| - 1].amount else 0)
  {
    var rest := Eligible(schemes[..|schemes| - 1], e);
    var last := schemes[|schemes| - 1];
    if Keeps(last, e) {
      assert (rest + [last])[..|rest|] == rest;
    }
  }

  /** A scheme restricted to some state is never kept for a profile with no
      state given. */
  lemma StateRestrictedNeedsState(s: Scheme, p: Profile)
    requires s.states != "all" && p.state == ""
    ensures s !in Eligible([s], EnvOf(p))
  {
  }

  // ---- The default scheme table (`DEFAULT_SCHEMES`) ----

  const PmKisan := Scheme(
    "pmkisan", "PM Kisan Samman Nidhi (PM-KISAN)", 6000, "financial", "all", SmallHolder,
    [ StepGroup("Before you start", [
        "Keep Aadhaar (front/back) photos ready",
        "Keep a cancelled cheque or bank passbook copy ready",
        "Scan or photograph land ownership proof (registry/khatauni)"]),
      StepGroup("Registration", [
        "Open the PM-KISAN portal and choose 'Beneficiary Registration'",
        "Enter Aadhaar and complete OTP verification",
        "Fill personal details exactly as on Aadhaar"]),
      StepGroup("Bank & Land details", [
        "Provide bank account details and upload a cancelled cheque",
        "Enter survey/khasra numbers and area for your land parcel",
        "Upload land ownership documents with clear photos"]),
      StepGroup("Submit & follow-up", [
        "Review uploads and submit application",
        "Save registration/reference number (screenshot or download)",
        "Check beneficiary status after 1-2 weeks and contact CSC if issues"]) ])

  const Kcc := Scheme(
    "kcc", "Kisan Credit Card (KCC)", 300000, "loan", "all", NoLoanCredit,
    [ StepGroup("Eligibility & documents", [
        "Confirm you do not have disqualifying outstanding loans",
        "Collect Aadhaar, land papers, bank statements and income proof"]),
      StepGroup("Apply for KCC", [
        "Visit participating bank branch or apply via bank portal",
        "Request and fill the KCC application form",
        "Attach required documents and passport photo"]),
      StepGroup("Bank processing", [
        "Provide estimated credit needs and cash-flow plan",
        "Allow bank verification of land & identity (field visit may occur)",
        "Sign loan agreement once sanctioned and collect sanction letter"]),
      StepGroup("Post-sanction steps", [
        "Receive KCC card/account and note repayment terms",
        "Use credit for working capital and follow repayment schedule"]) ])

  const Pmfby := Scheme(
    "pmfbby", "PM Fasal Bima Yojana (PMFBY)", 0, "insurance", "all", CropInsured,
    [ StepGroup("Pre-registration", [
        "Check PMFBY season window for your crop",
        "Note required documents: Aadhaar, land proof, area estimates"]),
      StepGroup("Registration", [
        "Register on PMFBY portal or with local agent",
        "Enter crop type, season and insured area carefully"]),
      StepGroup("Payment & policy", [
        "Pay premium and save payment receipt",
        "Record policy number and claim timelines"]),
      StepGroup("Claim process", [
        "If loss occurs, notify insurer/local office within window",
        "Preserve photographic evidence and field diary entries",
        "Submit claim documents and track surveyor inspection"]) ])

  const SoilHealth := Scheme(
    "soilhealth", "Soil Health Card Scheme", 0, "productivity", "all", Always,
    [ StepGroup("Registration & sample kit", [
        "Register on Soil Health portal or visit extension center",
        "Request sample kit and collection guidance"]),
      StepGroup("Sample collection", [
        "Collect soil samples from recommended grids across the field",
        "Label each sample with plot/survey number and date"]),
      StepGroup("Submit & track", [
        "Submit samples to lab and obtain tracking ID",
        "Monitor lab status and wait for analysis results"]),
      StepGroup("Apply recommendations", [
        "Review Soil Health Card and follow fertilizer recommendations",
        "Consult agricultural officer for dosing and procurement",
        "Re-test every 2-3 years or if crop response changes"]) ])

  const DefaultSchemes: seq<Scheme> := [PmKisan, Kcc, Pmfby, SoilHealth]

  /** What the default table offers a profile: Soil Health always, the
      others exactly under their thresholds. */
  lemma DefaultEligibility(p: Profile)
    ensures SoilHealth in Eligible(DefaultSchemes, EnvOf(p))
    ensures PmKisan in Eligible(DefaultSchemes, EnvOf(p)) <==>
              p.income.GetOr(0.0) <= 600000.0 && p.land.GetOr(0.0) <= 2.0 && p.age.GetOr(0.0) >= 18.0
    ensures Kcc in Eligible(DefaultSchemes, EnvOf(p)) <==>
              p.loan == "no" && p.income.GetOr(0.0) <= 800000.0
    ensures Pmfby in Eligible(DefaultSchemes, EnvOf(p)) <==>
              p.crop != "" && p.income.GetOr(0.0) <= 1000000.0
  {
    EligibleMembers(DefaultSchemes, EnvOf(p));
  }

  /** With the default table the total benefit is PM-KISAN's 6000 plus KCC's
      300000 when they apply, so between 0 and 306000. */
  lemma DefaultTotal(p: Profile)
    ensures Total(Eligible(DefaultSchemes, EnvOf(p))) ==
              (if Keeps(PmKisan, EnvOf(p)) then 6000 else 0)
              + (if Keeps(Kcc, EnvOf(p)) then 300000 else 0)
    ensures 0 <= Total(Eligible(DefaultSchemes, EnvOf(p))) <= 306000
  {
    var e := EnvOf(p);
    var d := DefaultSchemes;
    assert d[..3][..2][..1][..0] == [];
    TotalStep(d[..3][..2][..1], e);
    TotalStep(d[..3][..2], e);
    TotalStep(d[..3], e);
    TotalStep(d, e);
  }
}
