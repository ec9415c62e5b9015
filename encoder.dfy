/** The feature encoder of the churn app: a customer profile, as the form collects it,
    becomes the 20-slot numeric vector the fitted scaler and classifier were trained on. */
module FeatureEncoder {
  import opened Wrappers

  /** One customer as the form collects it: display strings for the categorical
      fields, numbers for the rest. */
  datatype RawProfile = RawProfile(
    gender: string,
    seniorCitizen: int,
    partner: string,
    dependents: string,
    tenure: int,
    multipleLines: string,
    internetService: string,
    onlineSecurity: string,
    onlineBackup: string,
    deviceProtection: string,
    techSupport: string,
    streamingTV: string,
    streamingMovies: string,
    contract: string,
    paperlessBilling: string,
    paymentMethod: string,
    monthlyCharges: real,
    totalCharges: real)

  // ---------------------------------------------------------------------------
  // The choice lists of the form's widgets: the domain a profile normally comes from

  const YesNo: seq<string> := ["No", "Yes"]
  const Genders: seq<string> := ["Female", "Male"]
  const LineOptions: seq<string> := ["No", "Yes", "No phone service"]
  const InternetOptions: seq<string> := ["DSL", "Fiber optic", "No"]
  const AddOnOptions: seq<string> := ["No", "Yes", "No internet service"]
  const ContractOptions: seq<string> := ["Month-to-month", "One year", "Two year"]
  const PaymentOptions: seq<string> :=
    ["Electronic check", "Mailed check", "Bank transfer (automatic)", "Credit card (automatic)"]

  /** The six internet add-ons, in the order the script recodes them. */
  function AddOns(p: RawProfile): seq<string> {
    [p.onlineSecurity, p.onlineBackup, p.deviceProtection, p.techSupport, p.streamingTV, p.streamingMovies]
  }

  /** Every field holds a value its widget can produce; the number inputs have a minimum of 0. */
  predicate ValidProfile(p: RawProfile) {
    && p.gender in Genders
    && p.seniorCitizen in [0, 1]
    && p.partner in YesNo
    && p.dependents in YesNo
    && p.tenure >= 0
    && p.multipleLines in LineOptions
    && p.internetService in InternetOptions
    && (forall a | a in AddOns(p) :: a in AddOnOptions)
    && p.contract in ContractOptions
    && p.paperlessBilling in YesNo
    && p.paymentMethod in PaymentOptions
    && p.monthlyCharges >= 0.0
    && p.totalCharges >= 0.0
  }

  /** The add-ons say "No internet service" exactly when the customer has no internet service:
      the domain on which the vector loses nothing (the form itself does not enforce this). */
  predicate Consistent(p: RawProfile) {
    forall a | a in AddOns(p) :: a == "No internet service" <==> p.internetService == "No"
  }

  // ---------------------------------------------------------------------------
  // Total recodings: an if/else over any string, no failure

  /** `1 if gender == "Male" else 0`: every string other than "Male" encodes to 0. */
  function GenderCode(gender: string): int
  {
    if gender == "Male" then 1 else 0
  }

  /** `internet_fix`: both "off" answers collapse to 0, every other string to 1. */
  function InternetFix(v: string): int
  {
    if v in ["No", "No internet service"] then 0 else 1
  }

  /** The MultipleLines recoding: 0 for both "No" answers, 1 for every other string. */
  function MultipleLinesCode(v: string): int
  {
    if v in ["No", "No phone service"] then 0 else 1
  }

  /** The derived NoInternetService flag, read from the raw InternetService answer. */
  function NoInternetFlag(internetService: string): int
  {
    if internetService == "No" then 1 else 0
  }

  /** The derived NoPhoneService flag, read from the raw MultipleLines answer. */
  function NoPhoneFlag(multipleLines: string): int
  {
    if multipleLines == "No phone service" then 1 else 0
  }

  /** Gender encodes to 1 exactly for "Male"; "Female" and every other string give 0. */
  lemma GenderCodeIsMaleFlag(gender: string)
    ensures GenderCode(gender) in {0, 1}
    ensures GenderCode(gender) == 1 <==> gender == "Male"
    ensures GenderCode("Female") == 0
  {
  }

  /** `internet_fix` is total: the two "off" answers give 0, "Yes" and every other string 1. */
  lemma InternetFixCollapsesOffAnswers(v: string)
    ensures InternetFix(v) in {0, 1}
    ensures InternetFix(v) == 0 <==> v == "No" || v == "No internet service"
    ensures InternetFix("No") == InternetFix("No internet service") == 0 && InternetFix("Yes") == 1
  {
  }

  /** MultipleLines recodes to 1 only for answers other than "No" and "No phone service". */
  lemma MultipleLinesCodeIsTotal(v: string)
    ensures MultipleLinesCode(v) in {0, 1}
    ensures MultipleLinesCode(v) == 1 <==> v != "No" && v != "No phone service"
  {
  }

  /** The two derived flags are 0/1 indicators of the raw sentinel answers. */
  lemma DerivedFlagsAreIndicators(internetService: string, multipleLines: string)
    ensures NoInternetFlag(internetService) in {0, 1}
    ensures NoInternetFlag(internetService) == 1 <==> internetService == "No"
    ensures NoPhoneFlag(multipleLines) in {0, 1}
    ensures NoPhoneFlag(multipleLines) == 1 <==> multipleLines == "No phone service"
  {
  }

  // ---------------------------------------------------------------------------
  // The four dictionaries and their subscripts

  datatype Table = BinaryMap | InternetMap | ContractMap | PaymentMap

  /** A failed subscript: the KeyError raised on `table` for `key`. */
  datatype LookupError = KeyError(table: Table, key: string)

  function Codes(t: Table): map<string, int> {
    match t
    case BinaryMap => map["Yes" := 1, "No" := 0]
    case InternetMap => map["DSL" := 0, "Fiber optic" := 1, "No" := 2]
    case ContractMap => map["Month-to-month" := 0, "One year" := 1, "Two year" := 2]
    case PaymentMap =>
      map["Electronic check" := 0, "Mailed check" := 1,
          "Bank transfer (automatic)" := 2, "Credit card (automatic)" := 3]
  }

  /** The code of a key that is in the table. */
  function Code(t: Table, key: string): int
    requires key in Codes(t)
  {
    Codes(t)[key]
  }

  /** `table[key]`: the code, or a KeyError; there is no default. */
  function Lookup(t: Table, key: string): Result<int, LookupError> {
    if key in Codes(t) then Success(Code(t, key)) else Failure(KeyError(t, key))
  }

  lemma BinaryMapCodes(key: string)
    ensures Lookup(BinaryMap, key) == Success(1) <==> key == "Yes"
    ensures Lookup(BinaryMap, key) == Success(0) <==> key == "No"
    ensures Lookup(BinaryMap, key).Failure? <==> key !in YesNo
    ensures Lookup(BinaryMap, key).Success? ==> Lookup(BinaryMap, key).value in {0, 1}
  {
  }

  lemma InternetMapCodes(key: string)
    ensures Lookup(InternetMap, key) == Success(0) <==> key == "DSL"
    ensures Lookup(InternetMap, key) == Success(1) <==> key == "Fiber optic"
    ensures Lookup(InternetMap, key) == Success(2) <==> key == "No"
    ensures Lookup(InternetMap, key).Failure? <==> key !in InternetOptions
  {
  }

  lemma ContractMapCodes(key: string)
    ensures Lookup(ContractMap, key) == Success(0) <==> key == "Month-to-month"
    ensures Lookup(ContractMap, key) == Success(1) <==> key == "One year"
    ensures Lookup(ContractMap, key) == Success(2) <==> key == "Two year"
    ensures Lookup(ContractMap, key).Failure? <==> key !in ContractOptions
  {
  }

  lemma PaymentMapCodes(key: string)
    ensures Lookup(PaymentMap, key) == Success(0) <==> key == "Electronic check"
    ensures Lookup(PaymentMap, key) == Success(1) <==> key == "Mailed check"
    ensures Lookup(PaymentMap, key) == Success(2) <==> key == "Bank transfer (automatic)"
    ensures Lookup(PaymentMap, key) == Success(3) <==> key == "Credit card (automatic)"
    ensures Lookup(PaymentMap, key).Failure? <==> key !in PaymentOptions
  {
  }

  /** A subscript that succeeds. */
  predicate Known(s: (Table, string)) {
    s.1 in Codes(s.0)
  }

  /** The six subscripts the script performs, in the order it performs them. */
  function Subscripts(p: RawProfile): seq<(Table, string)> {
    [(BinaryMap, p.partner), (BinaryMap, p.dependents), (BinaryMap, p.paperlessBilling),
     (InternetMap, p.internetService), (ContractMap, p.contract), (PaymentMap, p.paymentMethod)]
  }

  /** The KeyError that running `subs` in order raises: the first subscript whose key is missing. */
  function FirstKeyError(subs: seq<(Table, string)>): Option<LookupError> {
    if subs == [] then None
    else if !Known(subs[0]) then Some(KeyError(subs[0].0, subs[0].1))
    else FirstKeyError(subs[1..])
  }

  /** No KeyError is raised exactly when every subscript succeeds. */
  lemma {:induction false} NoKeyErrorIffAllKnown(subs: seq<(Table, string)>)
    ensures FirstKeyError(subs).None? <==> forall i | 0 <= i < |subs| :: Known(subs[i])
  {
    if subs != [] {
      NoKeyErrorIffAllKnown(subs[1..]);
      assert forall i | 0 < i < |subs| :: subs[i] == subs[1..][i - 1];
    }
  }

  /** The KeyError raised is that of the first missing key: a subscript that fails after
      every earlier one succeeded. */
  lemma {:induction false} KeyErrorIsFirstMissing(subs: seq<(Table, string)>, i: nat)
    requires i < |subs| && !Known(subs[i])
    requires forall j | 0 <= j < i :: Known(subs[j])
    ensures FirstKeyError(subs) == Some(KeyError(subs[i].0, subs[i].1))
  {
    if i > 0 {
      assert Known(subs[0]);
      KeyErrorIsFirstMissing(subs[1..], i - 1);
    }
  }

  /** Every key the script subscripts is in its table. */
  predicate KeysKnown(p: RawProfile) {
    && p.partner in Codes(BinaryMap)
    && p.dependents in Codes(BinaryMap)
    && p.paperlessBilling in Codes(BinaryMap)
    && p.internetService in Codes(InternetMap)
    && p.contract in Codes(ContractMap)
    && p.paymentMethod in Codes(PaymentMap)
  }

  /** Running the subscripts from position k on: the one at k raises, or the run goes on. */
  lemma FirstKeyErrorStep(subs: seq<(Table, string)>, k: nat)
    requires k <= |subs|
    ensures k == |subs| ==> FirstKeyError(subs[k..]) == None
    ensures k < |subs| ==>
      FirstKeyError(subs[k..]) ==
        (if Known(subs[k]) then FirstKeyError(subs[k + 1..]) else Some(KeyError(subs[k].0, subs[k].1)))
  {
    if k < |subs| {
      assert subs[k..][1..] == subs[k + 1..];
    }
  }

  // ---------------------------------------------------------------------------
  // The vector

  /** The columns of the vector, in the order the scaler and classifier were fit on. */
  datatype Feature =
    | Gender | SeniorCitizen | Partner | Dependents | Tenure
    | MultipleLines | InternetService | OnlineSecurity | OnlineBackup
    | DeviceProtection | TechSupport | StreamingTV | StreamingMovies
    | Contract | PaperlessBilling | PaymentMethod | MonthlyCharges
    | TotalCharges | NoInternetService | NoPhoneService

  const FeatureOrder: seq<Feature> := [
    Gender, SeniorCitizen, Partner, Dependents, Tenure,
    MultipleLines, InternetService, OnlineSecurity, OnlineBackup,
    DeviceProtection, TechSupport, StreamingTV, StreamingMovies,
    Contract, PaperlessBilling, PaymentMethod, MonthlyCharges,
    TotalCharges, NoInternetService, NoPhoneService]

  /** The slot of each column (IndexNamesColumn: the slot FeatureOrder gives it). */
  function Index(f: Feature): (i: nat)
    ensures i < |FeatureOrder|
  {
    match f
    case Gender => 0
    case SeniorCitizen => 1
    case Partner => 2
    case Dependents => 3
    case Tenure => 4
    case MultipleLines => 5
    case InternetService => 6
    case OnlineSecurity => 7
    case OnlineBackup => 8
    case DeviceProtection => 9
    case TechSupport => 10
    case StreamingTV => 11
    case StreamingMovies => 12
    case Contract => 13
    case PaperlessBilling => 14
    case PaymentMethod => 15
    case MonthlyCharges => 16
    case TotalCharges => 17
    case NoInternetService => 18
    case NoPhoneService => 19
  }

  /** FeatureOrder lists each column at its slot. */
  lemma IndexNamesColumn(f: Feature)
    ensures FeatureOrder[Index(f)] == f
  {
  }

  /** Every column appears in the order, and exactly once. */
  lemma FeatureOrderIsComplete()
    ensures |FeatureOrder| == 20
    ensures forall f: Feature :: f in FeatureOrder
    ensures forall i, j | 0 <= i < j < |FeatureOrder| :: FeatureOrder[i] != FeatureOrder[j]
  {
    forall f: Feature ensures f in FeatureOrder {
      IndexNamesColumn(f);
    }
    forall i, j | 0 <= i < j < |FeatureOrder| ensures FeatureOrder[i] != FeatureOrder[j] {
      IndexNamesColumn(FeatureOrder[i]);
      IndexNamesColumn(FeatureOrder[j]);
      assert Index(FeatureOrder[i]) == i;
      assert Index(FeatureOrder[j]) == j;
    }
  }

  /** The value of column `f` in a vector. */
  function Slot(v: seq<real>, f: Feature): real
    requires |v| == |FeatureOrder|
  {
    v[Index(f)]
  }

  /** Lines 217-238: the 20 recoded values, in the order of FeatureOrder. */
  function Assemble(p: RawProfile): (v: seq<real>)
    requires KeysKnown(p)
    ensures |v| == |FeatureOrder|
  {
    [ GenderCode(p.gender) as real,
      p.seniorCitizen as real,
      Code(BinaryMap, p.partner) as real,
      Code(BinaryMap, p.dependents) as real,
      p.tenure as real ] +
    [ MultipleLinesCode(p.multipleLines) as real,
      Code(InternetMap, p.internetService) as real,
      InternetFix(p.onlineSecurity) as real,
      InternetFix(p.onlineBackup) as real,
      InternetFix(p.deviceProtection) as real,
      InternetFix(p.techSupport) as real ] +
    [ InternetFix(p.streamingTV) as real,
      InternetFix(p.streamingMovies) as real,
      Code(ContractMap, p.contract) as real,
      Code(BinaryMap, p.paperlessBilling) as real,
      Code(PaymentMap, p.paymentMethod) as real ] +
    [ p.monthlyCharges,
      p.totalCharges,
      NoInternetFlag(p.internetService) as real,
      NoPhoneFlag(p.multipleLines) as real ]
  }

  /** The preprocessing block as a whole: the six subscripts in script order, the first
      unknown key raising its KeyError; then the assembled vector. */
  function Encode(p: RawProfile): Result<seq<real>, LookupError> {
    var partner :- Lookup(BinaryMap, p.partner);
    var dependents :- Lookup(BinaryMap, p.dependents);
    var paperlessBilling :- Lookup(BinaryMap, p.paperlessBilling);
    var internetService :- Lookup(InternetMap, p.internetService);
    var contract :- Lookup(ContractMap, p.contract);
    var paymentMethod :- Lookup(PaymentMap, p.paymentMethod);
    Success(Assemble(p))
  }

  /** Encoding fails exactly when some subscript does, and then with the KeyError of the
      first key, in script order, that is missing from its table. */
  lemma EncodeRaisesFirstKeyError(p: RawProfile)
    ensures Encode(p).Success? <==> FirstKeyError(Subscripts(p)).None?
    ensures Encode(p).Success? <==> KeysKnown(p)
    ensures Encode(p).Failure? ==> FirstKeyError(Subscripts(p)) == Some(Encode(p).error)
  {
    var subs := Subscripts(p);
    assert subs[0..] == subs;
    FirstKeyErrorStep(subs, 0);
    FirstKeyErrorStep(subs, 1);
    FirstKeyErrorStep(subs, 2);
    FirstKeyErrorStep(subs, 3);
    FirstKeyErrorStep(subs, 4);
    FirstKeyErrorStep(subs, 5);
    FirstKeyErrorStep(subs, 6);
  }

  /** A successful encoding is the assembled vector of a profile whose keys are all known;
      the lemmas below describe that vector slot by slot. */
  lemma EncodedVector(p: RawProfile)
    requires Encode(p).Success?
    ensures KeysKnown(p) && Encode(p).value == Assemble(p)
  {
  }

  /** Gender is 1 for "Male" and 0 for every other answer. */
  lemma GenderSlot(p: RawProfile)
    requires KeysKnown(p)
    ensures Slot(Assemble(p), Gender) == (if p.gender == "Male" then 1.0 else 0.0)
  {
  }

  /** Every profile the form can produce encodes without a KeyError. */
  lemma ValidProfileEncodes(p: RawProfile)
    requires ValidProfile(p)
    ensures Encode(p).Success?
  {
  }

  /** The four numeric inputs are copied unchanged. */
  lemma NumbersPassThrough(p: RawProfile)
    requires KeysKnown(p)
    ensures Slot(Assemble(p), SeniorCitizen) == p.seniorCitizen as real
    ensures Slot(Assemble(p), Tenure) == p.tenure as real
    ensures Slot(Assemble(p), MonthlyCharges) == p.monthlyCharges
    ensures Slot(Assemble(p), TotalCharges) == p.totalCharges
  {
  }

  /** Partner, Dependents and PaperlessBilling are 1 for "Yes" and 0 for "No". */
  lemma BinarySlots(p: RawProfile)
    requires KeysKnown(p)
    ensures Slot(Assemble(p), Partner) == (if p.partner == "Yes" then 1.0 else 0.0)
    ensures Slot(Assemble(p), Dependents) == (if p.dependents == "Yes" then 1.0 else 0.0)
    ensures Slot(Assemble(p), PaperlessBilling) == (if p.paperlessBilling == "Yes" then 1.0 else 0.0)
  {
  }

  /** Each add-on slot is 0 for "No" and "No internet service" alike, and 1 otherwise. */
  lemma AddOnSlots(p: RawProfile)
    requires KeysKnown(p)
    ensures forall k | 0 <= k < 6 ::
      Assemble(p)[Index(OnlineSecurity) + k] == (if AddOns(p)[k] in ["No", "No internet service"] then 0.0 else 1.0)
  {
  }

  /** NoInternetService is 1 exactly for the raw answer "No", which is also exactly when the
      InternetService slot holds 2. */
  lemma NoInternetServiceSlot(p: RawProfile)
    requires KeysKnown(p)
    ensures Slot(Assemble(p), NoInternetService) == (if p.internetService == "No" then 1.0 else 0.0)
    ensures Slot(Assemble(p), NoInternetService) == 1.0 <==> Slot(Assemble(p), InternetService) == 2.0
  {
  }

  /** NoPhoneService is 1 exactly for the raw answer "No phone service", and then the
      MultipleLines slot is 0; that slot is 1 only for answers other than the two "No"s. */
  lemma NoPhoneServiceSlot(p: RawProfile)
    requires KeysKnown(p)
    ensures Slot(Assemble(p), NoPhoneService) == (if p.multipleLines == "No phone service" then 1.0 else 0.0)
    ensures Slot(Assemble(p), NoPhoneService) == 1.0 ==> Slot(Assemble(p), MultipleLines) == 0.0
    ensures Slot(Assemble(p), MultipleLines) == (if p.multipleLines in ["No", "No phone service"] then 0.0 else 1.0)
  {
  }

  /** InternetService, Contract and PaymentMethod carry their table's code. */
  lemma CategoricalSlots(p: RawProfile)
    requires KeysKnown(p)
    ensures Slot(Assemble(p), InternetService) == Code(InternetMap, p.internetService) as real
    ensures Slot(Assemble(p), Contract) == Code(ContractMap, p.contract) as real
    ensures Slot(Assemble(p), PaymentMethod) == Code(PaymentMap, p.paymentMethod) as real
  {
  }

  /** The recoded MultipleLines slot alone cannot tell "No" from "No phone service", so
      NoPhoneService has to be read from the raw answer before it is recoded. */
  lemma NoPhoneServiceNeedsRawAnswer(p: RawProfile)
    requires Encode(p).Success? && p.multipleLines == "No"
    ensures var q := p.(multipleLines := "No phone service");
      && Encode(q).Success?
      && Slot(Encode(q).value, MultipleLines) == Slot(Encode(p).value, MultipleLines)
      && Slot(Encode(q).value, NoPhoneService) != Slot(Encode(p).value, NoPhoneService)
  {
    var q := p.(multipleLines := "No phone service");
    assert Subscripts(q) == Subscripts(p);
  }

  // ---------------------------------------------------------------------------
  // What the vector retains

  function DecodeGender(x: real): string {
    if x == 1.0 then "Male" else "Female"
  }

  function DecodeYesNo(x: real): string {
    if x == 1.0 then "Yes" else "No"
  }

  function DecodeLines(x: real, noPhone: real): string {
    if noPhone == 1.0 then "No phone service" else DecodeYesNo(x)
  }

  function DecodeInternet(x: real): string {
    if x == 0.0 then "DSL" else if x == 1.0 then "Fiber optic" else "No"
  }

  function DecodeAddOn(x: real, noInternet: real): string {
    if noInternet == 1.0 then "No internet service" else DecodeYesNo(x)
  }

  function DecodeContract(x: real): string {
    if x == 0.0 then "Month-to-month" else if x == 1.0 then "One year" else "Two year"
  }

  function DecodePayment(x: real): string {
    if x == 0.0 then "Electronic check"
    else if x == 1.0 then "Mailed check"
    else if x == 2.0 then "Bank transfer (automatic)"
    else "Credit card (automatic)"
  }

  /** Reads a profile back from a vector, using the derived flags to restore the sentinels. */
  function Decode(v: seq<real>): RawProfile
    requires |v| == |FeatureOrder|
  {
    RawProfile(
      DecodeGender(v[0]), v[1].Floor, DecodeYesNo(v[2]), DecodeYesNo(v[3]), v[4].Floor,
      DecodeLines(v[5], v[19]), DecodeInternet(v[6]),
      DecodeAddOn(v[7], v[18]), DecodeAddOn(v[8], v[18]), DecodeAddOn(v[9], v[18]),
      DecodeAddOn(v[10], v[18]), DecodeAddOn(v[11], v[18]), DecodeAddOn(v[12], v[18]),
      DecodeContract(v[13]), DecodeYesNo(v[14]), DecodePayment(v[15]), v[16], v[17])
  }

  // Each field's decoding undoes its encoding on the values the form can produce.

  lemma DecodeGenderInverse(gender: string)
    requires gender in Genders
    ensures DecodeGender(GenderCode(gender) as real) == gender
  {
  }

  lemma DecodeYesNoInverse(answer: string)
    requires answer in YesNo
    ensures answer in Codes(BinaryMap) && DecodeYesNo(Code(BinaryMap, answer) as real) == answer
  {
  }

  lemma DecodeLinesInverse(answer: string)
    requires answer in LineOptions
    ensures DecodeLines(MultipleLinesCode(answer) as real, NoPhoneFlag(answer) as real) == answer
  {
  }

  lemma DecodeInternetInverse(answer: string)
    requires answer in InternetOptions
    ensures answer in Codes(InternetMap) && DecodeInternet(Code(InternetMap, answer) as real) == answer
  {
  }

  /** An add-on answer is recovered from its slot and the NoInternetService flag. */
  lemma DecodeAddOnInverse(answer: string, internetService: string)
    requires answer in AddOnOptions
    requires answer == "No internet service" <==> internetService == "No"
    ensures DecodeAddOn(InternetFix(answer) as real, NoInternetFlag(internetService) as real) == answer
  {
  }

  lemma DecodeContractInverse(contract: string)
    requires contract in ContractOptions
    ensures contract in Codes(ContractMap) && DecodeContract(Code(ContractMap, contract) as real) == contract
  {
  }

  lemma DecodePaymentInverse(payment: string)
    requires payment in PaymentOptions
    ensures payment in Codes(PaymentMap) && DecodePayment(Code(PaymentMap, payment) as real) == payment
  {
    assert payment == PaymentOptions[0] || payment == PaymentOptions[1] || payment == PaymentOptions[2]
        || payment == PaymentOptions[3];
  }

  /** For a profile the form can produce whose add-ons agree with its internet service,
      the vector loses nothing: decoding it gives the profile back. */
  lemma DecodeEncode(p: RawProfile)
    requires ValidProfile(p) && Consistent(p)
    ensures Encode(p).Success? && Decode(Encode(p).value) == p
  {
    ValidProfileEncodes(p);
    var v := Assemble(p);
    assert Encode(p).value == v;
    DecodeGenderInverse(p.gender);
    DecodeYesNoInverse(p.partner);
    DecodeYesNoInverse(p.dependents);
    DecodeLinesInverse(p.multipleLines);
    DecodeInternetInverse(p.internetService);
    var addOns := AddOns(p);
    assert addOns[0] in addOns && addOns[1] in addOns && addOns[2] in addOns;
    assert addOns[3] in addOns && addOns[4] in addOns && addOns[5] in addOns;
    DecodeAddOnInverse(p.onlineSecurity, p.internetService);
    DecodeAddOnInverse(p.onlineBackup, p.internetService);
    DecodeAddOnInverse(p.deviceProtection, p.internetService);
    DecodeAddOnInverse(p.techSupport, p.internetService);
    DecodeAddOnInverse(p.streamingTV, p.internetService);
    DecodeAddOnInverse(p.streamingMovies, p.internetService);
    DecodeContractInverse(p.contract);
    DecodeYesNoInverse(p.paperlessBilling);
    DecodePaymentInverse(p.paymentMethod);
    var d := Decode(v);
    assert d.gender == p.gender && d.seniorCitizen == p.seniorCitizen && d.tenure == p.tenure;
    assert d.partner == p.partner && d.dependents == p.dependents && d.paperlessBilling == p.paperlessBilling;
    assert d.multipleLines == p.multipleLines && d.internetService == p.internetService;
    assert d.onlineSecurity == p.onlineSecurity && d.onlineBackup == p.onlineBackup;
    assert d.deviceProtection == p.deviceProtection && d.techSupport == p.techSupport;
    assert d.streamingTV == p.streamingTV && d.streamingMovies == p.streamingMovies;
    assert d.contract == p.contract && d.paymentMethod == p.paymentMethod;
  }

  /** Hence two such profiles with the same vector are the same profile. */
  lemma EncodeInjective(p: RawProfile, q: RawProfile)
    requires ValidProfile(p) && Consistent(p)
    requires ValidProfile(q) && Consistent(q)
    requires Encode(p) == Encode(q)
    ensures p == q
  {
    DecodeEncode(p);
    DecodeEncode(q);
  }

  // ---------------------------------------------------------------------------
  // Worked profiles

  /** A DSL customer with one add-on on a monthly contract. */
  lemma EncodeDslCustomer()
    ensures Encode(RawProfile("Male", 0, "No", "No", 12, "No", "DSL", "Yes", "No", "No", "No", "No", "No",
                              "Month-to-month", "Yes", "Electronic check", 70.0, 840.0))
         == Success([1.0, 0.0, 0.0, 0.0, 12.0] + [0.0, 0.0, 1.0, 0.0, 0.0, 0.0] +
                    [0.0, 0.0, 0.0, 1.0, 0.0] + [70.0, 840.0, 0.0, 0.0])
  {
  }

  /** A customer with neither internet nor phone service: both flags set, every add-on 0,
      MultipleLines 0 and InternetService 2. */
  lemma EncodeNoServiceCustomer()
    ensures Encode(RawProfile("Female", 1, "Yes", "No", 5, "No phone service", "No",
                              "No internet service", "No internet service", "No internet service",
                              "No internet service", "No internet service", "No internet service",
                              "Two year", "No", "Mailed check", 20.0, 100.0))
         == Success([0.0, 1.0, 1.0, 0.0, 5.0] + [0.0, 2.0, 0.0, 0.0, 0.0, 0.0] +
                    [0.0, 0.0, 2.0, 0.0, 1.0] + [20.0, 100.0, 1.0, 1.0])
  {
  }

  /** An unknown contract is a KeyError on the contract table, never a default code. */
  lemma UnknownContractFails()
    ensures Encode(RawProfile("Male", 0, "No", "No", 12, "No", "DSL", "Yes", "No", "No", "No", "No", "No",
                              "Quarterly", "Yes", "Electronic check", 70.0, 840.0))
         == Failure(KeyError(ContractMap, "Quarterly"))
  {
  }
}
