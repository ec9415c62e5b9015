/** The preprocessing block as the script runs it: module-level names first bound to the
    form's answers, then rebound one by one to numeric codes, then packed into the vector. */
module Preprocessing {
  import opened Wrappers
  import opened FeatureEncoder

  /** What a script name can be bound to: a display string, an integer or a float. */
  datatype Value = Str(s: string) | Int(i: int) | Float(x: real)

  /** `table[v]` in the script, where every subscripted name still holds a display string. */
  function Subscript(t: Table, v: Value): (r: Result<Value, LookupError>)
    requires v.Str?
    ensures r.Success? <==> v.s in Codes(t)
    ensures r.Success? ==> r.value == Int(Codes(t)[v.s])
    ensures r.Failure? ==> r.error == KeyError(t, v.s)
  {
    var code :- Lookup(t, v.s);
    Success(Int(code))
  }

  /** Python `v in options` for a list of strings: a number is never a member. */
  predicate IsIn(v: Value, options: seq<string>) {
    v.Str? && v.s in options
  }

  /** A number as the float it becomes in the model's input array. */
  function AsFloat(v: Value): real
    requires !v.Str?
  {
    match v
    case Int(i) => i as real
    case Float(x) => x
  }

  /** Runs the block statement by statement. Both derived flags are read while
      InternetService and MultipleLines still hold their raw answers; both names are
      rebound afterwards. The first unknown dictionary key stops the run. */
  method Preprocess(p: RawProfile) returns (r: Result<seq<real>, LookupError>)
    ensures r == Encode(p)
  {
    var gender := Str(p.gender);
    var seniorCitizen := Int(p.seniorCitizen);
    var partner := Str(p.partner);
    var dependents := Str(p.dependents);
    var tenure := Int(p.tenure);
    var multipleLines := Str(p.multipleLines);
    var internetService := Str(p.internetService);
    var onlineSecurity := Str(p.onlineSecurity);
    var onlineBackup := Str(p.onlineBackup);
    var deviceProtection := Str(p.deviceProtection);
    var techSupport := Str(p.techSupport);
    var streamingTV := Str(p.streamingTV);
    var streamingMovies := Str(p.streamingMovies);
    var contract := Str(p.contract);
    var paperlessBilling := Str(p.paperlessBilling);
    var paymentMethod := Str(p.paymentMethod);
    var monthlyCharges := Float(p.monthlyCharges);
    var totalCharges := Float(p.totalCharges);

    gender := Int(if gender == Str("Male") then 1 else 0);

    partner :- Subscript(BinaryMap, partner);
    dependents :- Subscript(BinaryMap, dependents);
    paperlessBilling :- Subscript(BinaryMap, paperlessBilling);

    onlineSecurity := Int(InternetFix(onlineSecurity.s));
    onlineBackup := Int(InternetFix(onlineBackup.s));
    deviceProtection := Int(InternetFix(deviceProtection.s));
    techSupport := Int(InternetFix(techSupport.s));
    streamingTV := Int(InternetFix(streamingTV.s));
    streamingMovies := Int(InternetFix(streamingMovies.s));

    var noInternetService := Int(if internetService == Str("No") then 1 else 0);
    var noPhoneService := Int(if multipleLines == Str("No phone service") then 1 else 0);

    multipleLines := Int(if IsIn(multipleLines, ["No", "No phone service"]) then 0 else 1);

    internetService :- Subscript(InternetMap, internetService);
    contract :- Subscript(ContractMap, contract);
    paymentMethod :- Subscript(PaymentMap, paymentMethod);

    var inputData := [
      AsFloat(gender),
      AsFloat(seniorCitizen),
      AsFloat(partner),
      AsFloat(dependents),
      AsFloat(tenure)] + [
      AsFloat(multipleLines),
      AsFloat(internetService),
      AsFloat(onlineSecurity),
      AsFloat(onlineBackup),
      AsFloat(deviceProtection),
      AsFloat(techSupport)] + [
      AsFloat(streamingTV),
      AsFloat(streamingMovies),
      AsFloat(contract),
      AsFloat(paperlessBilling),
      AsFloat(paymentMethod)] + [
      AsFloat(monthlyCharges),
      AsFloat(totalCharges),
      AsFloat(noInternetService),
      AsFloat(noPhoneService)];
    r := Success(inputData);
  }
}
