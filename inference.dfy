/** The prediction step: the encoded vector goes through the fitted scaler and the
    classifier, and the label it returns picks one of two verdicts. The scaler and the
    classifier are fitted models loaded from disk; here they are parameters about which
    nothing is assumed. */
module InferenceAdapter {
  import opened Wrappers
  import opened FeatureEncoder

  /** The two kinds of banner the page can show. */
  datatype AlertKind = ErrorAlert | SuccessAlert

  /** A banner and its text. */
  datatype Verdict = Verdict(alert: AlertKind, message: string)

  const ChurnVerdict := Verdict(ErrorAlert, "\U{274C} **Customer is likely to churn**")
  const StayVerdict := Verdict(SuccessAlert, "\U{2705} **Customer is likely to stay**")

  /** The label 1 means churn; every other label, not only 0, means stay. */
  function VerdictFor(prediction: int): (v: Verdict)
    ensures v.alert == ErrorAlert <==> prediction == 1
    ensures v.alert == ErrorAlert ==> v == ChurnVerdict
    ensures v.alert == SuccessAlert ==> v == StayVerdict
  {
    if prediction == 1 then ChurnVerdict else StayVerdict
  }

  /** The whole run for one profile: a KeyError from the preprocessing stops the script
      before anything is scaled; otherwise the scaled vector is classified and the label
      turned into a verdict. */
  function Predict(scale: seq<real> -> seq<real>, classify: seq<real> -> int, p: RawProfile)
    : (r: Result<Verdict, LookupError>)
    ensures r.Success? <==> KeysKnown(p)
    ensures r.Failure? ==> FirstKeyError(Subscripts(p)) == Some(r.error)
    ensures r.Success? ==> |Encode(p).value| == |FeatureOrder|
    ensures r.Success? ==> r.value == VerdictFor(classify(scale(Encode(p).value)))
    ensures r.Success? ==> (r.value == ChurnVerdict <==> classify(scale(Encode(p).value)) == 1)
    ensures r.Success? ==> (r.value == StayVerdict <==> classify(scale(Encode(p).value)) != 1)
  {
    EncodeRaisesFirstKeyError(p);
    var v :- Encode(p);
    Success(VerdictFor(classify(scale(v))))
  }

  /** A profile the form can produce always reaches the classifier, and the verdict depends
      on nothing but the label it returns for the scaled vector. */
  lemma FormProfilesGetAVerdict(scale: seq<real> -> seq<real>, classify: seq<real> -> int, p: RawProfile)
    requires ValidProfile(p)
    ensures Predict(scale, classify, p).Success?
    ensures Predict(scale, classify, p).value == VerdictFor(classify(scale(Assemble(p))))
  {
    ValidProfileEncodes(p);
    EncodedVector(p);
  }

  /** Two profiles that agree on every slot of the vector get the same verdict, whatever
      the scaler and the classifier are. */
  lemma SameVectorSameVerdict(scale: seq<real> -> seq<real>, classify: seq<real> -> int, p: RawProfile, q: RawProfile)
    requires Encode(p).Success? && Encode(q).Success?
    requires Encode(p).value == Encode(q).value
    ensures Predict(scale, classify, p) == Predict(scale, classify, q)
  {
  }
}
