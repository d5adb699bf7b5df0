/** One press of the predict button in `main()`: strip the identifier, refuse
    a blank one, fetch the properties, predict ΔG, then classify binding,
    assess drug-likeness and recommend. Rendering is not modelled; the
    outcome carries everything the page displays. */
module Pipeline {
  import opened Wrappers
  import opened Text
  import opened Properties
  import opened Predictor
  import opened Lipinski
  import opened Binding

  datatype Report = Report(
    properties: LigandProperties,
    deltaG: real,
    strength: Strength,
    assessment: Assessment,
    recommendation: Recommendation)

  datatype Outcome =
    | MissingCid
    | FetchFailed(error: FetchError)
    | PredictionFailed(reason: PredictionError)
    | Assessed(report: Report)

  /** What every displayed report satisfies, independent of how it was
      computed: a count in range, the one-exception rule, and a
      recommendation that agrees with the binding band. */
  predicate Coherent(r: Report) {
    && r.assessment.violations <= 4
    && (r.assessment.drugLike <==> r.assessment.violations <= 1)
    && (r.strength == Strong <==> r.deltaG < -9.0)
    && (r.strength == Weak <==> -7.0 <= r.deltaG)
    && (r.recommendation in {Excellent, Promising} <==> r.strength == Strong)
    && (r.recommendation == Excellent <==> r.strength == Strong && r.assessment.drugLike)
    && (r.recommendation == ModerateCandidate <==> r.strength == Moderate && r.assessment.drugLike)
  }

  function HandleRequest(raw: string,
                         lookup: string -> Result<seq<PropertyRecord>, FetchError>,
                         scaler: Matrix -> Matrix,
                         model: Matrix -> seq<real>): (o: Outcome)
    ensures o == MissingCid <==> IsBlank(raw)
    ensures o.FetchFailed? <==> !IsBlank(raw) && GetLigandProperties(Strip(raw), lookup).Failure?
    ensures o.FetchFailed? ==> o.error == GetLigandProperties(Strip(raw), lookup).error
    ensures o.PredictionFailed? <==>
      && !IsBlank(raw)
      && GetLigandProperties(Strip(raw), lookup).Success?
      && PredictAffinity(GetLigandProperties(Strip(raw), lookup).value, scaler, model).Failure?
    ensures o.Assessed? <==>
      && !IsBlank(raw)
      && GetLigandProperties(Strip(raw), lookup).Success?
      && PredictAffinity(GetLigandProperties(Strip(raw), lookup).value, scaler, model).Success?
    ensures o.Assessed? ==>
      && GetLigandProperties(Strip(raw), lookup) == Success(o.report.properties)
      && PredictAffinity(o.report.properties, scaler, model) == Success(o.report.deltaG)
      && o.report.assessment.violations == CountFailed(RuleStatus(o.report.properties))
      && Coherent(o.report)
  {
    var cid := Strip(raw);
    if cid == [] then MissingCid
    else
      match GetLigandProperties(cid, lookup)
      case Failure(e) => FetchFailed(e)
      case Success(p) =>
        match PredictAffinity(p, scaler, model)
        case Failure(e) => PredictionFailed(e)
        case Success(dg) =>
          var a := Assess(p);
          Assessed(Report(p, dg, BindingStrength(dg), a, Recommend(dg, a.drugLike)))
  }

  /** A failed fetch ends the request: the artifacts are never consulted, so
      the outcome is the same for every scaler and model. */
  lemma FetchFailureSkipsPrediction(raw: string,
                                    lookup: string -> Result<seq<PropertyRecord>, FetchError>,
                                    scaler1: Matrix -> Matrix, model1: Matrix -> seq<real>,
                                    scaler2: Matrix -> Matrix, model2: Matrix -> seq<real>)
    requires !IsBlank(raw) && GetLigandProperties(Strip(raw), lookup).Failure?
    ensures HandleRequest(raw, lookup, scaler1, model1)
              == FetchFailed(GetLigandProperties(Strip(raw), lookup).error)
    ensures HandleRequest(raw, lookup, scaler1, model1) == HandleRequest(raw, lookup, scaler2, model2)
  {
  }

  /** Surrounding whitespace in the typed identifier does not matter. */
  lemma WhitespaceInsensitive(raw: string,
                              lookup: string -> Result<seq<PropertyRecord>, FetchError>,
                              scaler: Matrix -> Matrix, model: Matrix -> seq<real>)
    ensures HandleRequest(Strip(raw), lookup, scaler, model) == HandleRequest(raw, lookup, scaler, model)
  {
    StripIdempotent(raw);
  }

  /** A large, lipophilic ligand (two violations) with ΔG = -10.2 binds
      strongly but is only promising. */
  lemma ScenarioStrongNotDrugLike()
    ensures var p := LigandProperties(628.8, 5.92, 2, 5);
            var o := HandleRequest("  92727 ", (cid: string) => Success([Record(p)]),
                                   (m: Matrix) => m, (m: Matrix) => [-10.2]);
            o == Assessed(Report(p, -10.2, Strong, Assessment(2, false), Promising))
  {
    var p := LigandProperties(628.8, 5.92, 2, 5);
    var raw := "  92727 ";
    assert LeadingSpaces(raw[2..]) == 0;
    assert LeadingSpaces(raw) == 2;
    assert TrailingSpaces(raw[..7]) == 0;
    assert TrailingSpaces(raw) == 1;
    assert Strip(raw) == "92727";
    ProjectRecord(p);
    assert ViolationCount(p) == 2;
  }

  /** A small drug-like ligand with ΔG = -9.5 is an excellent candidate. */
  lemma ScenarioStrongDrugLike()
    ensures var p := LigandProperties(300.0, 2.0, 1, 4);
            var o := HandleRequest("5362440", (cid: string) => Success([Record(p)]),
                                   (m: Matrix) => m, (m: Matrix) => [-9.5]);
            o == Assessed(Report(p, -9.5, Strong, Assessment(0, true), Excellent))
  {
    var p := LigandProperties(300.0, 2.0, 1, 4);
    var raw := "5362440";
    assert LeadingSpaces(raw) == 0;
    assert TrailingSpaces(raw) == 0;
    assert Strip(raw) == raw;
    ProjectRecord(p);
    assert ViolationCount(p) == 0;
  }
}
