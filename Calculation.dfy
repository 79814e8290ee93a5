/** `calculate_descriptors`: parse a SMILES string with the toolkit, evaluate
    the rules on the descriptors it computes, and assemble the nested result
    record, or an error record when parsing or computing fails.
 */
module Calculation {
  import opened Counting
  import opened DrugRules

  /** What the cheminformatics toolkit makes of a SMILES string: no molecule,
      a molecule whose descriptor computation raised an exception with the
      given message, or a molecule with its computed descriptors. */
  datatype Structure =
    | InvalidSmiles
    | CalculationFault(message: string)
    | Computed(descriptors: Descriptors)

  /** The "physicochemical_properties" part of the record. */
  datatype PhysicochemicalProperties = PhysicochemicalProperties(
    molecularWeight: real,
    logP: real,
    tpsa: real,
    numRings: nat,
    numRotatableBonds: nat)

  /** The "pharmacokinetics" part: two rough categorical estimates. */
  datatype Pharmacokinetics = Pharmacokinetics(
    hiaAbsorption: string,
    bbbPenetration: string)

  /** The "drug_likeness" part: the Lipinski count, three verdicts and QED. */
  datatype DrugLikeness = DrugLikeness(
    lipinskiViolations: nat,
    ghoseFilter: string,
    veberRule: string,
    mueggeRulePass: string,
    qed: real)

  /** The record returned: the SMILES string is always echoed; either an error
      message and nothing else, or the three groups of properties. */
  datatype Results =
    | Error(smiles: string, error: string)
    | Success(
        smiles: string,
        physicochemicalProperties: PhysicochemicalProperties,
        pharmacokinetics: Pharmacokinetics,
        drugLikeness: DrugLikeness)

  const InvalidSmilesMessage: string := "Invalid SMILES string"
  const CalculationErrorPrefix: string := "Error during calculation: "

  function YesNo(b: bool): string
  {
    if b then "Yes" else "No"
  }

  /** The record built from computed descriptors: a well-formed success
      record that echoes `smiles`, reports the Lipinski count of `d`, says
      "Yes" for Ghose exactly when that count is 0, and never reports a
      blood-brain-barrier "Yes" without a "High" absorption. */
  function Report(smiles: string, d: Descriptors): (r: Results)
    ensures r.Success? && r.smiles == smiles && WellFormedReport(r)
    ensures r.drugLikeness.lipinskiViolations == LipinskiViolations(d)
    ensures r.drugLikeness.ghoseFilter == "Yes" <==> r.drugLikeness.lipinskiViolations == 0
    ensures r.pharmacokinetics.bbbPenetration == "Yes" ==> r.pharmacokinetics.hiaAbsorption == "High"
  {
    Success(
      smiles,
      PhysicochemicalProperties(d.molecularWeight, d.logP, d.tpsa, d.numRings, d.numRotatableBonds),
      Pharmacokinetics(
        if HighAbsorption(d) then "High" else "Low",
        YesNo(CrossesBloodBrainBarrier(d))),
      DrugLikeness(
        LipinskiViolations(d),
        YesNo(Ghose(d)),
        if Veber(d) then "Pass" else "Fail",
        YesNo(Muegge(d)),
        d.qed))
  }

  /** `calculate_descriptors` given what the toolkit makes of `smiles`. */
  function CalculateDescriptors(smiles: string, structure: Structure): (r: Results)
    ensures r.smiles == smiles
    ensures r.Error? <==> !structure.Computed?
    ensures structure.InvalidSmiles? ==> r == Error(smiles, "Invalid SMILES string")
    ensures structure.CalculationFault? ==>
      r == Error(smiles, "Error during calculation: " + structure.message)
    ensures structure.Computed? ==>
      && r.physicochemicalProperties.molecularWeight == structure.descriptors.molecularWeight
      && r.physicochemicalProperties.logP == structure.descriptors.logP
      && r.physicochemicalProperties.tpsa == structure.descriptors.tpsa
      && r.physicochemicalProperties.numRings == structure.descriptors.numRings
      && r.physicochemicalProperties.numRotatableBonds == structure.descriptors.numRotatableBonds
      && r.drugLikeness.qed == structure.descriptors.qed
      && r.drugLikeness.lipinskiViolations == LipinskiViolations(structure.descriptors)
      && r.drugLikeness.lipinskiViolations <= 4
  {
    match structure
    case InvalidSmiles => Error(smiles, InvalidSmilesMessage)
    case CalculationFault(message) => Error(smiles, CalculationErrorPrefix + message)
    case Computed(d) => Report(smiles, d)
  }

  /** Every verdict in a success record is one of its two words, and the
      Lipinski count lies between 0 and 4. */
  predicate WellFormedReport(r: Results)
  {
    r.Success? ==>
      && r.pharmacokinetics.hiaAbsorption in {"High", "Low"}
      && r.pharmacokinetics.bbbPenetration in {"Yes", "No"}
      && r.drugLikeness.lipinskiViolations <= 4
      && r.drugLikeness.ghoseFilter in {"Yes", "No"}
      && r.drugLikeness.veberRule in {"Pass", "Fail"}
      && r.drugLikeness.mueggeRulePass in {"Yes", "No"}
  }

  /** Facts a reader of any success record can rely on without knowing the
      descriptors: the Ghose filter says "Yes" exactly when no Lipinski rule
      is broken, and a "Yes" for blood-brain-barrier penetration always comes
      with a "High" intestinal absorption. */
  lemma ReportConsistency(smiles: string, structure: Structure)
    ensures WellFormedReport(CalculateDescriptors(smiles, structure))
    ensures var r := CalculateDescriptors(smiles, structure);
      r.Success? ==>
        && (r.drugLikeness.ghoseFilter == "Yes" <==> r.drugLikeness.lipinskiViolations == 0)
        && (r.pharmacokinetics.bbbPenetration == "Yes" ==> r.pharmacokinetics.hiaAbsorption == "High")
  {
  }

  /** The verdict words of a success record, each in terms of the descriptors
      it was computed from. */
  lemma ReportedVerdicts(smiles: string, d: Descriptors)
    ensures var r := CalculateDescriptors(smiles, Computed(d));
      && r.drugLikeness.lipinskiViolations ==
           Indicator(d.numHAcceptors > 10) + Indicator(d.numHDonors > 5)
           + Indicator(d.logP > 5.0) + Indicator(d.molecularWeight > 500.0)
      && (r.drugLikeness.ghoseFilter == "Yes" <==>
            d.numHAcceptors <= 10 && d.numHDonors <= 5 && d.logP <= 5.0 && d.molecularWeight <= 500.0)
      && (r.drugLikeness.veberRule == "Pass" <==>
            d.numRotatableBonds <= 10 && d.tpsa <= 100.0 && d.numAtoms >= 2)
      && (r.drugLikeness.veberRule == "Fail" <==>
            !(d.numRotatableBonds <= 10 && d.tpsa <= 100.0 && d.numAtoms >= 2))
      && (r.drugLikeness.mueggeRulePass == "Yes" <==>
            d.numHAcceptors <= 10 && d.numHDonors <= 5
            && -2.0 <= d.logP <= 5.0 && 200.0 <= d.molecularWeight <= 600.0)
      && (r.pharmacokinetics.hiaAbsorption == "High" <==> d.logP < 3.0)
      && (r.pharmacokinetics.bbbPenetration == "Yes" <==> d.logP < 3.0 && d.molecularWeight < 400.0)
  {
    LipinskiViolationsAsSum(d);
  }

  /** The aspirin-like descriptor set: no Lipinski violation, Ghose "Yes",
      Veber "Pass", Muegge "No" (too light), HIA "High" and BBB "Yes". */
  lemma AspirinLikeExample()
    ensures
      var d := Descriptors(180.16, 1.2, 63.6, 1, 1, 4, 1, 13, 0.55);
      CalculateDescriptors("CC(=O)Oc1ccccc1C(=O)O", Computed(d)) ==
        Success(
          "CC(=O)Oc1ccccc1C(=O)O",
          PhysicochemicalProperties(180.16, 1.2, 63.6, 1, 1),
          Pharmacokinetics("High", "Yes"),
          DrugLikeness(0, "Yes", "Pass", "No", 0.55))
  {
  }
}
