# Drug-likeness rule evaluation of LibNPDB-descriptors

The repository is a one-page web form: the user enters a SMILES string and
`calculate_descriptors` in `main.py` reports physicochemical properties and
drug-likeness verdicts for it. The toolkit (RDKit) parses the string and
computes the raw descriptors. This project models what the function does with
them: the Lipinski violation counter, the Ghose, Veber and Muegge verdicts,
the HIA and BBB pharmacokinetic estimates, the nested result record and the
two error records.

- `Counting.dfy` (module `Counting`): how many of a list of tests hold, with
  its bounds, the effect of changing one test, and monotonicity.
- `DrugRules.dfy` (module `DrugRules`): the `Descriptors` value computed by
  the toolkit, the Lipinski count as a function, the code's step-by-step
  counter as a method proved equal to it, the verdicts, and lemmas on the
  boundaries (strict `>` for violations, `<=` for the filters, inclusive
  Muegge ranges).
- `Calculation.dfy` (module `Calculation`): what the toolkit made of the string
  (`Structure`: invalid SMILES, a computation that raised, or descriptors), the
  result record, `CalculateDescriptors`, and facts about every record it
  returns.

Thresholds are those the code writes, not those of the published rules:
- the "Ghose filter" is the Lipinski pass test, not the published Ghose ranges;
- the Veber rule limits TPSA to 100 where the published rule allows 140, and
  also asks for at least two atoms;
- the Muegge rule keeps only its weight, logP, acceptor and donor conditions
  and drops the others of the published rule (TPSA, rings, rotatable bonds,
  carbon and heteroatom counts).

## Model

| member | source | states |
|---|---|---|
| Counting.CountTrue | main.py:26-34 | the number of failed tests is at most the number of tests, zero exactly when no test fails, and equal to the number of tests exactly when all fail |
| Counting.CountTrueUpdate | main.py:26-34 | changing one test changes the count by exactly that test's change |
| Counting.CountTrueMonotone | main.py:26-34 | when every failing test of one list also fails in another, the other counts at least as many |
| DrugRules.LipinskiViolations | main.py:26-34 | the Lipinski count lies in 0..4; it is 0 exactly when acceptors <= 10, donors <= 5, logP <= 5 and weight <= 500, and 4 exactly when all four limits are exceeded |
| DrugRules.LipinskiViolationsAsSum | main.py:26-34 | the count is the sum over the four tests (acceptors > 10, donors > 5, logP > 5, weight > 500) of 1 for a failed test |
| DrugRules.CountLipinskiViolations | main.py:26-34 | the counter with its four conditional increments ends equal to the Lipinski count, at most 4 |
| DrugRules.Ghose | main.py:35 | the Ghose filter passes exactly when the Lipinski count is 0 |
| DrugRules.Veber | main.py:36 | a molecule exactly at every Veber limit (10 rotatable bonds, TPSA 100, 2 atoms) passes; one beyond any limit fails |
| DrugRules.Muegge | main.py:37 | both ends of the logP range (-2, 5) and the weight range (200, 600) pass; a pass leaves only the weight rule of Lipinski to be broken, exactly when weight > 500 |
| DrugRules.HighAbsorption | main.py:50 | logP exactly 3 is not "High"; a "High" estimate never comes with the logP violation of Lipinski |
| DrugRules.CrossesBloodBrainBarrier | main.py:51 | weight exactly 400 is not "Yes"; a "Yes" implies a "High" absorption estimate and leaves only the acceptor and donor rules of Lipinski to be broken |
| DrugRules.LipinskiViolationsMonotone | main.py:26-35 | a molecule no larger in acceptors, donors, logP and weight has no more violations, and passes Ghose whenever the larger one does |
| DrugRules.CrossingOneLimit | main.py:26-35 | moving one Lipinski quantity that was within its limit: staying at or below the limit keeps count and Ghose verdict, going strictly above adds exactly one violation and fails Ghose |
| DrugRules.MolecularWeightLimit | main.py:33-35 | weight exactly 500 adds no violation and keeps Ghose; any weight above 500 adds one violation and fails Ghose |
| DrugRules.LogPLimit | main.py:31-35 | logP exactly 5 adds no violation and keeps Ghose; any logP above 5 adds one violation and fails Ghose |
| DrugRules.HAcceptorLimit | main.py:27-35 | 10 acceptors add no violation and keep Ghose; more than 10 add one violation and fail Ghose |
| DrugRules.HDonorLimit | main.py:29-35 | 5 donors add no violation and keep Ghose; more than 5 add one violation and fail Ghose |
| DrugRules.MueggeAgainstLipinski | main.py:35-37 | for weight in 200..500 and logP >= -2 the Muegge and Ghose verdicts agree |
| DrugRules.VeberMonotone | main.py:36 | fewer rotatable bonds, smaller TPSA or more atoms never turn a Veber pass into a fail |
| Calculation.Report | main.py:40-60 | the success record echoes the SMILES string, every verdict is one of its two words, the Lipinski field is the Lipinski count of the descriptors, Ghose says "Yes" exactly when that count is 0, and BBB "Yes" comes with HIA "High" |
| Calculation.CalculateDescriptors | main.py:15-65 | the SMILES string is always echoed; an invalid string gives only the error "Invalid SMILES string"; a failing computation gives only "Error during calculation: " followed by its message; on success weight, logP, TPSA, ring count, rotatable-bond count and QED are copied unchanged and the Lipinski field is the Lipinski count of the descriptors, at most 4 |
| Calculation.ReportConsistency | main.py:40-60 | in every success record each verdict is one of its two words, Ghose says "Yes" exactly when the Lipinski count is 0, and BBB "Yes" comes with HIA "High" |
| Calculation.ReportedVerdicts | main.py:26-57 | the Lipinski field is the number of failed tests among acceptors > 10, donors > 5, logP > 5 and weight > 500; Ghose "Yes", Veber "Pass" (and "Fail" otherwise), Muegge "Yes" with both ends of every range inclusive, HIA "High" and BBB "Yes", each exactly when its descriptor conditions hold |
| Calculation.AspirinLikeExample | main.py:26-60 | an aspirin-like descriptor set gives 0 violations, Ghose "Yes", Veber "Pass", Muegge "No" (weight under 200), HIA "High" and BBB "Yes" |

## Left out

- The toolkit calls (`Chem.MolFromSmiles`, the descriptor functions, `QED.qed`): their algorithms are not part of this model. Their outcome is the input `Structure`; the repeated acceptor and donor calls are taken to return one value.
- Which descriptor computations raise, and the text of the exception: the failure and its message are inputs (`CalculationFault`).
- Floating point: descriptor values are exact reals. The code only compares them with constants, which agrees for every finite value. A NaN is not modelled; with a NaN logP every comparison is false, so the Ghose filter would say "No" with 0 violations.
- The range of QED: the record copies it, and nothing in this code bounds it.
- The Flask route `index` with its empty-string guard, template rendering, and `app.run` with the `PORT` variable: web and process plumbing.
