/** The rule evaluator of `calculate_descriptors`: threshold tests over the
    descriptor values that the cheminformatics toolkit has computed.

    Every threshold is the one the code writes, which is not always the one of
    the published medicinal-chemistry rule: the "Ghose filter" here is the
    Lipinski pass test, not the published Ghose ranges; the Veber rule limits
    the polar surface to 100 where the published rule allows 140, and also asks
    for at least two atoms; the Muegge rule keeps only its weight, logP,
    acceptor and donor conditions. Violations are counted with strict `>`, the
    filters pass with `<=`.
 */
module DrugRules {
  import opened Counting

  /** The descriptor values the toolkit returns for one parsed molecule.
      The hydrogen-bond counts are read once: the code asks the toolkit for
      them repeatedly, and every call returns the same number. */
  datatype Descriptors = Descriptors(
    molecularWeight: real,
    logP: real,
    tpsa: real,
    numRings: nat,
    numRotatableBonds: nat,
    numHAcceptors: nat,
    numHDonors: nat,
    numAtoms: nat,
    qed: real)

  /** The four Lipinski tests, in the order the code applies them; each entry
      is true when the molecule breaks that part of the rule. */
  function LipinskiTests(d: Descriptors): seq<bool>
  {
    [d.numHAcceptors > 10, d.numHDonors > 5, d.logP > 5.0, d.molecularWeight > 500.0]
  }

  /** Number of Lipinski rules broken: between 0 and 4, zero exactly when every
      quantity is within its limit, four exactly when every one exceeds it. */
  function LipinskiViolations(d: Descriptors): (n: nat)
    ensures n <= 4
    ensures n == 0 <==>
      d.numHAcceptors <= 10 && d.numHDonors <= 5 && d.logP <= 5.0 && d.molecularWeight <= 500.0
    ensures n == 4 <==>
      d.numHAcceptors > 10 && d.numHDonors > 5 && d.logP > 5.0 && d.molecularWeight > 500.0
  {
    var tests := LipinskiTests(d);
    assert tests[0] <==> d.numHAcceptors > 10;
    assert tests[1] <==> d.numHDonors > 5;
    assert tests[2] <==> d.logP > 5.0;
    assert tests[3] <==> d.molecularWeight > 500.0;
    CountTrue(tests)
  }

  /** The count is the sum of the four tests taken one at a time. */
  lemma LipinskiViolationsAsSum(d: Descriptors)
    ensures LipinskiViolations(d) ==
      Indicator(d.numHAcceptors > 10) + Indicator(d.numHDonors > 5)
      + Indicator(d.logP > 5.0) + Indicator(d.molecularWeight > 500.0)
  {
    var t := LipinskiTests(d);
    assert t[3..][1..] == [];
    assert CountTrue(t[3..]) == Indicator(t[3]);
    assert t[2..][1..] == t[3..];
    assert CountTrue(t[2..]) == Indicator(t[2]) + CountTrue(t[3..]);
    assert t[1..][1..] == t[2..];
    assert CountTrue(t[1..]) == Indicator(t[1]) + CountTrue(t[2..]);
    assert CountTrue(t) == Indicator(t[0]) + CountTrue(t[1..]);
  }

  /** The counter of the code, one conditional increment per test. */
  method CountLipinskiViolations(d: Descriptors) returns (violations: nat)
    ensures violations == LipinskiViolations(d)
    ensures violations <= 4
  {
    violations := 0;
    if d.numHAcceptors > 10 {
      violations := violations + 1;
    }
    if d.numHDonors > 5 {
      violations := violations + 1;
    }
    if d.logP > 5.0 {
      violations := violations + 1;
    }
    if d.molecularWeight > 500.0 {
      violations := violations + 1;
    }
    LipinskiViolationsAsSum(d);
  }

  /** The "Ghose filter" as the code computes it: every Lipinski quantity
      within its limit, so it passes exactly when nothing is violated. */
  function Ghose(d: Descriptors): (pass: bool)
    ensures pass <==> LipinskiViolations(d) == 0
  {
    d.numHAcceptors <= 10 && d.numHDonors <= 5 && d.logP <= 5.0 && d.molecularWeight <= 500.0
  }

  /** The Veber rule as the code computes it (with an extra two-atom minimum).
      A molecule exactly at every limit passes; one beyond any limit fails. */
  function Veber(d: Descriptors): (pass: bool)
    ensures d.numRotatableBonds == 10 && d.tpsa == 100.0 && d.numAtoms == 2 ==> pass
    ensures d.numRotatableBonds > 10 || d.tpsa > 100.0 || d.numAtoms < 2 ==> !pass
  {
    d.numRotatableBonds <= 10 && d.tpsa <= 100.0 && d.numAtoms >= 2
  }

  /** The Muegge rule as the code computes it. Both ends of the logP and weight
      ranges pass; and since its other limits are Lipinski's, a Muegge pass
      breaks no Lipinski rule but the weight rule. */
  function Muegge(d: Descriptors): (pass: bool)
    ensures (&& d.numHAcceptors <= 10 && d.numHDonors <= 5
             && (d.logP == -2.0 || d.logP == 5.0)
             && (d.molecularWeight == 200.0 || d.molecularWeight == 600.0)) ==> pass
    ensures pass ==> LipinskiViolations(d) == Indicator(d.molecularWeight > 500.0)
  {
    LipinskiViolationsAsSum(d);
    d.numHAcceptors <= 10 && d.numHDonors <= 5
    && -2.0 <= d.logP <= 5.0
    && d.molecularWeight >= 200.0 && d.molecularWeight <= 600.0
  }

  /** Human intestinal absorption is estimated "High" below logP 3 (logP
      exactly 3 is "Low"); a high estimate never comes with the logP violation
      of Lipinski. */
  function HighAbsorption(d: Descriptors): (high: bool)
    ensures d.logP == 3.0 ==> !high
    ensures high ==> (LipinskiViolations(d) ==
      Indicator(d.numHAcceptors > 10) + Indicator(d.numHDonors > 5)
      + Indicator(d.molecularWeight > 500.0))
  {
    LipinskiViolationsAsSum(d);
    d.logP < 3.0
  }

  /** Blood-brain-barrier penetration is estimated "Yes" below logP 3 and
      below a molecular weight of 400 (a weight of exactly 400 is "No"). A "Yes"
      implies a "High" absorption estimate, and leaves only the acceptor and
      donor rules of Lipinski to be broken. */
  function CrossesBloodBrainBarrier(d: Descriptors): (yes: bool)
    ensures d.molecularWeight == 400.0 ==> !yes
    ensures yes ==> HighAbsorption(d)
    ensures yes ==> (LipinskiViolations(d) ==
      Indicator(d.numHAcceptors > 10) + Indicator(d.numHDonors > 5))
  {
    LipinskiViolationsAsSum(d);
    d.logP < 3.0 && d.molecularWeight < 400.0
  }

  /** Whether `e` is at most as large as `d` in each Lipinski quantity. */
  predicate NoLargerForLipinski(e: Descriptors, d: Descriptors)
  {
    e.numHAcceptors <= d.numHAcceptors && e.numHDonors <= d.numHDonors
    && e.logP <= d.logP && e.molecularWeight <= d.molecularWeight
  }

  /** A molecule that is no larger in any Lipinski quantity never breaks more
      Lipinski rules, and passes the Ghose filter whenever the larger one does. */
  lemma LipinskiViolationsMonotone(e: Descriptors, d: Descriptors)
    requires NoLargerForLipinski(e, d)
    ensures LipinskiViolations(e) <= LipinskiViolations(d)
    ensures Ghose(d) ==> Ghose(e)
  {
    var s, t := LipinskiTests(e), LipinskiTests(d);
    forall i | 0 <= i < |s| && s[i]
      ensures t[i]
    {
    }
    CountTrueMonotone(s, t);
  }

  /** Moving one Lipinski quantity from within its limit (including exactly at
      it) to another value: a value at or below the limit leaves the count and
      the Ghose verdict as they were, a value strictly above adds exactly one
      violation and fails the Ghose filter. `e` agrees with `d` on every
      test but test `i` (numbered in the order of `LipinskiTests`). */
  lemma CrossingOneLimit(d: Descriptors, e: Descriptors, i: nat)
    requires i < 4
    requires !LipinskiTests(d)[i]
    requires forall j :: 0 <= j < 4 && j != i ==> LipinskiTests(e)[j] == LipinskiTests(d)[j]
    ensures !LipinskiTests(e)[i] ==>
      LipinskiViolations(e) == LipinskiViolations(d) && Ghose(e) == Ghose(d)
    ensures LipinskiTests(e)[i] ==>
      LipinskiViolations(e) == LipinskiViolations(d) + 1 && !Ghose(e)
  {
    var s, t := LipinskiTests(d), LipinskiTests(e);
    assert t == s[i := t[i]];
    CountTrueUpdate(s, i, t[i]);
  }

  /** Molecular weight: exactly 500 is no violation and keeps the Ghose filter,
      anything above 500 is one more violation and fails it. */
  lemma MolecularWeightLimit(d: Descriptors, w: real)
    requires d.molecularWeight <= 500.0
    ensures w <= 500.0 ==>
      LipinskiViolations(d.(molecularWeight := w)) == LipinskiViolations(d)
      && Ghose(d.(molecularWeight := w)) == Ghose(d)
    ensures w > 500.0 ==>
      LipinskiViolations(d.(molecularWeight := w)) == LipinskiViolations(d) + 1
      && !Ghose(d.(molecularWeight := w))
  {
    CrossingOneLimit(d, d.(molecularWeight := w), 3);
  }

  /** logP: exactly 5 is no violation and keeps the Ghose filter, anything
      above 5 is one more violation and fails it. */
  lemma LogPLimit(d: Descriptors, p: real)
    requires d.logP <= 5.0
    ensures p <= 5.0 ==>
      LipinskiViolations(d.(logP := p)) == LipinskiViolations(d)
      && Ghose(d.(logP := p)) == Ghose(d)
    ensures p > 5.0 ==>
      LipinskiViolations(d.(logP := p)) == LipinskiViolations(d) + 1
      && !Ghose(d.(logP := p))
  {
    CrossingOneLimit(d, d.(logP := p), 2);
  }

  /** Hydrogen-bond acceptors: exactly 10 is no violation, 11 or more is one. */
  lemma HAcceptorLimit(d: Descriptors, n: nat)
    requires d.numHAcceptors <= 10
    ensures n <= 10 ==>
      LipinskiViolations(d.(numHAcceptors := n)) == LipinskiViolations(d)
      && Ghose(d.(numHAcceptors := n)) == Ghose(d)
    ensures n > 10 ==>
      LipinskiViolations(d.(numHAcceptors := n)) == LipinskiViolations(d) + 1
      && !Ghose(d.(numHAcceptors := n))
  {
    CrossingOneLimit(d, d.(numHAcceptors := n), 0);
  }

  /** Hydrogen-bond donors: exactly 5 is no violation, 6 or more is one. */
  lemma HDonorLimit(d: Descriptors, n: nat)
    requires d.numHDonors <= 5
    ensures n <= 5 ==>
      LipinskiViolations(d.(numHDonors := n)) == LipinskiViolations(d)
      && Ghose(d.(numHDonors := n)) == Ghose(d)
    ensures n > 5 ==>
      LipinskiViolations(d.(numHDonors := n)) == LipinskiViolations(d) + 1
      && !Ghose(d.(numHDonors := n))
  {
    CrossingOneLimit(d, d.(numHDonors := n), 1);
  }

  /** The Muegge rule shares the acceptor, donor and upper logP limits of
      Lipinski but allows weights up to 600: inside 200..500 with logP at
      least -2 the Muegge and Ghose verdicts agree. */
  lemma MueggeAgainstLipinski(d: Descriptors)
    ensures 200.0 <= d.molecularWeight <= 500.0 && d.logP >= -2.0 ==>
      (Muegge(d) <==> Ghose(d))
  {
    LipinskiViolationsAsSum(d);
  }

  /** Loosening a Veber quantity never turns a pass into a fail: fewer
      rotatable bonds, a smaller polar surface or more atoms keep the pass. */
  lemma VeberMonotone(e: Descriptors, d: Descriptors)
    requires e.numRotatableBonds <= d.numRotatableBonds
    requires e.tpsa <= d.tpsa
    requires e.numAtoms >= d.numAtoms
    ensures Veber(d) ==> Veber(e)
  {
  }
}
