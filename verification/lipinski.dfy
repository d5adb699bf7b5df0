/** Lipinski's Rule of Five as `main()` evaluates it: four independent
    threshold rules, a ✅/❌ status line per rule, a violation counter, and the
    drug-likeness verdict that allows one violation. */
module Lipinski {
  import opened Properties

  datatype Rule = WeightRule | LogPRule | DonorRule | AcceptorRule

  /** The rules in the order their status lines are built. */
  const Rules: seq<Rule> := [WeightRule, LogPRule, DonorRule, AcceptorRule]

  const MaxWeight: real := 500.0
  const MaxLogP: real := 5.0
  const MaxDonors: int := 5
  const MaxAcceptors: int := 10

  /** The status-line test (✅ when it holds), written with `<=`. */
  predicate Passes(rule: Rule, p: LigandProperties) {
    match rule
    case WeightRule => p.mw <= MaxWeight
    case LogPRule => p.logP <= MaxLogP
    case DonorRule => p.hbd <= MaxDonors
    case AcceptorRule => p.hba <= MaxAcceptors
  }

  /** The counter test (adds one when it holds), written with `>`. */
  predicate Violates(rule: Rule, p: LigandProperties) {
    match rule
    case WeightRule => p.mw > MaxWeight
    case LogPRule => p.logP > MaxLogP
    case DonorRule => p.hbd > MaxDonors
    case AcceptorRule => p.hba > MaxAcceptors
  }

  function Indicator(b: bool): nat {
    if b then 1 else 0
  }

  /** The `violations` counter: one increment per rule, every rule evaluated. */
  function ViolationCount(p: LigandProperties): (v: nat)
    ensures v <= 4
    ensures v == 0 <==> forall rule :: !Violates(rule, p)
    ensures v == 4 <==> forall rule :: Violates(rule, p)
  {
    Indicator(Violates(WeightRule, p))
      + Indicator(Violates(LogPRule, p))
      + Indicator(Violates(DonorRule, p))
      + Indicator(Violates(AcceptorRule, p))
  }

  /** The four status lines, true for ✅. */
  function RuleStatus(p: LigandProperties): (s: seq<bool>)
    ensures |s| == |Rules|
    ensures forall i :: 0 <= i < |s| ==> (s[i] <==> Passes(Rules[i], p))
  {
    [Passes(WeightRule, p), Passes(LogPRule, p), Passes(DonorRule, p), Passes(AcceptorRule, p)]
  }

  /** Number of ❌ lines in a list of status lines. */
  function CountFailed(s: seq<bool>): (n: nat)
    ensures n <= |s|
    ensures n == 0 <==> forall i :: 0 <= i < |s| ==> s[i]
    ensures n == |s| <==> forall i :: 0 <= i < |s| ==> !s[i]
  {
    if s == [] then 0 else Indicator(!s[0]) + CountFailed(s[1..])
  }

  /** The counter agrees with the status lines shown beside it: each rule's
      `<=` test fails exactly when its `>` test counts, so the violation count
      is the number of ❌ lines. */
  lemma ViolationsMatchStatus(p: LigandProperties)
    ensures forall rule :: Passes(rule, p) <==> !Violates(rule, p)
    ensures ViolationCount(p) == CountFailed(RuleStatus(p))
  {
    var s := RuleStatus(p);
    assert s[3..][1..] == [];
    assert CountFailed(s[3..]) == Indicator(!s[3]);
    assert s[2..][1..] == s[3..];
    assert CountFailed(s[2..]) == Indicator(!s[2]) + Indicator(!s[3]);
    assert s[1..][1..] == s[2..];
    assert CountFailed(s[1..]) == Indicator(!s[1]) + Indicator(!s[2]) + Indicator(!s[3]);
  }

  /** `is_drug_like`: at most one rule is violated. */
  function IsDrugLike(p: LigandProperties): (b: bool)
    ensures b <==> forall r1, r2 :: Violates(r1, p) && Violates(r2, p) ==> r1 == r2
  {
    ViolationCount(p) <= 1
  }

  /** The thresholds are inclusive: a value at the limit passes, and any value
      strictly above it is a violation. */
  lemma ThresholdsInclusive(p: LigandProperties)
    ensures p.mw == MaxWeight ==> !Violates(WeightRule, p)
    ensures p.logP == MaxLogP ==> !Violates(LogPRule, p)
    ensures p.hbd == MaxDonors ==> !Violates(DonorRule, p)
    ensures p.hba == MaxAcceptors ==> !Violates(AcceptorRule, p)
    ensures Violates(WeightRule, p) <==> p.mw > 500.0
    ensures Violates(LogPRule, p) <==> p.logP > 5.0
    ensures Violates(DonorRule, p) <==> p.hbd > 5
    ensures Violates(AcceptorRule, p) <==> p.hba > 10
  {
  }

  /** `p` is at least as large as `q` in every descriptor. */
  predicate Dominates(p: LigandProperties, q: LigandProperties) {
    p.mw >= q.mw && p.logP >= q.logP && p.hbd >= q.hbd && p.hba >= q.hba
  }

  /** Growing any descriptor never removes a violation, so a compound that
      dominates a drug-like one may lose drug-likeness but never the reverse. */
  lemma ViolationsMonotone(p: LigandProperties, q: LigandProperties)
    requires Dominates(p, q)
    ensures forall rule :: Violates(rule, q) ==> Violates(rule, p)
    ensures ViolationCount(q) <= ViolationCount(p)
    ensures IsDrugLike(p) ==> IsDrugLike(q)
  {
  }

  /** The assessment shown to the user. */
  datatype Assessment = Assessment(violations: nat, drugLike: bool)

  function Assess(p: LigandProperties): (a: Assessment)
    ensures a.violations <= 4
    ensures a.drugLike <==> a.violations <= 1
    ensures a.violations == CountFailed(RuleStatus(p))
  {
    ViolationsMatchStatus(p);
    Assessment(ViolationCount(p), IsDrugLike(p))
  }
}
