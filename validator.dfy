/** The content checks of `ChemistryValidator` (chemistry-test.js:6-221):
    five validations per puzzle, the per-puzzle score, and the list of
    results the validator accumulates. */
module Validator {
  import opened Common
  import opened Text

  // ---------------------------------------------------------------- kinds

  const PERIODIC_TABLE: string := "periodic-table"
  const EQUATION_BALANCING: string := "equation-balancing"
  const MOLECULAR_STRUCTURE: string := "molecular-structure"
  const STOICHIOMETRY: string := "stoichiometry"
  const PH_CALCULATION: string := "ph-calculation"
  const GAS_LAWS: string := "gas-laws"

  /** The six puzzle types the lookup tables have an entry for. */
  const KNOWN_KINDS: seq<string> :=
    [PERIODIC_TABLE, EQUATION_BALANCING, MOLECULAR_STRUCTURE, STOICHIOMETRY, PH_CALCULATION, GAS_LAWS]

  /** The key every lookup table is indexed by: one of the six type names,
      or any other string. */
  datatype Kind = PeriodicTable | EquationBalancing | MolecularStructure
                | Stoichiometry | PhCalculation | GasLaws | Unknown

  /** The type name of a known kind. */
  function KindName(k: Kind): (s: string)
    ensures k != Unknown ==> s in KNOWN_KINDS
  {
    match k
    case PeriodicTable => PERIODIC_TABLE
    case EquationBalancing => EQUATION_BALANCING
    case MolecularStructure => MOLECULAR_STRUCTURE
    case Stoichiometry => STOICHIOMETRY
    case PhCalculation => PH_CALCULATION
    case GasLaws => GAS_LAWS
    case Unknown => ""
  }

  /** Looking a type string up in a table keyed by the six names. */
  function KindOf(s: string): (k: Kind)
    ensures k == Unknown <==> s !in KNOWN_KINDS
    ensures k != Unknown ==> KindName(k) == s
  {
    if s == PERIODIC_TABLE then PeriodicTable
    else if s == EQUATION_BALANCING then EquationBalancing
    else if s == MOLECULAR_STRUCTURE then MolecularStructure
    else if s == STOICHIOMETRY then Stoichiometry
    else if s == PH_CALCULATION then PhCalculation
    else if s == GAS_LAWS then GasLaws
    else Unknown
  }

  /** Each known kind is found again under its own name. */
  lemma KindRoundTrip(k: Kind)
    requires k != Unknown
    ensures KindOf(KindName(k)) == k
  {
    KindsDistinct();
  }

  /** The six kind names differ pairwise (their first two letters do). */
  lemma KindsDistinct()
    ensures PERIODIC_TABLE != EQUATION_BALANCING && PERIODIC_TABLE != MOLECULAR_STRUCTURE
    ensures PERIODIC_TABLE != STOICHIOMETRY && PERIODIC_TABLE != PH_CALCULATION && PERIODIC_TABLE != GAS_LAWS
    ensures EQUATION_BALANCING != MOLECULAR_STRUCTURE && EQUATION_BALANCING != STOICHIOMETRY
    ensures EQUATION_BALANCING != PH_CALCULATION && EQUATION_BALANCING != GAS_LAWS
    ensures MOLECULAR_STRUCTURE != STOICHIOMETRY && MOLECULAR_STRUCTURE != PH_CALCULATION
    ensures MOLECULAR_STRUCTURE != GAS_LAWS
    ensures STOICHIOMETRY != PH_CALCULATION && STOICHIOMETRY != GAS_LAWS && PH_CALCULATION != GAS_LAWS
  {
    assert PERIODIC_TABLE[0] == 'p' && PERIODIC_TABLE[1] == 'e';
    assert EQUATION_BALANCING[0] == 'e';
    assert MOLECULAR_STRUCTURE[0] == 'm';
    assert STOICHIOMETRY[0] == 's';
    assert PH_CALCULATION[0] == 'p' && PH_CALCULATION[1] == 'h';
    assert GAS_LAWS[0] == 'g';
  }

  /** A puzzle as the validator sees it; `kind` is the source's `type`. */
  datatype Puzzle = Puzzle(id: int, kind: string, question: string, options: seq<string>,
                           correct: int, explanation: string)

  datatype Validation = Validation(test: string, passed: bool, details: string)

  /** A check either yields a value or throws a TypeError. */
  datatype Checked<T> = Value(value: T) | Thrown

  // ------------------------------------------------------------ messages

  const QUESTION_CLARITY: string := "Question Clarity"
  const CLARITY_DETAILS: string := "Question should be clear, specific, and unambiguous"
  const ANSWER_ACCURACY: string := "Answer Accuracy"
  const EXPLANATION_QUALITY: string := "Explanation Quality"
  const EXPLANATION_DETAILS: string := "Explanation should provide scientific reasoning and context"
  const EDUCATIONAL_VALUE: string := "Educational Value"
  const DIFFICULTY_LEVEL: string := "Difficulty Level"

  /** The balanced equation the equation-balancing answer must contain. */
  const WATER_SYNTHESIS: string := "2H₂ + O₂ → 2H₂O"

  const CARBON_DETAILS: string := "Carbon has atomic number 6 (6 protons)"
  const BALANCE_DETAILS: string := "Balanced equation: 2H₂ + O₂ → 2H₂O (conservation of mass)"
  const GEOMETRY_DETAILS: string := "Water has bent geometry due to lone pairs on oxygen (VSEPR theory)"
  const RATIO_DETAILS: string := "Stoichiometric ratio: 1 CH₄ : 2 O₂, so 2 CH₄ : 4 O₂"
  const PH_DETAILS: string := "pH = -log[H⁺] = -log(10⁻⁴) = 4"
  const BOYLE_DETAILS: string := "Boyle's Law: P₁V₁ = P₂V₂, if P doubles, V halves"

  // ------------------------------------------------------ question clarity

  predicate HasContext(q: string) {
    Includes(q, "what") || Includes(q, "which") || Includes(q, "how")
  }

  predicate IsSpecific(q: string) {
    !Includes(q, "maybe") && !Includes(q, "approximately")
  }

  /** `validateQuestionClarity`. */
  function QuestionClarity(p: Puzzle): (v: Validation)
    ensures v.test == QUESTION_CLARITY
  {
    var q := Lower(p.question);
    Validation(QUESTION_CLARITY, HasContext(q) && IsSpecific(q),
               CLARITY_DETAILS)
  }

  /** The question passes iff its lower case contains one of the question
      words and neither hedge word. */
  lemma QuestionClarityIff(p: Puzzle)
    ensures var q := Lower(p.question);
      QuestionClarity(p).passed <==>
        (Occurs(q, "what") || Occurs(q, "which") || Occurs(q, "how"))
        && !Occurs(q, "maybe") && !Occurs(q, "approximately")
  {
    var q := Lower(p.question);
    IncludesIff(q, "what");
    IncludesIff(q, "which");
    IncludesIff(q, "how");
    IncludesIff(q, "maybe");
    IncludesIff(q, "approximately");
  }

  /** Capitals in the question make no difference. */
  lemma QuestionClarityIgnoresCase(p: Puzzle)
    ensures QuestionClarity(p.(question := Lower(p.question))) == QuestionClarity(p)
  {
    LowerIsLower(p.question);
  }

  // ------------------------------------------------------- answer accuracy

  /** What a known kind demands of its answer: the index of the right
      option, and a text that option must equal (`exact`) or contain. */
  datatype AnswerKey = AnswerKey(index: nat, text: string, exact: bool, details: string)

  /** The `switch` of `validateAnswerAccuracy`, one case per kind. */
  function KeyFor(kind: Kind): (k: Option<AnswerKey>)
    ensures k.Some? <==> kind != Unknown
    ensures k.Some? ==> k.value.index <= 1
  {
    match kind
    case PeriodicTable => Some(AnswerKey(1, "6", true, CARBON_DETAILS))
    case EquationBalancing =>
      Some(AnswerKey(0, WATER_SYNTHESIS, false,
                     BALANCE_DETAILS))
    case MolecularStructure =>
      Some(AnswerKey(1, "H₂O", false,
                     GEOMETRY_DETAILS))
    case Stoichiometry => Some(AnswerKey(1, "4 moles", true, RATIO_DETAILS))
    case PhCalculation => Some(AnswerKey(0, "4", true, PH_DETAILS))
    case GasLaws => Some(AnswerKey(1, "halves", false, BOYLE_DETAILS))
    case Unknown => None
  }

  /** `validateAnswerAccuracy`. The comparison is only reached when
      `correct` is the right index (`&&` short-circuits). A missing option
      compares unequal to a text, but calling `includes` on it throws. */
  function AnswerAccuracy(p: Puzzle): (r: Checked<Validation>)
    ensures r.Value? ==> r.value.test == ANSWER_ACCURACY
  {
    match KeyFor(KindOf(p.kind))
    case None => Value(Validation(ANSWER_ACCURACY, false, ""))
    case Some(key) =>
      if p.correct != key.index then Value(Validation(ANSWER_ACCURACY, false, key.details))
      else if key.exact then
        Value(Validation(ANSWER_ACCURACY,
                         key.index < |p.options| && p.options[key.index] == key.text, key.details))
      else if key.index < |p.options| then
        Value(Validation(ANSWER_ACCURACY, Includes(p.options[key.index], key.text), key.details))
      else Thrown
  }

  /** The answer check, kind by kind: it passes exactly in these six
      cases, throws exactly when an `includes` test has no option to look
      at, and an unknown kind fails. */
  lemma AnswerAccuracyIff(p: Puzzle)
    ensures var k := KindOf(p.kind);
      AnswerAccuracy(p).Value? && AnswerAccuracy(p).value.passed <==>
      (k == PeriodicTable && p.correct == 1 && 1 < |p.options| && p.options[1] == "6")
      || (k == EquationBalancing && p.correct == 0 && 0 < |p.options|
          && Occurs(p.options[0], WATER_SYNTHESIS))
      || (k == MolecularStructure && p.correct == 1 && 1 < |p.options| && Occurs(p.options[1], "H₂O"))
      || (k == Stoichiometry && p.correct == 1 && 1 < |p.options| && p.options[1] == "4 moles")
      || (k == PhCalculation && p.correct == 0 && 0 < |p.options| && p.options[0] == "4")
      || (k == GasLaws && p.correct == 1 && 1 < |p.options| && Occurs(p.options[1], "halves"))
    ensures var k := KindOf(p.kind);
      AnswerAccuracy(p).Thrown? <==>
      (k == EquationBalancing && p.correct == 0 && |p.options| == 0)
      || ((k == MolecularStructure || k == GasLaws) && p.correct == 1 && |p.options| <= 1)
    ensures p.kind !in KNOWN_KINDS ==> AnswerAccuracy(p) == Value(Validation(ANSWER_ACCURACY, false, ""))
  {
    match KindOf(p.kind)
    case EquationBalancing =>
      if 0 < |p.options| { IncludesIff(p.options[0], WATER_SYNTHESIS); }
    case MolecularStructure =>
      if 1 < |p.options| { IncludesIff(p.options[1], "H₂O"); }
    case GasLaws =>
      if 1 < |p.options| { IncludesIff(p.options[1], "halves"); }
    case _ =>
  }

  /** With at least two options there is always an option to look at. */
  lemma ManyOptionsNeverThrow(p: Puzzle)
    requires |p.options| >= 2
    ensures AnswerAccuracy(p).Value?
  {
  }

  // --------------------------------------------------- explanation quality

  /** The terms `checkTerminology` looks for; none for an unknown kind. */
  function TermsFor(kind: Kind): (ts: seq<string>)
    ensures ts == [] <==> kind == Unknown
  {
    match kind
    case PeriodicTable => ["protons", "atomic", "electron"]
    case EquationBalancing => ["atoms", "balance", "equation", "side"]
    case MolecularStructure => ["molecular", "geometry", "shape", "pairs"]
    case Stoichiometry => ["mole", "equation", "ratio"]
    case PhCalculation => ["pH", "log", "concentration"]
    case GasLaws => ["law", "pressure", "volume", "proportional"]
    case Unknown => []
  }

  /** `checkTerminology`: some term of the kind occurs in the explanation,
      both sides lower-cased. */
  predicate CheckTerminology(kind: string, explanation: string) {
    var ts := TermsFor(KindOf(kind));
    exists k :: 0 <= k < |ts| && Includes(Lower(explanation), Lower(ts[k]))
  }

  /** The terminology test holds iff some required term occurs, ignoring
      case; it never holds for an unknown kind; and it does not depend on
      the capitals of the explanation. */
  lemma CheckTerminologyIff(kind: string, explanation: string)
    ensures CheckTerminology(kind, explanation) <==>
      exists t :: t in TermsFor(KindOf(kind)) && Occurs(Lower(explanation), Lower(t))
    ensures kind !in KNOWN_KINDS ==> !CheckTerminology(kind, explanation)
    ensures CheckTerminology(kind, Lower(explanation)) == CheckTerminology(kind, explanation)
  {
    var ts, e := TermsFor(KindOf(kind)), Lower(explanation);
    forall k | 0 <= k < |ts| ensures Includes(e, Lower(ts[k])) <==> Occurs(e, Lower(ts[k])) {
      IncludesIff(e, Lower(ts[k]));
    }
    LowerIsLower(explanation);
  }

  /** The context test of `validateExplanationQuality`: case-sensitive. */
  const BECAUSE := "because"
  const DUE_TO := "due to"
  const ACCORDING_TO := "according to"

  predicate ProvidesContext(explanation: string) {
    Includes(explanation, BECAUSE) || Includes(explanation, DUE_TO) || Includes(explanation, ACCORDING_TO)
  }

  /** `validateExplanationQuality`. */
  function ExplanationQuality(p: Puzzle): (v: Validation)
    ensures v.test == EXPLANATION_QUALITY
  {
    var e := p.explanation;
    Validation(EXPLANATION_QUALITY,
               |e| > 20 && CheckTerminology(p.kind, e) && ProvidesContext(e),
               EXPLANATION_DETAILS)
  }

  /** The explanation passes iff it is longer than 20 characters, uses a
      term of its kind and contains one of the three phrases exactly as
      written. */
  lemma ExplanationQualityIff(p: Puzzle)
    ensures var e := p.explanation;
      ExplanationQuality(p).passed <==>
        |e| > 20
        && (exists t :: t in TermsFor(KindOf(p.kind)) && Occurs(Lower(e), Lower(t)))
        && (Occurs(e, BECAUSE) || Occurs(e, DUE_TO) || Occurs(e, ACCORDING_TO))
    ensures |p.explanation| <= 20 || p.kind !in KNOWN_KINDS ==> !ExplanationQuality(p).passed
  {
    var e := p.explanation;
    CheckTerminologyIff(p.kind, e);
    IncludesIff(e, BECAUSE);
    IncludesIff(e, DUE_TO);
    IncludesIff(e, ACCORDING_TO);
  }

  /** Lower-casing an explanation can only make the phrase test pass. */
  lemma ContextSurvivesLower(explanation: string)
    ensures ProvidesContext(explanation) ==> ProvidesContext(Lower(explanation))
  {
    assert Lower(BECAUSE) == BECAUSE;
    assert Lower(DUE_TO) == DUE_TO;
    assert Lower(ACCORDING_TO) == ACCORDING_TO;
    if Includes(explanation, BECAUSE) { IncludesLower(explanation, BECAUSE); }
    if Includes(explanation, DUE_TO) { IncludesLower(explanation, DUE_TO); }
    if Includes(explanation, ACCORDING_TO) { IncludesLower(explanation, ACCORDING_TO); }
  }

  /** A capitalised "According to" contains none of the three phrases:
      each has a letter the capitalised text lacks. */
  const CAPITALISED_CONTEXT := "According to"

  lemma CapitalisedContextFails()
    ensures !ProvidesContext(CAPITALISED_CONTEXT)
  {
    var cap := CAPITALISED_CONTEXT;
    assert BECAUSE[0] == 'b' && 'b' !in cap;
    MissingCharExcludes(cap, BECAUSE, 'b');
    assert DUE_TO[1] == 'u' && 'u' !in cap;
    MissingCharExcludes(cap, DUE_TO, 'u');
    assert ACCORDING_TO[0] == 'a' && 'a' !in cap;
    MissingCharExcludes(cap, ACCORDING_TO, 'a');
  }

  /** The phrase test is case-sensitive: a capitalised "According to" does
      not count, although its lower case does. */
  lemma ContextIsCaseSensitive()
    ensures !ProvidesContext(CAPITALISED_CONTEXT) && ProvidesContext(Lower(CAPITALISED_CONTEXT))
  {
    CapitalisedContextFails();
    assert Lower(CAPITALISED_CONTEXT) == ACCORDING_TO;
    IncludesSelf(ACCORDING_TO);
  }

  // ------------------------------------------ educational value, difficulty

  /** The concept each known kind teaches. */
  function ConceptFor(kind: Kind): (c: Option<string>)
    ensures c.Some? <==> kind != Unknown
  {
    match kind
    case PeriodicTable => Some("atomic structure")
    case EquationBalancing => Some("conservation of mass")
    case MolecularStructure => Some("VSEPR theory")
    case Stoichiometry => Some("quantitative relationships")
    case PhCalculation => Some("acid-base chemistry")
    case GasLaws => Some("gas behavior")
    case Unknown => None
  }

  /** The level each known kind is meant for. */
  function LevelFor(kind: Kind): (l: Option<string>)
    ensures l.Some? <==> kind != Unknown
  {
    match kind
    case PeriodicTable => Some("beginner")
    case EquationBalancing => Some("intermediate")
    case MolecularStructure => Some("intermediate")
    case Stoichiometry => Some("advanced")
    case PhCalculation => Some("advanced")
    case GasLaws => Some("intermediate")
    case Unknown => None
  }

  /** `validateEducationalValue`. */
  function EducationalValue(p: Puzzle): (v: Validation)
    ensures v.test == EDUCATIONAL_VALUE
    ensures v.passed <==> p.kind in KNOWN_KINDS
  {
    var c := ConceptFor(KindOf(p.kind));
    Validation(EDUCATIONAL_VALUE, c.Some?,
               "Teaches " + (if c.Some? then c.value else "chemistry concepts"))
  }

  /** `validateDifficultyLevel`. */
  function DifficultyLevel(p: Puzzle): (v: Validation)
    ensures v.test == DIFFICULTY_LEVEL
    ensures v.passed <==> p.kind in KNOWN_KINDS
  {
    var l := LevelFor(KindOf(p.kind));
    Validation(DIFFICULTY_LEVEL, l.Some?,
               "Appropriate " + (if l.Some? then l.value else "general") + " level difficulty")
  }

  // ------------------------------------------------------ per-puzzle score

  /** The five validations of `validatePuzzle`, in order; the answer check
      is the only one that can throw. */
  function Validations(p: Puzzle): (r: Checked<seq<Validation>>)
    ensures r.Thrown? <==> AnswerAccuracy(p).Thrown?
    ensures r.Value? ==>
      r.value == [QuestionClarity(p), AnswerAccuracy(p).value, ExplanationQuality(p),
                  EducationalValue(p), DifficultyLevel(p)]
  {
    match AnswerAccuracy(p)
    case Thrown => Thrown
    case Value(a) => Value([QuestionClarity(p), a, ExplanationQuality(p), EducationalValue(p), DifficultyLevel(p)])
  }

  /** The number of validations that passed. */
  function PassedCount(vs: seq<Validation>): (n: nat)
    ensures n <= |vs|
    ensures n == |vs| <==> forall i :: 0 <= i < |vs| ==> vs[i].passed
    ensures n == 0 <==> forall i :: 0 <= i < |vs| ==> !vs[i].passed
    decreases |vs|
  {
    if vs == [] then 0 else (if vs[0].passed then 1 else 0) + PassedCount(vs[1..])
  }

  /** `passed / validations.length * 100` over the five validations; each
      of the six possible values is exact in binary floating point. */
  function Score(vs: seq<Validation>): (r: real)
    requires |vs| == 5
    ensures 0.0 <= r <= 100.0
    ensures r == 20.0 * PassedCount(vs) as real
  {
    PassedCount(vs) as real / |vs| as real * 100.0
  }

  datatype PuzzleResult = PuzzleResult(puzzle: Puzzle, score: real, validations: seq<Validation>)

  /** The result `validatePuzzle` appends, or Thrown when it throws. */
  function Validate(p: Puzzle): (r: Checked<PuzzleResult>)
    ensures r.Thrown? <==> AnswerAccuracy(p).Thrown?
    ensures r.Value? ==> r.value.puzzle == p && |r.value.validations| == 5
  {
    match Validations(p)
    case Thrown => Thrown
    case Value(vs) => Value(PuzzleResult(p, Score(vs), vs))
  }

  /** A puzzle's score is a multiple of 20 between 0 and 100; it is 100
      exactly when every check passes, and an unknown kind scores at most
      20: only the question check can pass for it. */
  lemma ScoreSteps(p: Puzzle)
    requires Validate(p).Value?
    ensures var s := Validate(p).value.score;
      s in {0.0, 20.0, 40.0, 60.0, 80.0, 100.0}
    ensures Validate(p).value.score == 100.0 <==>
      QuestionClarity(p).passed && AnswerAccuracy(p).value.passed && ExplanationQuality(p).passed
      && p.kind in KNOWN_KINDS
    ensures p.kind !in KNOWN_KINDS ==> Validate(p).value.score <= 20.0
  {
    var vs := Validations(p).value;
    var n := PassedCount(vs);
    assert n in {0, 1, 2, 3, 4, 5};
    if p.kind !in KNOWN_KINDS {
      AnswerAccuracyIff(p);
      ExplanationQualityIff(p);
      assert PassedCount(vs[4..]) == 0;
      assert PassedCount(vs[3..]) == 0;
      assert PassedCount(vs[2..]) == 0;
      assert PassedCount(vs[1..]) == 0;
    }
  }

  // ------------------------------------------------------ the validator

  /** The results up to the first puzzle whose validation throws: the
      exception leaves `forEach`, so later puzzles are not validated. */
  function ValidateEach(ps: seq<Puzzle>): (rs: seq<PuzzleResult>)
    ensures |rs| <= |ps|
    decreases |ps|
  {
    if ps == [] then []
    else match Validate(ps[0])
      case Thrown => []
      case Value(r) => [r] + ValidateEach(ps[1..])
  }

  /** Result i is the validation of puzzle i, and the list stops short
      only at a puzzle that throws. */
  lemma {:induction false} ValidateEachSpec(ps: seq<Puzzle>)
    ensures var rs := ValidateEach(ps);
      (forall i :: 0 <= i < |rs| ==> Validate(ps[i]) == Value(rs[i]))
      && (|rs| < |ps| ==> Validate(ps[|rs|]).Thrown?)
    decreases |ps|
  {
    hide Validate;
    if ps != [] && Validate(ps[0]).Value? {
      ValidateEachSpec(ps[1..]);
      var rs := ValidateEach(ps);
      assert rs == [Validate(ps[0]).value] + ValidateEach(ps[1..]);
      forall i | 1 <= i < |rs| ensures Validate(ps[i]) == Value(rs[i]) {
        assert ps[i] == ps[1..][i - 1];
      }
      if |rs| < |ps| {
        assert ps[|rs|] == ps[1..][|rs| - 1];
      }
    }
  }

  /** Validating from puzzle i on: puzzle i either throws, which ends
      the list, or gives the next result. */
  lemma ValidateEachStep(ps: seq<Puzzle>, i: int)
    requires 0 <= i < |ps|
    ensures ValidateEach(ps[i..]) ==
      match Validate(ps[i])
      case Thrown => []
      case Value(r) => [r] + ValidateEach(ps[i + 1..])
  {
    assert ps[i..][0] == ps[i];
    assert ps[i..][1..] == ps[i + 1..];
  }

  class ChemistryValidator {
    var validationResults: seq<PuzzleResult>

    constructor()
      ensures validationResults == []
    {
      validationResults := [];
    }

    /** `validatePuzzle`: appends exactly one result, or throws and
        appends nothing. */
    method ValidatePuzzle(p: Puzzle) returns (thrown: bool)
      modifies this
      ensures thrown <==> Validate(p).Thrown?
      ensures validationResults == old(validationResults) + (if thrown then [] else [Validate(p).value])
    {
      var vs := Validations(p);
      if vs.Thrown? {
        return true;
      }
      var score := Score(vs.value);
      validationResults := validationResults + [PuzzleResult(p, score, vs.value)];
      thrown := false;
    }

    /** `puzzles.forEach(puzzle => this.validatePuzzle(puzzle))`. */
    method ValidatePuzzles(ps: seq<Puzzle>) returns (thrown: bool)
      modifies this
      ensures validationResults == old(validationResults) + ValidateEach(ps)
      ensures thrown <==> |ValidateEach(ps)| < |ps|
    {
      // The loop only needs how `ValidateEach` splits, not what a single
      // validation computes.
      hide Validate;
      ghost var start := validationResults;
      var i := 0;
      while i < |ps|
        invariant 0 <= i <= |ps|
        invariant |validationResults| == |start| + i
        invariant validationResults + ValidateEach(ps[i..]) == start + ValidateEach(ps)
        decreases |ps| - i
      {
        ValidateEachStep(ps, i);
        thrown := ValidatePuzzle(ps[i]);
        if thrown {
          return;
        }
        i := i + 1;
      }
      assert ps[i..] == [];
      thrown := false;
    }

    /** `validateAllPuzzles` on the six built-in puzzles; none throws. */
    method ValidateAllPuzzles()
      modifies this
      ensures validationResults == old(validationResults) + ValidateEach(BuiltInPuzzles)
      ensures |validationResults| == |old(validationResults)| + 6
    {
      BuiltInPuzzlesValidate();
      var thrown := ValidatePuzzles(BuiltInPuzzles);
    }
  }

  // The six puzzles `validateAllPuzzles` checks.

  const Puzzle1: Puzzle :=
    Puzzle(1, PERIODIC_TABLE, "What is the atomic number of Carbon?", ["4", "6", "8", "12"], 1,
           "Carbon has 6 protons, so its atomic number is 6.")
  const Puzzle2: Puzzle :=
    Puzzle(2, EQUATION_BALANCING, "Balance: H₂ + O₂ → H₂O",
           ["2H₂ + O₂ → 2H₂O", "H₂ + 2O₂ → H₂O", "H₂ + O₂ → 2H₂O", "3H₂ + O₂ → 3H₂O"], 0,
           "2H₂ + O₂ → 2H₂O balances the equation with 4 H atoms and 2 O atoms on each side.")
  const Puzzle3: Puzzle :=
    Puzzle(3, MOLECULAR_STRUCTURE, "Which molecule has a bent shape?",
           ["CO₂ (carbon dioxide)", "H₂O (water)", "CH₄ (methane)", "NH₃ (ammonia)"], 1,
           "Water (H₂O) has a bent molecular geometry due to the two lone pairs on oxygen.")
  const Puzzle4: Puzzle :=
    Puzzle(4, STOICHIOMETRY,
           "How many moles of O₂ are needed to react with 2 moles of CH₄ in: CH₄ + 2O₂ → CO₂ + 2H₂O",
           ["2 moles", "4 moles", "1 mole", "6 moles"], 1,
           "According to the equation, 1 mole CH₄ needs 2 moles O₂, so 2 moles CH₄ needs 4 moles O₂.")
  const Puzzle5: Puzzle :=
    Puzzle(5, PH_CALCULATION, "What is the pH of a solution with [H⁺] = 1 × 10⁻⁴ M?",
           ["4", "10", "-4", "14"], 0,
           "pH = -log[H⁺] = -log(1 × 10⁻⁴) = 4")
  const Puzzle6: Puzzle :=
    Puzzle(6, GAS_LAWS,
           "Using PV = nRT, if pressure doubles and temperature stays constant, what happens to volume?",
           ["Volume doubles", "Volume halves", "Volume stays the same", "Volume quadruples"], 1,
           "According to Boyle's Law (part of ideal gas law), P and V are inversely proportional when T is constant.")

  const BuiltInPuzzles: seq<Puzzle> := [Puzzle1, Puzzle2, Puzzle3, Puzzle4, Puzzle5, Puzzle6]

  /** No puzzle with two or more options throws, so every one of them is
      validated. */
  lemma AllValidated(ps: seq<Puzzle>)
    requires forall p :: p in ps ==> |p.options| >= 2
    ensures |ValidateEach(ps)| == |ps|
  {
    ValidateEachSpec(ps);
    var n := |ValidateEach(ps)|;
    if n < |ps| {
      assert ps[n] in ps;
      ManyOptionsNeverThrow(ps[n]);
    }
  }

  /** Every built-in puzzle has four options. */
  lemma BuiltInOptions()
    ensures forall p :: p in BuiltInPuzzles ==> |p.options| == 4
  {
    assert |Puzzle1.options| == |Puzzle2.options| == |Puzzle3.options| == 4;
    assert |Puzzle4.options| == |Puzzle5.options| == |Puzzle6.options| == 4;
  }

  /** Every built-in puzzle has a known kind, so its educational value and
      difficulty checks pass. */
  lemma BuiltInKinds()
    ensures forall p :: p in BuiltInPuzzles ==> p.kind in KNOWN_KINDS
  {
    assert forall k :: 0 <= k < 6 ==> BuiltInPuzzles[k].kind == KNOWN_KINDS[k];
  }

  /** None of the built-in puzzles throws, so all six are validated. */
  lemma BuiltInPuzzlesValidate()
    ensures |ValidateEach(BuiltInPuzzles)| == 6
  {
    BuiltInOptions();
    AllValidated(BuiltInPuzzles);
  }
}
