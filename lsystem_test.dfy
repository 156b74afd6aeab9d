/**
 * The L-system generator tests: cursor positions after expanding the axioms
 * the tests use, and the expansion of two rules that refer to each other.
 */
module LSystemTest {
  import opened Voxel
  import opened LSystem

  /** The rules of the multiple-states test: A expands to the axiom itself. */
  const MULTIPLE_RULES: map<char, string> := map['A' := "AY[xYA]AY[XYA]AY"]

  /** The rules of the voxel generation test: A and B refer to each other. */
  const GENERATE_RULES: map<char, string> := map['A' := "XAxYAXBXXYYZZ", 'B' := "A[zC]"]

  /** "AXYZ" without rules moves the cursor by (1, 1, 1). */
  lemma Forward(rules: map<char, string>, gen: int, p: Pos)
    requires gen >= 1
    requires 'A' !in rules && 'X' !in rules && 'Y' !in rules && 'Z' !in rules
    ensures Run(rules, "AXYZ", gen, Turtle(p, [])) == Turtle(p.Add(Pos(1, 1, 1)), [])
  {
    assert Run(rules, "AXYZ", gen, Turtle(p, [])) == Run(rules, "XYZ", gen, Turtle(p, []));
    assert Run(rules, "XYZ", gen, Turtle(p, [])) == Run(rules, "YZ", gen, Turtle(p.Add(Pos(1, 0, 0)), []));
    assert Run(rules, "YZ", gen, Turtle(p.Add(Pos(1, 0, 0)), [])) == Run(rules, "Z", gen, Turtle(p.Add(Pos(1, 1, 0)), []));
    assert Run(rules, "Z", gen, Turtle(p.Add(Pos(1, 1, 0)), [])) == Run(rules, "", gen, Turtle(p.Add(Pos(1, 1, 1)), []));
  }

  /** "xyz" without rules moves the cursor by (-1, -1, -1). */
  lemma Backward(rules: map<char, string>, gen: int, p: Pos)
    requires gen >= 1
    requires 'x' !in rules && 'y' !in rules && 'z' !in rules
    ensures Run(rules, "xyz", gen, Turtle(p, [])) == Turtle(p.Add(Pos(-1, -1, -1)), [])
  {
    assert Run(rules, "xyz", gen, Turtle(p, [])) == Run(rules, "yz", gen, Turtle(p.Add(Pos(-1, 0, 0)), []));
    assert Run(rules, "yz", gen, Turtle(p.Add(Pos(-1, 0, 0)), [])) == Run(rules, "z", gen, Turtle(p.Add(Pos(-1, -1, 0)), []));
    assert Run(rules, "z", gen, Turtle(p.Add(Pos(-1, -1, 0)), [])) == Run(rules, "", gen, Turtle(p.Add(Pos(-1, -1, -1)), []));
  }

  /** "XYZ" without rules moves the cursor by (1, 1, 1). */
  lemma ForwardAgain(rules: map<char, string>, gen: int, p: Pos)
    requires gen >= 1
    requires 'X' !in rules && 'Y' !in rules && 'Z' !in rules
    ensures Run(rules, "XYZ", gen, Turtle(p, [])) == Turtle(p.Add(Pos(1, 1, 1)), [])
  {
    assert Run(rules, "XYZ", gen, Turtle(p, [])) == Run(rules, "YZ", gen, Turtle(p.Add(Pos(1, 0, 0)), []));
    assert Run(rules, "YZ", gen, Turtle(p.Add(Pos(1, 0, 0)), [])) == Run(rules, "Z", gen, Turtle(p.Add(Pos(1, 1, 0)), []));
    assert Run(rules, "Z", gen, Turtle(p.Add(Pos(1, 1, 0)), [])) == Run(rules, "", gen, Turtle(p.Add(Pos(1, 1, 1)), []));
  }

  /** With one generation left, rule expansions have none left and move nothing. */
  lemma {:induction false} LastGenerationIgnoresRules(rules: map<char, string>, s: string, t: Turtle)
    ensures Run(rules, s, 1, t) == Run(map[], s, 1, t)
    decreases |s|
  {
    if s != [] {
      var c := s[0];
      if c in rules {
        assert Run(rules, rules[c], 0, Turtle(t.pos, [])).pos == t.pos;
      }
      LastGenerationIgnoresRules(rules, s[1..], Step(c, t));
    }
  }

  /** "AY" moves the cursor by A's expansion, given as d at p, and one up. */
  lemma AY(rules: map<char, string>, gen: int, p: Pos, d: Pos)
    requires gen >= 1
    requires 'A' in rules && 'Y' !in rules
    requires Run(rules, rules['A'], gen - 1, Turtle(p, [])).pos == p.Add(d)
    ensures Run(rules, "AY", gen, Turtle(p, [])) == Turtle(p.Add(d).Add(Pos(0, 1, 0)), [])
  {
    assert Run(rules, "AY", gen, Turtle(p, [])) == Run(rules, "Y", gen, Turtle(p.Add(d), []));
    assert Run(rules, "Y", gen, Turtle(p.Add(d), [])) == Run(rules, "", gen, Turtle(p.Add(d).Add(Pos(0, 1, 0)), []));
  }

  /** The rules of the multiple-states test, as the lemmas about them need them. */
  predicate IsMultipleRules(rules: map<char, string>) {
    'A' in rules && rules['A'] == "AY[xYA]AY[XYA]AY" && 'Y' !in rules && '[' !in rules && ']' !in rules
  }

  /** How the axiom of the multiple-states test splits around its two bracketed parts. */
  lemma MultipleAxiomParts()
    ensures "AY[xYA]AY[XYA]AY" == "AY" + (("[" + "xYA" + "]") + ("AY" + (("[" + "XYA" + "]") + "AY")))
  {
  }

  /** Both bracketed parts of the multiple-states axiom are balanced. */
  lemma MultipleBracketsBalanced()
    ensures NeverUnder("xYA", 0) && Depth("xYA") == 0 && NeverUnder("XYA", 0) && Depth("XYA") == 0
  {
  }

  /** "AY" followed by a balanced bracketed part moves the cursor as "AY" alone does. */
  lemma AYBracket(rules: map<char, string>, gen: int, p: Pos, d: Pos, inner: string, rest: string)
    requires gen >= 1
    requires 'A' in rules && 'Y' !in rules && '[' !in rules && ']' !in rules
    requires NeverUnder(inner, 0) && Depth(inner) == 0
    requires Run(rules, rules['A'], gen - 1, Turtle(p, [])).pos == p.Add(d)
    ensures Run(rules, "AY" + (("[" + inner + "]") + rest), gen, Turtle(p, []))
            == Run(rules, rest, gen, Turtle(p.Add(d).Add(Pos(0, 1, 0)), []))
  {
    var q := p.Add(d).Add(Pos(0, 1, 0));
    AY(rules, gen, p, d);
    RunAppend(rules, "AY", ("[" + inner + "]") + rest, gen, Turtle(p, []));
    RunAppend(rules, "[" + inner + "]", rest, gen, Turtle(q, []));
    BracketRestores(rules, inner, gen, Turtle(q, []));
  }

  /**
   * The axiom of the multiple-states test: the bracketed parts are undone and
   * each of the three outer "AY" moves by A's expansion and one up.
   */
  lemma Multiple(rules: map<char, string>, gen: int, p: Pos, d: Pos)
    requires gen >= 1
    requires 'A' in rules && 'Y' !in rules && '[' !in rules && ']' !in rules
    requires Run(rules, rules['A'], gen - 1, Turtle(p, [])).pos == p.Add(d)
    requires Run(rules, rules['A'], gen - 1, Turtle(p.Add(d).Add(Pos(0, 1, 0)), [])).pos == p.Add(d).Add(Pos(0, 1, 0)).Add(d)
    requires Run(rules, rules['A'], gen - 1, Turtle(p.Add(d).Add(Pos(0, 1, 0)).Add(d).Add(Pos(0, 1, 0)), [])).pos
             == p.Add(d).Add(Pos(0, 1, 0)).Add(d).Add(Pos(0, 1, 0)).Add(d)
    ensures Run(rules, "AY[xYA]AY[XYA]AY", gen, Turtle(p, [])).pos == Pos(p.x + 3 * d.x, p.y + 3 * d.y + 3, p.z + 3 * d.z)
  {
    var p1 := p.Add(d).Add(Pos(0, 1, 0));
    var p2 := p1.Add(d).Add(Pos(0, 1, 0));
    MultipleAxiomParts();
    MultipleBracketsBalanced();
    AYBracket(rules, gen, p, d, "xYA", "AY" + (("[" + "XYA" + "]") + "AY"));
    AYBracket(rules, gen, p1, d, "XYA", "AY");
    AY(rules, gen, p2, d);
  }

  /** With one generation left the axiom moves the cursor 3 up: its own A expansions have no generations left. */
  lemma MultipleInner(rules: map<char, string>, p: Pos)
    requires IsMultipleRules(rules)
    ensures Run(rules, rules['A'], 1, Turtle(p, [])).pos == p.Add(Pos(0, 3, 0))
  {
    var p1 := p.Add(Pos(0, 1, 0));
    var p2 := p1.Add(Pos(0, 1, 0));
    AddZero(p);
    AddZero(p1);
    AddZero(p2);
    NoGenerations(rules, rules['A'], 0, p);
    NoGenerations(rules, rules['A'], 0, p1);
    NoGenerations(rules, rules['A'], 0, p2);
    Multiple(rules, 1, p, Pos(0, 0, 0));
  }

  /** With two generations each of the three outer A symbols adds 3 and each outer Y adds 1. */
  lemma MultipleOuter(rules: map<char, string>, p: Pos)
    requires IsMultipleRules(rules)
    ensures Run(rules, "AY[xYA]AY[XYA]AY", 2, Turtle(p, [])).pos == p.Add(Pos(0, 12, 0))
  {
    var d := Pos(0, 3, 0);
    MultipleInner(rules, p);
    MultipleInner(rules, p.Add(d).Add(Pos(0, 1, 0)));
    MultipleInner(rules, p.Add(d).Add(Pos(0, 1, 0)).Add(d).Add(Pos(0, 1, 0)));
    Multiple(rules, 2, p, d);
  }

  /** The first part of A's rule, with no rules in play, moves the cursor by (0, 1, 0). */
  lemma WalkRuleA1(none: map<char, string>, p: Pos)
    requires 'X' !in none && 'A' !in none && 'x' !in none && 'Y' !in none
    ensures Run(none, "XAxY", 1, Turtle(p, [])) == Turtle(p.Add(Pos(0, 1, 0)), [])
  {
    assert Run(none, "XAxY", 1, Turtle(p, [])) == Run(none, "AxY", 1, Turtle(p.Add(Pos(1, 0, 0)), []));
    assert Run(none, "AxY", 1, Turtle(p.Add(Pos(1, 0, 0)), [])) == Run(none, "xY", 1, Turtle(p.Add(Pos(1, 0, 0)), []));
    assert Run(none, "xY", 1, Turtle(p.Add(Pos(1, 0, 0)), [])) == Run(none, "Y", 1, Turtle(p, []));
    assert Run(none, "Y", 1, Turtle(p, [])) == Run(none, "", 1, Turtle(p.Add(Pos(0, 1, 0)), []));
  }

  /** The second part of A's rule, with no rules in play, moves the cursor by (1, 0, 0). */
  lemma WalkRuleA2(none: map<char, string>, p: Pos)
    requires 'A' !in none && 'X' !in none && 'B' !in none
    ensures Run(none, "AXB", 1, Turtle(p, [])) == Turtle(p.Add(Pos(1, 0, 0)), [])
  {
    assert Run(none, "AXB", 1, Turtle(p, [])) == Run(none, "XB", 1, Turtle(p, []));
    assert Run(none, "XB", 1, Turtle(p, [])) == Run(none, "B", 1, Turtle(p.Add(Pos(1, 0, 0)), []));
    assert Run(none, "B", 1, Turtle(p.Add(Pos(1, 0, 0)), [])) == Run(none, "", 1, Turtle(p.Add(Pos(1, 0, 0)), []));
  }

  /** The third part of A's rule, with no rules in play, moves the cursor by (2, 1, 0). */
  lemma WalkRuleA3(none: map<char, string>, p: Pos)
    requires 'X' !in none && 'Y' !in none
    ensures Run(none, "XXY", 1, Turtle(p, [])) == Turtle(p.Add(Pos(2, 1, 0)), [])
  {
    assert Run(none, "XXY", 1, Turtle(p, [])) == Run(none, "XY", 1, Turtle(p.Add(Pos(1, 0, 0)), []));
    assert Run(none, "XY", 1, Turtle(p.Add(Pos(1, 0, 0)), [])) == Run(none, "Y", 1, Turtle(p.Add(Pos(2, 0, 0)), []));
    assert Run(none, "Y", 1, Turtle(p.Add(Pos(2, 0, 0)), [])) == Run(none, "", 1, Turtle(p.Add(Pos(2, 1, 0)), []));
  }

  /** The fourth part of A's rule, with no rules in play, moves the cursor by (0, 1, 2). */
  lemma WalkRuleA4(none: map<char, string>, p: Pos)
    requires 'Y' !in none && 'Z' !in none
    ensures Run(none, "YZZ", 1, Turtle(p, [])) == Turtle(p.Add(Pos(0, 1, 2)), [])
  {
    assert Run(none, "YZZ", 1, Turtle(p, [])) == Run(none, "ZZ", 1, Turtle(p.Add(Pos(0, 1, 0)), []));
    assert Run(none, "ZZ", 1, Turtle(p.Add(Pos(0, 1, 0)), [])) == Run(none, "Z", 1, Turtle(p.Add(Pos(0, 1, 1)), []));
    assert Run(none, "Z", 1, Turtle(p.Add(Pos(0, 1, 1)), [])) == Run(none, "", 1, Turtle(p.Add(Pos(0, 1, 2)), []));
  }

  /** The rule of A, with no rules in play, moves the cursor by (3, 3, 2). */
  lemma WalkRuleA(none: map<char, string>, p: Pos)
    requires 'X' !in none && 'A' !in none && 'x' !in none && 'Y' !in none && 'B' !in none && 'Z' !in none
    ensures Run(none, "XAxYAXBXXYYZZ", 1, Turtle(p, [])) == Turtle(p.Add(Pos(3, 3, 2)), [])
  {
    var p1 := p.Add(Pos(0, 1, 0));
    var p2 := p1.Add(Pos(1, 0, 0));
    var p3 := p2.Add(Pos(2, 1, 0));
    assert "XAxYAXBXXYYZZ" == "XAxY" + ("AXB" + ("XXY" + "YZZ"));
    RunAppend(none, "XAxY", "AXB" + ("XXY" + "YZZ"), 1, Turtle(p, []));
    WalkRuleA1(none, p);
    RunAppend(none, "AXB", "XXY" + "YZZ", 1, Turtle(p1, []));
    WalkRuleA2(none, p1);
    RunAppend(none, "XXY", "YZZ", 1, Turtle(p2, []));
    WalkRuleA3(none, p2);
    WalkRuleA4(none, p3);
  }

  /** The rule of B, with no rules in play, returns the cursor to where it was. */
  lemma WalkRuleB(none: map<char, string>, p: Pos)
    requires 'A' !in none && '[' !in none && 'z' !in none && 'C' !in none && ']' !in none
    ensures Run(none, "A[zC]", 1, Turtle(p, [])) == Turtle(p, [])
  {
    assert Run(none, "A[zC]", 1, Turtle(p, [])) == Run(none, "[zC]", 1, Turtle(p, []));
    assert Run(none, "[zC]", 1, Turtle(p, [])) == Run(none, "zC]", 1, Turtle(p, [p]));
    assert Run(none, "zC]", 1, Turtle(p, [p])) == Run(none, "C]", 1, Turtle(p.Add(Pos(0, 0, -1)), [p]));
    assert Run(none, "C]", 1, Turtle(p.Add(Pos(0, 0, -1)), [p])) == Run(none, "]", 1, Turtle(p.Add(Pos(0, 0, -1)), [p]));
    assert Run(none, "]", 1, Turtle(p.Add(Pos(0, 0, -1)), [p])) == Run(none, "", 1, Turtle(p, []));
  }

  /** The rules of the voxel generation test, as the lemmas about them need them. */
  predicate IsGenerateRules(rules: map<char, string>) {
    'A' in rules && rules['A'] == "XAxYAXBXXYYZZ" && 'B' in rules && rules['B'] == "A[zC]"
  }

  /** The rule of A with one generation left moves the cursor by (3, 3, 2). */
  lemma GenerateRuleA(rules: map<char, string>, p: Pos)
    requires IsGenerateRules(rules)
    ensures Run(rules, rules['A'], 1, Turtle(p, [])) == Turtle(p.Add(Pos(3, 3, 2)), [])
  {
    LastGenerationIgnoresRules(rules, rules['A'], Turtle(p, []));
    WalkRuleA(map[], p);
  }

  /** The rule of B with one generation left returns the cursor to where it was. */
  lemma GenerateRuleB(rules: map<char, string>, p: Pos)
    requires IsGenerateRules(rules)
    ensures Run(rules, rules['B'], 1, Turtle(p, [])) == Turtle(p, [])
  {
    LastGenerationIgnoresRules(rules, rules['B'], Turtle(p, []));
    WalkRuleB(map[], p);
  }

  /** With two generations "AB" moves the cursor by the rule of A and then returns nothing of B. */
  lemma GenerateAxiom(rules: map<char, string>, p: Pos)
    requires IsGenerateRules(rules)
    ensures Run(rules, "AB", 2, Turtle(p, [])) == Turtle(p.Add(Pos(3, 3, 2)), [])
  {
    var q := p.Add(Pos(3, 3, 2));
    GenerateRuleA(rules, p);
    GenerateRuleB(rules, q);
    assert Run(rules, "AB", 2, Turtle(p, [])) == Run(rules, "B", 2, Turtle(q, []));
    assert Run(rules, "B", 2, Turtle(q, [])) == Run(rules, "", 2, Turtle(q, []));
  }

  /** The const rule tables are the rule tables the lemmas above speak of. */
  lemma RuleTables()
    ensures IsMultipleRules(MULTIPLE_RULES) && IsGenerateRules(GENERATE_RULES)
  {
  }

  /** testStatePushPop: the bracketed steps are undone, so "AXYZ[XYZ]" ends at (1, 1, 1). */
  method StatePushPop(gen: int) returns (pos: Pos)
    requires gen >= 1
    ensures pos == Pos(1, 1, 1)
  {
    var state := new LSystemState();
    Expand(state, map[], "AXYZ[XYZ]", gen);
    var origin := Turtle(Pos(0, 0, 0), []);
    Forward(map[], gen, Pos(0, 0, 0));
    assert "AXYZ[XYZ]" == "AXYZ" + ("[" + "XYZ" + "]");
    RunAppend(map[], "AXYZ", "[" + "XYZ" + "]", gen, origin);
    BracketRestores(map[], "XYZ", gen, Turtle(Pos(1, 1, 1), []));
    pos := state.pos;
  }

  /** testStatePushPopPositionChangeToInit: "AXYZ[XYZ]xyz" returns to the origin. */
  method StatePushPopPositionChangeToInit(gen: int) returns (pos: Pos)
    requires gen >= 1
    ensures pos == Pos(0, 0, 0)
  {
    var state := new LSystemState();
    Expand(state, map[], "AXYZ[XYZ]xyz", gen);
    var origin := Turtle(Pos(0, 0, 0), []);
    Forward(map[], gen, Pos(0, 0, 0));
    assert "AXYZ[XYZ]xyz" == "AXYZ" + (("[" + "XYZ" + "]") + "xyz");
    RunAppend(map[], "AXYZ", ("[" + "XYZ" + "]") + "xyz", gen, origin);
    RunAppend(map[], "[" + "XYZ" + "]", "xyz", gen, Turtle(Pos(1, 1, 1), []));
    BracketRestores(map[], "XYZ", gen, Turtle(Pos(1, 1, 1), []));
    Backward(map[], gen, Pos(1, 1, 1));
    pos := state.pos;
  }

  /** testMultipleStates: with A expanding to the axiom and two generations the cursor ends at (0, 12, 0). */
  method MultipleStates() returns (pos: Pos)
    ensures pos == Pos(0, 12, 0)
  {
    var state := new LSystemState();
    RuleTables();
    MultipleOuter(MULTIPLE_RULES, Pos(0, 0, 0));
    Expand(state, MULTIPLE_RULES, "AY[xYA]AY[XYA]AY", 2);
    pos := state.pos;
  }

  /** testStatePositionChangeTwice: "AXYZXYZ" ends at (2, 2, 2). */
  method StatePositionChangeTwice(gen: int) returns (pos: Pos)
    requires gen >= 1
    ensures pos == Pos(2, 2, 2)
  {
    var state := new LSystemState();
    Expand(state, map[], "AXYZXYZ", gen);
    Forward(map[], gen, Pos(0, 0, 0));
    ForwardAgain(map[], gen, Pos(1, 1, 1));
    assert "AXYZXYZ" == "AXYZ" + "XYZ";
    RunAppend(map[], "AXYZ", "XYZ", gen, Turtle(Pos(0, 0, 0), []));
    pos := state.pos;
  }

  /**
   * testGenerateVoxels: expanding "AB" with rules that refer to each other
   * comes to an end; in this model the cursor ends at (3, 3, 2).
   */
  method GenerateVoxels() returns (pos: Pos)
    ensures pos == Pos(3, 3, 2)
  {
    var state := new LSystemState();
    RuleTables();
    GenerateAxiom(GENERATE_RULES, Pos(0, 0, 0));
    Expand(state, GENERATE_RULES, "AB", 2);
    pos := state.pos;
  }
}
