/**
 * The L-system turtle: a string of symbols moves a cursor through the
 * voxel grid. X, Y and Z step one voxel up their axis and x, y and z one
 * voxel down; `[` saves the cursor and `]` returns to the last saved one;
 * a symbol with a production rule first expands its rule with one
 * generation less. A string is only interpreted while generations remain.
 *
 * Placing the voxels of voxel symbols and the random generator are not
 * part of this model; only the cursor is.
 */
module LSystem {
  import opened Voxel

  /** The cursor and the saved cursors of one expansion, the most recent first. */
  datatype Turtle = Turtle(pos: Pos, stack: seq<Pos>)

  /** The effect of one symbol on the cursor and the saved cursors; other symbols leave both alone. */
  function Step(c: char, t: Turtle): Turtle {
    match c
    case 'X' => t.(pos := t.pos.Add(Pos(1, 0, 0)))
    case 'Y' => t.(pos := t.pos.Add(Pos(0, 1, 0)))
    case 'Z' => t.(pos := t.pos.Add(Pos(0, 0, 1)))
    case 'x' => t.(pos := t.pos.Add(Pos(-1, 0, 0)))
    case 'y' => t.(pos := t.pos.Add(Pos(0, -1, 0)))
    case 'z' => t.(pos := t.pos.Add(Pos(0, 0, -1)))
    case '[' => Turtle(t.pos, [t.pos] + t.stack)
    case ']' => if t.stack == [] then t else Turtle(t.stack[0], t.stack[1..])
    case _ => t
  }

  /**
   * Interpreting s with gen generations left: each symbol first expands its
   * rule, if it has one, with gen - 1 generations and saved cursors of its
   * own, then takes its own step.
   */
  function Run(rules: map<char, string>, s: string, gen: int, t: Turtle): Turtle
    decreases if gen > 0 then gen else 0, |s|
  {
    if gen <= 0 || s == [] then t
    else
      var c := s[0];
      var moved := if c in rules then t.(pos := Run(rules, rules[c], gen - 1, Turtle(t.pos, [])).pos) else t;
      Run(rules, s[1..], gen, Step(c, moved))
  }

  /** expand: where the cursor ends after interpreting s from pos. */
  function Expansion(rules: map<char, string>, s: string, gen: int, pos: Pos): Pos {
    Run(rules, s, gen, Turtle(pos, [])).pos
  }

  /** Interpreting s and then u is interpreting s + u. */
  lemma {:induction false} RunAppend(rules: map<char, string>, s: string, u: string, gen: int, t: Turtle)
    ensures Run(rules, s + u, gen, t) == Run(rules, u, gen, Run(rules, s, gen, t))
    decreases |s|
  {
    if gen > 0 && s != [] {
      var c := s[0];
      var moved := if c in rules then t.(pos := Run(rules, rules[c], gen - 1, Turtle(t.pos, [])).pos) else t;
      assert (s + u)[0] == c && (s + u)[1..] == s[1..] + u;
      RunAppend(rules, s[1..], u, gen, Step(c, moved));
    } else if gen > 0 {
      assert s + u == u;
    }
  }

  /** How many more cursors a symbol saves than it restores. */
  function Delta(c: char): int {
    if c == '[' then 1 else if c == ']' then -1 else 0
  }

  /** The net number of saved cursors s leaves behind. */
  function Depth(s: string): int {
    if s == [] then 0 else Delta(s[0]) + Depth(s[1..])
  }

  /** Starting with d cursors saved, s never restores more cursors than are saved. */
  predicate NeverUnder(s: string, d: int) {
    d >= 0 && (s == [] || NeverUnder(s[1..], d + Delta(s[0])))
  }

  /**
   * A string that never restores below the d cursors it started with keeps
   * the saved cursors underneath them untouched, and leaves d + Depth(s)
   * cursors above them.
   */
  lemma {:induction false} KeepsBase(rules: map<char, string>, s: string, gen: int, pos: Pos, front: seq<Pos>, base: seq<Pos>)
    requires gen > 0
    requires NeverUnder(s, |front|)
    ensures exists top :: Run(rules, s, gen, Turtle(pos, front + base)).stack == top + base && |top| == |front| + Depth(s)
    decreases |s|
  {
    var t := Turtle(pos, front + base);
    if s == [] {
      assert Run(rules, s, gen, t).stack == front + base;
    } else {
      var c := s[0];
      var moved := if c in rules then t.(pos := Run(rules, rules[c], gen - 1, Turtle(t.pos, [])).pos) else t;
      assert moved.stack == front + base;
      var next := Step(c, moved);
      var front' := if c == '[' then [moved.pos] + front else if c == ']' then front[1..] else front;
      if c == ']' {
        assert |front| >= 1;
        assert (front + base)[1..] == front[1..] + base;
      } else if c == '[' {
        assert [moved.pos] + (front + base) == ([moved.pos] + front) + base;
      }
      assert next.stack == front' + base;
      KeepsBase(rules, s[1..], gen, next.pos, front', base);
    }
  }

  /**
   * `[` t `]` returns the cursor to where it was, with the same saved
   * cursors, whenever t is balanced and the brackets have no rules.
   */
  lemma BracketRestores(rules: map<char, string>, s: string, gen: int, t: Turtle)
    requires gen > 0
    requires '[' !in rules && ']' !in rules
    requires NeverUnder(s, 0) && Depth(s) == 0
    ensures Run(rules, "[" + s + "]", gen, t) == t
  {
    var pushed := Turtle(t.pos, [t.pos] + t.stack);
    RunAppend(rules, "[" + s, "]", gen, t);
    RunAppend(rules, "[", s, gen, t);
    assert Run(rules, "[", gen, t) == Run(rules, [], gen, pushed);
    KeepsBase(rules, s, gen, t.pos, [], [t.pos] + t.stack);
    var inner := Run(rules, s, gen, pushed);
    assert [] + ([t.pos] + t.stack) == [t.pos] + t.stack;
    var top :| inner.stack == top + ([t.pos] + t.stack) && |top| == 0;
    assert inner.stack == [t.pos] + t.stack;
    assert Run(rules, "]", gen, inner) == Run(rules, [], gen, Turtle(t.pos, t.stack));
  }

  /** With no generations left nothing moves. */
  lemma NoGenerations(rules: map<char, string>, s: string, gen: int, pos: Pos)
    requires gen <= 0
    ensures Expansion(rules, s, gen, pos) == pos
  {
  }

  /** The turtle state expand moves, passed by reference. */
  class LSystemState {
    var pos: Pos

    constructor()
      ensures pos == Pos(0, 0, 0)
    {
      pos := Pos(0, 0, 0);
    }
  }

  /**
   * expand: walks s symbol by symbol, recursing into the rules of symbols
   * that have one, with a stack of saved cursors local to this call.
   */
  method Expand(state: LSystemState, rules: map<char, string>, s: string, gen: int)
    modifies state
    decreases if gen > 0 then gen else 0
    ensures state.pos == Expansion(rules, s, gen, old(state.pos))
  {
    if gen <= 0 {
      return;
    }
    var stack: seq<Pos> := [];
    var i := 0;
    while i < |s|
      invariant 0 <= i <= |s|
      invariant Run(rules, s, gen, Turtle(old(state.pos), [])) == Run(rules, s[i..], gen, Turtle(state.pos, stack))
    {
      var c := s[i];
      ghost var before := Turtle(state.pos, stack);
      assert s[i..][0] == c && s[i..][1..] == s[i + 1..];
      if c in rules {
        Expand(state, rules, rules[c], gen - 1);
      }
      if c == 'X' {
        state.pos := state.pos.Add(Pos(1, 0, 0));
      } else if c == 'Y' {
        state.pos := state.pos.Add(Pos(0, 1, 0));
      } else if c == 'Z' {
        state.pos := state.pos.Add(Pos(0, 0, 1));
      } else if c == 'x' {
        state.pos := state.pos.Add(Pos(-1, 0, 0));
      } else if c == 'y' {
        state.pos := state.pos.Add(Pos(0, -1, 0));
      } else if c == 'z' {
        state.pos := state.pos.Add(Pos(0, 0, -1));
      } else if c == '[' {
        stack := [state.pos] + stack;
      } else if c == ']' {
        if stack != [] {
          state.pos := stack[0];
          stack := stack[1..];
        }
      }
      i := i + 1;
    }
  }
}
