/**
 * logic.py: truth tables. Variables form a set and expressions a list; the
 * table is a header row followed by one row per True/False assignment, in
 * `itertools.product([True, False])` order, each with the value of every
 * expression. An expression is evaluated by replacing each variable's name
 * with "True" or "False" in its text and handing the result to Python's
 * `eval`, which the model takes as a parameter.
 */
module Logic {
  import opened Orderings
  import opened Powers
  import opened Strings

  /** `str(True)` and `str(False)`. */
  function BoolText(b: bool): string {
    if b then "True" else "False"
  }

  /** The text inserted before every character and at the end: `str.replace` with an empty pattern. */
  function InsertEverywhere(s: string, replacement: string): string {
    if s == [] then replacement else replacement + [s[0]] + InsertEverywhere(s[1..], replacement)
  }

  /**
   * `s.replace(pattern, replacement)`: every non-overlapping occurrence,
   * scanning left to right. A (non-empty) pattern that does not occur leaves
   * the text as it is.
   */
  function Replace(s: string, pattern: string, replacement: string): (r: string)
    ensures pattern != [] && !Occurs(pattern, s) ==> r == s
    decreases |s|
  {
    if pattern == [] then InsertEverywhere(s, replacement)
    else if |s| < |pattern| then s
    else if s[..|pattern|] == pattern then replacement + Replace(s[|pattern|..], pattern, replacement)
    else [s[0]] + Replace(s[1..], pattern, replacement)
  }

  /** Replacing a pattern by itself leaves the text as it is. */
  lemma {:induction false} ReplaceBySelf(s: string, pattern: string)
    ensures Replace(s, pattern, pattern) == s
    decreases |s|
  {
    if pattern == [] {
      InsertNothing(s);
    } else if |s| >= |pattern| {
      if s[..|pattern|] == pattern {
        ReplaceBySelf(s[|pattern|..], pattern);
        assert s == s[..|pattern|] + s[|pattern|..];
      } else {
        ReplaceBySelf(s[1..], pattern);
      }
    }
  }

  lemma {:induction false} InsertNothing(s: string)
    ensures InsertEverywhere(s, "") == s
  {
    if s != [] {
      InsertNothing(s[1..]);
    }
  }

  /**
   * The expression after the substitution loop of `evaluate_expression`, one
   * pair at a time in order. An expression that mentions none of the
   * (non-empty) variable names reaches `eval` untouched.
   */
  function Substituted(expression: string, values: seq<(string, bool)>): (r: string)
    ensures Unmentioned(expression, values) ==> r == expression
  {
    if values == [] then expression
    else
      var front := values[..|values| - 1];
      var (name, value) := values[|values| - 1];
      assert Unmentioned(expression, values) ==> Unmentioned(expression, front) by {
        assert forall i :: 0 <= i < |front| ==> front[i] == values[i];
      }
      Replace(Substituted(expression, front), name, BoolText(value))
  }

  /** None of the variable names is empty or occurs in the expression. */
  predicate Unmentioned(expression: string, values: seq<(string, bool)>) {
    forall i :: 0 <= i < |values| ==> values[i].0 != [] && !Occurs(values[i].0, expression)
  }

  lemma DemoFirstPass()
    ensures Replace("not P", "P", "True") == "not True"
  {
    assert Replace("P", "P", "True") == "True";
    assert Replace(" P", "P", "True") == " True";
    assert Replace("t P", "P", "True") == "t True";
    assert Replace("ot P", "P", "True") == "ot True";
  }

  lemma DemoSecondPass()
    ensures Replace("not True", "Q", "False") == "not True"
  {
    OccursChar('Q', "not True");
  }

  /** The source's demonstration: "not P" with P true and Q false becomes "not True". */
  lemma SubstitutedDemo()
    ensures Substituted("not P", [("P", true), ("Q", false)]) == "not True"
  {
    var values := [("P", true), ("Q", false)];
    assert values[..1] == [("P", true)] && values[..1][..0] == [];
    DemoFirstPass();
    DemoSecondPass();
  }

  /**
   * The substitution is textual, not by variable: after "a" becomes "True", a
   * variable named "e" is replaced inside that text, so `eval` receives "TruFalse".
   */
  lemma SubstitutionIsTextual()
    ensures Substituted("a", [("a", true), ("e", false)]) == "TruFalse"
  {
    var values := [("a", true), ("e", false)];
    assert values[..1] == [("a", true)] && values[..1][..0] == [];
    assert Replace("a", "a", "True") == "True";
    assert Replace("e", "e", "False") == "False";
    assert Replace("ue", "e", "False") == "uFalse";
    assert Replace("rue", "e", "False") == "ruFalse";
    assert Replace("True", "e", "False") == "TruFalse";
  }

  /**
   * Row k of `itertools.product([True, False], repeat=n)`: the first half of
   * the rows starts with True, the second half with False, and each half
   * continues with the rows for n - 1 values.
   */
  function Product(n: nat, k: nat): (row: seq<bool>)
    requires k < Pow2(n)
    ensures |row| == n
  {
    if n == 0 then []
    else if k < Pow2(n - 1) then [true] + Product(n - 1, k)
    else [false] + Product(n - 1, k - Pow2(n - 1))
  }

  /** `itertools.product([True, False], repeat=n)`: all 2^n rows of n values each. */
  function Assignments(n: nat): (r: seq<seq<bool>>)
    ensures |r| == Pow2(n)
    ensures forall k :: 0 <= k < |r| ==> |r[k]| == n
  {
    seq(Pow2(n), k requires 0 <= k < Pow2(n) => Product(n, k))
  }

  /**
   * `a` comes before `b` in product order: at the first position where they
   * differ, `a` has True and `b` False.
   */
  predicate ProductBefore(a: seq<bool>, b: seq<bool>) {
    a != [] && b != [] && ((a[0] && !b[0]) || (a[0] == b[0] && ProductBefore(a[1..], b[1..])))
  }

  /** Rows that start True come before rows that start False. */
  lemma HeadBefore(a: seq<bool>, b: seq<bool>)
    ensures ProductBefore([true] + a, [false] + b)
  {
  }

  /** A common first value keeps the order of the rest. */
  lemma ConsBefore(x: bool, a: seq<bool>, b: seq<bool>)
    requires ProductBefore(a, b)
    ensures ProductBefore([x] + a, [x] + b)
  {
    assert ([x] + a)[1..] == a && ([x] + b)[1..] == b;
  }

  /** Rows in product order are different rows. */
  lemma {:induction false} BeforeDistinct(a: seq<bool>, b: seq<bool>)
    requires ProductBefore(a, b)
    ensures a != b
  {
    if a[0] == b[0] {
      BeforeDistinct(a[1..], b[1..]);
    }
  }

  lemma {:induction false} ProductInOrder(n: nat, k: nat, j: nat)
    requires k < j < Pow2(n)
    ensures ProductBefore(Product(n, k), Product(n, j))
  {
    assert Pow2(n) == if n == 0 then 1 else 2 * Pow2(n - 1);
    var half := Pow2(n - 1);
    if k < half && half <= j {
      HeadBefore(Product(n - 1, k), Product(n - 1, j - half));
    } else if j < half {
      ProductInOrder(n - 1, k, j);
      ConsBefore(true, Product(n - 1, k), Product(n - 1, j));
    } else {
      ProductInOrder(n - 1, k - half, j - half);
      ConsBefore(false, Product(n - 1, k - half), Product(n - 1, j - half));
    }
  }

  /**
   * The rows come in `itertools.product([True, False])` order: every earlier
   * row precedes every later one, so no row is repeated.
   */
  lemma AssignmentsInProductOrder(n: nat, k: nat, j: nat)
    requires k < j < Pow2(n)
    ensures ProductBefore(Assignments(n)[k], Assignments(n)[j])
    ensures Assignments(n)[k] != Assignments(n)[j]
  {
    ProductInOrder(n, k, j);
    BeforeDistinct(Product(n, k), Product(n, j));
  }

  lemma {:induction false} ProductComplete(a: seq<bool>) returns (k: nat)
    ensures k < Pow2(|a|) && Product(|a|, k) == a
  {
    if a == [] {
      k := 0;
    } else {
      var n := |a|;
      var k' := ProductComplete(a[1..]);
      assert Pow2(n) == 2 * Pow2(n - 1);
      k := if a[0] then k' else Pow2(n - 1) + k';
      assert a == [a[0]] + a[1..];
    }
  }

  /** Every row of |a| truth values is one of the rows. */
  lemma AssignmentsComplete(a: seq<bool>)
    ensures a in Assignments(|a|)
  {
    var k := ProductComplete(a);
    assert Assignments(|a|)[k] == a;
  }

  /** Every value of `row` is `b`. */
  predicate Constant(row: seq<bool>, b: bool) {
    forall i :: 0 <= i < |row| ==> row[i] == b
  }

  lemma ConsConstant(b: bool, row: seq<bool>)
    requires Constant(row, b)
    ensures Constant([b] + row, b)
  {
  }

  /** The first row is all True. */
  lemma {:induction false} FirstRowAllTrue(n: nat)
    ensures Constant(Assignments(n)[0], true)
  {
    FirstProductAllTrue(n);
  }

  lemma {:induction false} FirstProductAllTrue(n: nat)
    ensures Constant(Product(n, 0), true)
  {
    if n > 0 {
      FirstProductAllTrue(n - 1);
      ConsConstant(true, Product(n - 1, 0));
    }
  }

  /** The last row is all False. */
  lemma LastRowAllFalse(n: nat)
    ensures Constant(Assignments(n)[Pow2(n) - 1], false)
  {
    LastProductAllFalse(n);
  }

  lemma {:induction false} LastProductAllFalse(n: nat)
    ensures Constant(Product(n, Pow2(n) - 1), false)
  {
    if n > 0 {
      var half := Pow2(n - 1);
      assert Pow2(n) - 1 == half + (half - 1);
      LastProductAllFalse(n - 1);
      ConsConstant(false, Product(n - 1, half - 1));
    }
  }

  /** A cell of the table: a header or a truth value. */
  datatype Cell = Label(text: string) | Truth(value: bool)

  /** What `generate_truth_table` returns: the message string or the table. */
  datatype TableResult = Message(text: string) | Table(rows: seq<seq<Cell>>)

  const NothingToEvaluate: string := "No variables or expressions to evaluate."

  function Labels(names: seq<string>): (r: seq<Cell>)
    ensures |r| == |names| && forall i :: 0 <= i < |names| ==> r[i] == Label(names[i])
  {
    seq(|names|, i requires 0 <= i < |names| => Label(names[i]))
  }

  function Truths(values: seq<bool>): (r: seq<Cell>)
    ensures |r| == |values| && forall i :: 0 <= i < |values| ==> r[i] == Truth(values[i])
  {
    seq(|values|, i requires 0 <= i < |values| => Truth(values[i]))
  }

  /** `dict(zip(variables, values))`, kept in iteration order. */
  function Zip(order: seq<string>, values: seq<bool>): (r: seq<(string, bool)>)
    requires |order| == |values|
    ensures |r| == |order| && forall i :: 0 <= i < |order| ==> r[i] == (order[i], values[i])
  {
    seq(|order|, i requires 0 <= i < |order| => (order[i], values[i]))
  }

  /**
   * The value dictionary gives each variable exactly one value: with the
   * variables distinct, the only pair keyed by the i-th variable is the i-th
   * pair, and it carries the i-th value.
   */
  lemma ZipKeys(order: seq<string>, values: seq<bool>, i: nat)
    requires |order| == |values| && Distinct(order) && i < |order|
    ensures var pairs := Zip(order, values);
            forall j :: 0 <= j < |pairs| && pairs[j].0 == order[i] ==> j == i && pairs[j].1 == values[i]
  {
  }

  /** One data row: the assignment, then each expression's value under it. */
  function Row(order: seq<string>, values: seq<bool>, expressions: seq<string>, eval: string -> bool): seq<Cell>
    requires |order| == |values|
  {
    Truths(values) + Results(order, values, expressions, eval)
  }

  /** The expressions' part of a data row: each expression's value under the assignment, in order. */
  function Results(order: seq<string>, values: seq<bool>, expressions: seq<string>, eval: string -> bool): (r: seq<Cell>)
    requires |order| == |values|
    ensures |r| == |expressions|
    ensures forall j :: 0 <= j < |expressions| ==> r[j] == Evaluated(order, values, expressions[j], eval)
  {
    seq(|expressions|, j requires 0 <= j < |expressions| => Evaluated(order, values, expressions[j], eval))
  }

  /** One expression's cell: `eval` of its text with the variables' values substituted. */
  function Evaluated(order: seq<string>, values: seq<bool>, expression: string, eval: string -> bool): Cell
    requires |order| == |values|
  {
    Truth(eval(Substituted(expression, Zip(order, values))))
  }

  /** The table for variables iterated in `order`: the header row, then a row per assignment. */
  function TruthTable(order: seq<string>, expressions: seq<string>, eval: string -> bool): (r: seq<seq<Cell>>)
    ensures |r| == 1 + Pow2(|order|)
    ensures r[0] == Labels(order) + Labels(expressions)
  {
    var assignments := Assignments(|order|);
    [Labels(order) + Labels(expressions)] +
    seq(|assignments|, k requires 0 <= k < |assignments| => Row(order, assignments[k], expressions, eval))
  }

  /**
   * The shape of the table: 1 + 2^n rows; the header names the variables then
   * the expressions; data row k + 1 holds the k-th assignment and then, for each
   * expression in order, `eval` of its substituted text.
   */
  lemma TableShape(order: seq<string>, expressions: seq<string>, eval: string -> bool, k: nat)
    requires k < Pow2(|order|)
    ensures var table := TruthTable(order, expressions, eval);
            var n, m := |order|, |expressions|;
            |table| == 1 + Pow2(n) &&
            table[0] == Labels(order) + Labels(expressions) &&
            |table[k + 1]| == n + m &&
            table[k + 1][..n] == Truths(Assignments(n)[k]) &&
            forall j :: 0 <= j < m ==>
              table[k + 1][n + j] == Evaluated(order, Assignments(n)[k], expressions[j], eval)
  {
    TableRowAt(order, expressions, eval, k);
    RowShape(order, Assignments(|order|)[k], expressions, eval);
  }

  /** Data row k + 1 of the table is the row for the k-th assignment. */
  lemma TableRowAt(order: seq<string>, expressions: seq<string>, eval: string -> bool, k: nat)
    requires k < Pow2(|order|)
    ensures TruthTable(order, expressions, eval)[k + 1] == Row(order, Assignments(|order|)[k], expressions, eval)
  {
  }

  /** A data row holds the assignment, then each expression's value under it. */
  lemma RowShape(order: seq<string>, values: seq<bool>, expressions: seq<string>, eval: string -> bool)
    requires |order| == |values|
    ensures var row, n := Row(order, values, expressions, eval), |order|;
            |row| == n + |expressions| &&
            row[..n] == Truths(values) &&
            forall j :: 0 <= j < |expressions| ==>
              row[n + j] == Evaluated(order, values, expressions[j], eval)
  {
    var row, truths := Row(order, values, expressions, eval), Truths(values);
    var results := Results(order, values, expressions, eval);
    assert row == truths + results;
    FrontOfJoin(truths, results);
    forall j | 0 <= j < |expressions|
      ensures row[|order| + j] == Evaluated(order, values, expressions[j], eval)
    {
      assert row[|truths| + j] == results[j];
    }
  }

  lemma FrontOfJoin<T>(front: seq<T>, back: seq<T>)
    ensures (front + back)[..|front|] == front
  {
  }

  class LogicTables {
    var variables: set<string>
    var expressions: seq<string>

    /** `__init__`: no variables and no expressions. */
    constructor()
      ensures variables == {} && expressions == []
    {
      variables := {};
      expressions := [];
    }

    /** `add_variable`: set insertion, so adding a variable twice changes nothing. */
    method AddVariable(variable: string)
      modifies this`variables
      ensures variables == old(variables) + {variable}
      ensures variable in old(variables) ==> variables == old(variables)
    {
      variables := variables + {variable};
    }

    /** `add_expression`: append, keeping duplicates. */
    method AddExpression(expression: string)
      modifies this`expressions
      ensures expressions == old(expressions) + [expression]
    {
      expressions := expressions + [expression];
    }

    /** `evaluate_expression`: replace each variable's name by its value's text, in order, then `eval`. */
    method EvaluateExpression(expression: string, values: seq<(string, bool)>, eval: string -> bool) returns (r: bool)
      ensures r == eval(Substituted(expression, values))
    {
      var text := expression;
      for i := 0 to |values|
        invariant text == Substituted(expression, values[..i])
      {
        assert values[..i + 1][..i] == values[..i];
        text := Replace(text, values[i].0, BoolText(values[i].1));
      }
      assert values[..|values|] == values;
      r := eval(text);
    }

    /**
     * `generate_truth_table`: the message when there is nothing to evaluate,
     * otherwise the table for the order in which the variable set is iterated
     * (the same order for the header and for `zip`).
     */
    method GenerateTruthTable(eval: string -> bool) returns (order: seq<string>, result: TableResult)
      ensures variables == {} || expressions == [] ==> result == Message(NothingToEvaluate)
      ensures variables != {} && expressions != [] ==>
                IsOrdering(order, variables) && result == Table(TruthTable(order, expressions, eval))
    {
      if variables == {} || expressions == [] {
        return [], Message(NothingToEvaluate);
      }
      order := Enumerate(variables);
      var table := TableRows(order, eval);
      return order, Table(table);
    }

    /** The header row, then the loop of `generate_truth_table` over the assignments. */
    method TableRows(order: seq<string>, eval: string -> bool) returns (table: seq<seq<Cell>>)
      ensures table == TruthTable(order, expressions, eval)
    {
      var assignments := Assignments(|order|);
      table := [Labels(order) + Labels(expressions)];
      ghost var full := TruthTable(order, expressions, eval);
      for k := 0 to |assignments|
        invariant table == full[..k + 1]
      {
        var row := TableRow(order, assignments[k], eval);
        TableRowAt(order, expressions, eval, k);
        assert full[..k + 2] == full[..k + 1] + [row];
        table := table + [row];
      }
      assert full[..|assignments| + 1] == full;
    }

    /** The body of the loop of `generate_truth_table`: the assignment, then each expression's value under it. */
    method TableRow(order: seq<string>, values: seq<bool>, eval: string -> bool) returns (row: seq<Cell>)
      requires |order| == |values|
      ensures row == Row(order, values, expressions, eval)
    {
      var valueDict := Zip(order, values);
      row := Truths(values);
      for j := 0 to |expressions|
        invariant row == Row(order, values, expressions, eval)[..|values| + j]
      {
        var value := EvaluateExpression(expressions[j], valueDict, eval);
        row := row + [Truth(value)];
      }
    }
  }
}
