/** The Levenshtein recurrence that both street-search scripts fill into a table.
    Dist(a, b, i, j) is the cell for the prefixes a[..i] and b[..j]: the source's
    matrix[j][i]. */
module EditDistance {

  function Min3(x: nat, y: nat, z: nat): (m: nat)
    ensures m <= x && m <= y && m <= z
    ensures m == x || m == y || m == z
  {
    if x <= y && x <= z then x else if y <= z then y else z
  }

  /** 0 when the last characters of the two prefixes agree, 1 otherwise. */
  function Indicator(a: string, b: string, i: nat, j: nat): nat
    requires 1 <= i <= |a| && 1 <= j <= |b|
  {
    if a[i - 1] == b[j - 1] then 0 else 1
  }

  function Dist(a: string, b: string, i: nat, j: nat): nat
    requires i <= |a| && j <= |b|
    decreases i + j
  {
    if j == 0 then i
    else if i == 0 then j
    else Min3(Dist(a, b, i - 1, j) + 1, Dist(a, b, i, j - 1) + 1, Dist(a, b, i - 1, j - 1) + Indicator(a, b, i, j))
  }

  /** One cell of the table from its left, upper and upper-left neighbours. */
  lemma DistStep(a: string, b: string, i: nat, j: nat)
    requires 1 <= i <= |a| && 1 <= j <= |b|
    ensures Dist(a, b, i, j) == Min3(Dist(a, b, i - 1, j) + 1, Dist(a, b, i, j - 1) + 1,
                                     Dist(a, b, i - 1, j - 1) + (if a[i - 1] == b[j - 1] then 0 else 1))
  {
  }

  /** The edit distance between whole strings: the bottom-right cell. */
  function Levenshtein(a: string, b: string): nat
  {
    Dist(a, b, |a|, |b|)
  }

  /** Row 0 and column 0 of the table: a prefix against the empty prefix costs its length. */
  lemma {:induction false} DistToEmpty(a: string)
    ensures Levenshtein(a, []) == |a| && Levenshtein([], a) == |a|
  {
  }

  /** The diagonal of a string against itself is all zeroes. */
  lemma {:induction false} DistDiagonal(a: string, i: nat)
    requires i <= |a|
    ensures Dist(a, a, i, i) == 0
  {
    if i > 0 {
      DistDiagonal(a, i - 1);
    }
  }

  lemma {:induction false} DistSelf(a: string)
    ensures Levenshtein(a, a) == 0
  {
    DistDiagonal(a, |a|);
  }

  /** Every cell is at most the longer of the two prefix lengths. */
  lemma {:induction false} DistUpper(a: string, b: string, i: nat, j: nat)
    requires i <= |a| && j <= |b|
    ensures Dist(a, b, i, j) <= if i <= j then j else i
    decreases i + j
  {
    if i > 0 && j > 0 {
      DistUpper(a, b, i - 1, j - 1);
    }
  }

  /** Every cell is at least the difference of the two prefix lengths. */
  lemma {:induction false} DistLower(a: string, b: string, i: nat, j: nat)
    requires i <= |a| && j <= |b|
    ensures Dist(a, b, i, j) >= if i <= j then j - i else i - j
    decreases i + j
  {
    if i > 0 && j > 0 {
      DistLower(a, b, i - 1, j);
      DistLower(a, b, i, j - 1);
      DistLower(a, b, i - 1, j - 1);
    }
  }

  lemma {:induction false} LevenshteinBounds(a: string, b: string)
    ensures Levenshtein(a, b) <= if |a| <= |b| then |b| else |a|
    ensures Levenshtein(a, b) >= if |a| <= |b| then |b| - |a| else |a| - |b|
  {
    DistUpper(a, b, |a|, |b|);
    DistLower(a, b, |a|, |b|);
  }

  /** 1 - distance / longer length, the similarity both search scripts compute when
      at least one string is non-empty: it lies in [0, 1] and is 1 only for equal strings. */
  function Similarity(a: string, b: string): (s: real)
    requires a != [] || b != []
    ensures 0.0 <= s <= 1.0
    ensures s == 1.0 <==> a == b
  {
    var m: nat := if |a| <= |b| then |b| else |a|;
    LevenshteinBounds(a, b);
    LevenshteinZeroIff(a, b);
    RatioBounds(Levenshtein(a, b), m);
    1.0 - (Levenshtein(a, b) as real) / (m as real)
  }

  lemma RatioBounds(d: nat, m: nat)
    requires 1 <= m && d <= m
    ensures 0.0 <= 1.0 - (d as real) / (m as real) <= 1.0
    ensures 1.0 - (d as real) / (m as real) == 1.0 <==> d == 0
  {
    var x := (d as real) / (m as real);
    assert x * (m as real) == d as real;
  }

  /** Swapping the strings transposes the table. */
  lemma {:induction false} DistSymmetric(a: string, b: string, i: nat, j: nat)
    requires i <= |a| && j <= |b|
    ensures Dist(a, b, i, j) == Dist(b, a, j, i)
    decreases i + j
  {
    if i > 0 && j > 0 {
      DistSymmetric(a, b, i - 1, j);
      DistSymmetric(a, b, i, j - 1);
      DistSymmetric(a, b, i - 1, j - 1);
      assert Indicator(a, b, i, j) == Indicator(b, a, j, i);
      var x, y, z := Dist(a, b, i - 1, j) + 1, Dist(a, b, i, j - 1) + 1, Dist(a, b, i - 1, j - 1) + Indicator(a, b, i, j);
      assert Dist(a, b, i, j) == Min3(x, y, z);
      assert Dist(b, a, j, i) == Min3(y, x, z);
    }
  }

  /** A zero cell means the two prefixes are the same string. */
  lemma {:induction false} DistZero(a: string, b: string, i: nat, j: nat)
    requires i <= |a| && j <= |b|
    requires Dist(a, b, i, j) == 0
    ensures i == j && a[..i] == b[..j]
    decreases i + j
  {
    DistLower(a, b, i, j);
    if i > 0 && j > 0 {
      DistStep(a, b, i, j);
      assert Dist(a, b, i - 1, j - 1) == 0 && a[i - 1] == b[j - 1];
      DistZero(a, b, i - 1, j - 1);
      assert a[..i] == a[..i - 1] + [a[i - 1]];
      assert b[..j] == b[..j - 1] + [b[j - 1]];
    }
  }

  /** The distance is zero exactly when the strings are equal. */
  lemma {:induction false} LevenshteinZeroIff(a: string, b: string)
    ensures Levenshtein(a, b) == 0 <==> a == b
  {
    if Levenshtein(a, b) == 0 {
      DistZero(a, b, |a|, |b|);
      assert a == a[..|a|] && b == b[..|b|];
    }
    if a == b {
      DistSelf(a);
    }
  }

  /** Rows 0 .. j-1 of the table hold the recurrence. */
  ghost predicate RowsDone(matrix: array2<nat>, a: string, b: string, j: nat)
    reads matrix
    requires matrix.Length0 == |b| + 1 && matrix.Length1 == |a| + 1 && j <= |b| + 1
  {
    forall jj, ii {:trigger matrix[jj, ii]} :: 0 <= jj < j && 0 <= ii <= |a| ==> matrix[jj, ii] == Dist(a, b, ii, jj)
  }

  /** The inner loop: row j of the table, from the row above it. */
  method FillRow(matrix: array2<nat>, a: string, b: string, j: nat)
    requires matrix.Length0 == |b| + 1 && matrix.Length1 == |a| + 1 && 1 <= j <= |b|
    requires RowsDone(matrix, a, b, j) && matrix[j, 0] == j
    modifies matrix
    ensures RowsDone(matrix, a, b, j + 1)
    ensures forall jj :: j < jj <= |b| ==> matrix[jj, 0] == old(matrix[jj, 0])
  {
    var i := 1;
    while i <= |a|
      invariant 1 <= i <= |a| + 1
      invariant RowsDone(matrix, a, b, j)
      invariant forall ii {:trigger matrix[j, ii]} :: 0 <= ii < i ==> matrix[j, ii] == Dist(a, b, ii, j)
      invariant forall jj :: j < jj <= |b| ==> matrix[jj, 0] == old(matrix[jj, 0])
    {
      FillCell(matrix, a, b, i, j);
      i := i + 1;
    }
  }

  /** One cell: the cheapest of deleting, inserting and substituting. */
  method FillCell(matrix: array2<nat>, a: string, b: string, i: nat, j: nat)
    requires matrix.Length0 == |b| + 1 && matrix.Length1 == |a| + 1 && 1 <= j <= |b| && 1 <= i <= |a|
    requires matrix[j, i - 1] == Dist(a, b, i - 1, j) && matrix[j - 1, i] == Dist(a, b, i, j - 1)
    requires matrix[j - 1, i - 1] == Dist(a, b, i - 1, j - 1)
    modifies matrix
    ensures matrix[j, i] == Dist(a, b, i, j)
    ensures forall jj, ii {:trigger matrix[jj, ii]} :: 0 <= jj <= |b| && 0 <= ii <= |a| && (jj != j || ii != i) ==> matrix[jj, ii] == old(matrix[jj, ii])
  {
    var indicator := if a[i - 1] == b[j - 1] then 0 else 1;
    DistStep(a, b, i, j);
    matrix[j, i] := Min3(matrix[j, i - 1] + 1, matrix[j - 1, i] + 1, matrix[j - 1, i - 1] + indicator);
  }
}
