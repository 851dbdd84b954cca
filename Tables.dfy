/**
 * Generic helpers over a table held as a sequence of rows: the row order is
 * the order in which rows were inserted, but the SQL queries this models carry
 * no ORDER BY, so every contract here is stated up to order (membership and
 * multiplicity), never as a fixed sequence.
 */
module Tables {
  import opened Wrappers

  /** `SELECT * FROM rows WHERE p`: exactly the rows satisfying `p`, each as often as in the table. */
  function Where<T(!new)>(rows: seq<T>, p: T -> bool): (r: seq<T>)
    ensures forall x :: multiset(r)[x] == if p(x) then multiset(rows)[x] else 0
    ensures forall x :: x in r <==> x in rows && p(x)
    ensures |r| <= |rows|
  {
    if rows == [] then []
    else
      assert rows == [rows[0]] + rows[1..];
      (if p(rows[0]) then [rows[0]] else []) + Where(rows[1..], p)
  }

  /** At most one row of the table satisfies `p` (as for a key column that is unique). */
  ghost predicate AtMostOne<T>(rows: seq<T>, p: T -> bool) {
    forall i, j :: 0 <= i < |rows| && 0 <= j < |rows| && p(rows[i]) && p(rows[j]) ==> i == j
  }

  /**
   * `const [row] = SELECT * FROM rows WHERE p`: the first matching row, or absent.
   * When the condition selects on a unique key, the row found is THE row with that key.
   */
  function FirstWhere<T(!new)>(rows: seq<T>, p: T -> bool): (r: Option<T>)
    ensures r.Some? ==> r.value in rows && p(r.value)
    ensures r.None? <==> forall x :: x in rows ==> !p(x)
    ensures AtMostOne(rows, p) ==> forall x :: x in rows && p(x) ==> r == Some(x)
  {
    if rows == [] then None
    else if p(rows[0]) then Some(rows[0])
    else
      assert AtMostOne(rows, p) ==> AtMostOne(rows[1..], p) by {
        if AtMostOne(rows, p) {
          forall i, j | 0 <= i < |rows[1..]| && 0 <= j < |rows[1..]| && p(rows[1..][i]) && p(rows[1..][j])
            ensures i == j
          {
            assert rows[1..][i] == rows[i + 1] && rows[1..][j] == rows[j + 1];
          }
        }
      }
      FirstWhere(rows[1..], p)
  }
}
